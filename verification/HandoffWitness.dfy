/** The protocol's own run from the interrupted Spot host to the next one: the worlds the handoff
    theorems start from are reached, and so is their goal. */
module HandoffWitness {
  import opened Options
  import opened VolumeHandoff
  import opened EmptyHost
  import opened Reentrancy
  import opened ReentrantRuns
  import opened RepatriationGoal
  import opened RepatriationRuns

  const PLAN := Plan(0, 7, map[0 := Running])

  /** One sandbox, checkpointed, recovered on a standby; a new Spot host joins and reports. */
  const RECOVERY: seq<Action> := [
    CheckpointOrigin(0), HostLost(Origin), ClaimStandby(0), TargetRecord(0, 0), AttachStandby(0),
    MountStandby(0), RecoverVm(0, 0), RecoverRecord(0, 0), SpotJoins(7), Heartbeat(Spot(7))]

  const RECOVERING := Record(Recovering, Some(OnDemand(0)), None, false)
  const RECOVERED := Record(Running, Some(OnDemand(0)), None, false)
  const WITH_SPOT: map<Volume, Host> := map[StateVolume := OnDemand(0), Fresh(7) := Spot(7)]
  const BOTH_MOUNTED: map<Host, Volume> := map[OnDemand(0) := StateVolume, Spot(7) := Fresh(7)]

  function OnStandby(record: Record): World {
    Stage(record, AT_FIRST, BY_FIRST, map[], {0}).(vms := {(OnDemand(0), 0)})
  }

  function WithSpot(rows: map<Host, Volume>): World {
    OnStandby(RECOVERED).(attached := WITH_SPOT, mounted := BOTH_MOUNTED, rows := rows)
  }

  lemma Recovers()
    ensures Next(Stage(ON_FIRST, AT_FIRST, BY_FIRST, map[], {0}), RecoverVm(0, 0)) == Some(OnStandby(RECOVERING))
  {
    assert map[0 := ON_FIRST][0 := RECOVERING] == map[0 := RECOVERING];
    assert {} + {(OnDemand(0), 0)} == {(OnDemand(0), 0)};
  }

  lemma RecordRecovers()
    ensures Next(OnStandby(RECOVERING), RecoverRecord(0, 0)) == Some(OnStandby(RECOVERED))
  {
    assert map[0 := RECOVERING][0 := RECOVERED] == map[0 := RECOVERED];
  }

  lemma SpotComes()
    ensures Next(OnStandby(RECOVERED), SpotJoins(7)) == Some(WithSpot(map[]))
  {
    assert AT_FIRST[Fresh(7) := Spot(7)] == WITH_SPOT && BY_FIRST[Spot(7) := Fresh(7)] == BOTH_MOUNTED;
  }

  lemma SpotReports()
    ensures Next(WithSpot(map[]), Heartbeat(Spot(7))) == Some(WithSpot(map[Spot(7) := Fresh(7)]))
  {
    assert map[][Spot(7) := Fresh(7)] == map[Spot(7) := Fresh(7)];
  }

  lemma RecoveryFromMount(tail: seq<Action>, w: World)
    requires Reachable(WithSpot(map[Spot(7) := Fresh(7)]), tail, w)
    ensures Reachable(Stage(ON_FIRST, AT_FIRST, BY_FIRST, map[], {0}), RECOVERY[6..] + tail, w)
  {
    Recovers(); RecordRecovers(); SpotComes(); SpotReports();
    assert RECOVERY[10..] + tail == tail;
    Follow(RECOVERY, 9, WithSpot(map[]), WithSpot(map[Spot(7) := Fresh(7)]), tail, w);
    Follow(RECOVERY, 8, OnStandby(RECOVERED), WithSpot(map[]), tail, w);
    Follow(RECOVERY, 7, OnStandby(RECOVERING), OnStandby(RECOVERED), tail, w);
    Follow(RECOVERY, 6, Stage(ON_FIRST, AT_FIRST, BY_FIRST, map[], {0}), OnStandby(RECOVERING), tail, w);
  }

  lemma RecoveryFromClaim(tail: seq<Action>, w: World)
    requires Reachable(Stage(ON_FIRST, AT_FIRST, BY_FIRST, map[], {0}), RECOVERY[6..] + tail, w)
    ensures Reachable(Stage(WAITING, map[], map[], map[], {}), RECOVERY[2..] + tail, w)
  {
    Stage3(); Stage4(); Stage5(); Stage6();
    Follow(RECOVERY, 5, Stage(ON_FIRST, AT_FIRST, map[], map[], {0}),
        Stage(ON_FIRST, AT_FIRST, BY_FIRST, map[], {0}), tail, w);
    Follow(RECOVERY, 4, Stage(ON_FIRST, map[], map[], map[], {0}),
        Stage(ON_FIRST, AT_FIRST, map[], map[], {0}), tail, w);
    Follow(RECOVERY, 3, Stage(WAITING, map[], map[], map[], {0}), Stage(ON_FIRST, map[], map[], map[], {0}), tail, w);
    Follow(RECOVERY, 2, Stage(WAITING, map[], map[], map[], {}), Stage(WAITING, map[], map[], map[], {0}), tail, w);
  }

  lemma RecoveryReaches(tail: seq<Action>, w: World)
    requires Reachable(WithSpot(map[Spot(7) := Fresh(7)]), tail, w)
    ensures Reachable(OneSandbox(), RECOVERY + tail, w)
  {
    RecoveryFromMount(tail, w);
    RecoveryFromClaim(tail, w);
    LossReachable(RECOVERY, tail, w);
  }

  lemma WithSpotIsRecovered()
    ensures GoodPlan(PLAN) && Recovered(WithSpot(map[Spot(7) := Fresh(7)]), PLAN)
  {
    var w := WithSpot(map[Spot(7) := Fresh(7)]);
    assert 0 in PLAN.states;
    assert w.vms == set sid | sid in PLAN.states && PLAN.Runs(sid) :: (PLAN.Src(), sid);
    assert w.parked == set sid | sid in PLAN.states && PLAN.states[sid] == Suspended :: (PLAN.Src(), sid);
  }

  /** The world every handoff starts from is reached from the initial one. */
  lemma RecoveredIsReached() returns (w: World)
    ensures Initial(OneSandbox()) && Reachable(OneSandbox(), RECOVERY, w)
    ensures GoodPlan(PLAN) && Recovered(w, PLAN)
  {
    w := WithSpot(map[Spot(7) := Fresh(7)]);
    RecoveryReaches([], w);
    assert RECOVERY + [] == RECOVERY;
    WithSpotIsRecovered();
  }

  lemma {:induction false} SteadyIsReachable(w: World, actions: seq<Action>, v: World, k: Plan)
    requires SteadyRun(w, actions, v, k)
    ensures Reachable(w, actions, v)
    decreases |actions|
  {
    if actions != [] {
      SteadyIsReachable(Next(w, actions[0]).value, actions[1..], v, k);
    }
  }

  /** And a run of the whole protocol leads from the initial world to the goal of the handoff. */
  lemma GoalIsReached() returns (actions: seq<Action>, v: World)
    ensures Initial(OneSandbox()) && Reachable(OneSandbox(), RECOVERY + actions, v) && Goal(v, PLAN)
  {
    var w := WithSpot(map[Spot(7) := Fresh(7)]);
    WithSpotIsRecovered();
    RecoveredIsBefore(w, PLAN);
    StartEntersPass(w, PLAN);
    var s := Start(w, PLAN.source).value;
    var pass: seq<Action>;
    pass, v := PassCompletes(s, PLAN);
    SteadyIsReachable(s, pass, v, PLAN);
    actions := [StartPass(PLAN.source)] + pass;
    ReachableCons(w, StartPass(PLAN.source), pass, v);
    RecoveryReaches(actions, v);
  }
}
