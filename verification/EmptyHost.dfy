/** The branch that reclaims a recovery host no record is targeted at, and exactly when it can
    delete the state volume of sandboxes that still exist. */
module EmptyHost {
  import opened Options
  import opened VolumeHandoff
  import opened HandoffSafety

  predicate NoneTargeted(w: World, n: nat) {
    forall sid <- w.records :: w.records[sid].target != Some(OnDemand(n))
  }

  /** What the rows and the table show when the pass starts: either no record is left, or neither
      the host's row nor any claim of the session names the state volume. */
  predicate SafeToReclaim(w: World, n: nat) {
    w.records == map[]
    || (!(OnDemand(n) in w.rows && w.rows[OnDemand(n)] == StateVolume)
        && forall t <- w.spotClaims :: w.spotClaims[t] != StateVolume)
  }

  predicate Lost(w: World) {
    StateVolume in w.deleted && w.records != map[]
  }

  /** Kept by every step of a safely started pass over an empty host. */
  predicate KeepsVolume(w: World) {
    && StateVolume !in w.deleted
    && (forall t <- w.spotClaims :: w.spotClaims[t] != StateVolume)
    && (w.pass.Some? ==>
          var p := w.pass.value;
          && p.row != Some(StateVolume)
          && (p.pc.EmptyDeleteReplaced? ==> p.replaced != StateVolume)
          && (p.pc.EmptyDetach? || p.pc.EmptyDelete? ==> p.pc.volume != StateVolume))
  }

  lemma EmptyUnmountKeepsVolume(w: World, a: Action)
    requires KeepsVolume(w) && w.pass.Some? && w.pass.value.pc.EmptyUnmount? && EmptyNext(w, w.pass.value, a).Some?
    ensures KeepsVolume(EmptyNext(w, w.pass.value, a).value)
  {
    var v := EmptyNext(w, w.pass.value, a).value;
    assert v.spotClaims == w.spotClaims && v.deleted == w.deleted;
  }

  lemma EmptyStepKeepsVolume(w: World, a: Action)
    requires KeepsVolume(w) && w.pass.Some? && !w.pass.value.pc.EmptyUnmount? && EmptyNext(w, w.pass.value, a).Some?
    ensures KeepsVolume(EmptyNext(w, w.pass.value, a).value)
  {
  }

  // ---------- over whole runs ----------

  predicate SafeStart(w: World, a: Action) {
    a.StartPass? && NoneTargeted(w, a.n) ==> SafeToReclaim(w, a.n)
  }

  /** Every pass over a host no record is targeted at starts when the rows show it safe. */
  predicate SafeStarts(w: World, actions: seq<Action>)
    decreases |actions|
  {
    actions == [] ||
    (SafeStart(w, actions[0]) && (Next(w, actions[0]).Some? ==> SafeStarts(Next(w, actions[0]).value, actions[1..])))
  }

  predicate InEmptyBranch(w: World) {
    w.pass.Some? && IsEmptyPc(w.pass.value.pc)
  }

  /** Kept by every step whatsoever: a pass over an empty host knows nothing of the state volume. */
  predicate Protected(w: World) {
    w.records == map[] || (StateVolume !in w.deleted && (InEmptyBranch(w) ==> KeepsVolume(w)))
  }

  lemma OthersAddNoRecords(w: World, a: Action)
    ensures EnvironmentNext(w, a).Some? ==> EnvironmentNext(w, a).value.records.Keys <= w.records.Keys
    ensures RecoveryNext(w, a).Some? ==> RecoveryNext(w, a).value.records.Keys <= w.records.Keys
  {
  }

  lemma PassAddsNoRecords(w: World, a: Action)
    requires PassNext(w, a).Some?
    ensures PassNext(w, a).value.records.Keys <= w.records.Keys
  {
    var p := w.pass.value;
    if EmptyNext(w, p, a).None? && HandoffNext(w, p, a).None? {
      assert FinishNext(w, p, a).value.records.Keys == w.records.Keys;
    }
  }

  lemma NoNewRecords(w: World, a: Action)
    requires Next(w, a).Some?
    ensures Next(w, a).value.records.Keys <= w.records.Keys
  {
    OthersAddNoRecords(w, a);
    if !a.StartPass? && !a.Interrupt? && EnvironmentNext(w, a).None? && RecoveryNext(w, a).None? {
      PassAddsNoRecords(w, a);
    }
  }

  /** Beside the branch itself only the environment moves while a host is being reclaimed. */
  lemma EnvironmentKeepsClaims(w: World, a: Action)
    requires EnvironmentNext(w, a).Some?
    ensures var v := EnvironmentNext(w, a).value;
      v.pass == w.pass && v.spotClaims == w.spotClaims && v.deleted == w.deleted
  {
  }

  lemma StartKeepsProtected(w: World, n: nat)
    requires Protected(w) && Start(w, n).Some? && (NoneTargeted(w, n) ==> SafeToReclaim(w, n))
    ensures Protected(Start(w, n).value)
  {
    var mine := set sid | sid in w.records && w.records[sid].target == Some(OnDemand(n));
    if mine == {} {
      forall sid | sid in w.records ensures w.records[sid].target != Some(OnDemand(n)) {
        assert sid !in mine;
      }
    }
  }

  lemma BranchKeepsProtected(w: World, a: Action)
    requires Protected(w) && w.records != map[] && InEmptyBranch(w) && PassNext(w, a).Some?
    ensures Protected(PassNext(w, a).value)
  {
    var p := w.pass.value;
    if EmptyNext(w, p, a).Some? {
      if p.pc.EmptyUnmount? { EmptyUnmountKeepsVolume(w, a); } else { EmptyStepKeepsVolume(w, a); }
    }
  }

  /** The other steps of a pass stay out of the branch, and past the identity check never delete it. */
  lemma HandoffKeepsProtected(w: World, a: Action)
    requires Inv(w) && Protected(w) && w.records != map[] && w.pass.Some? && !InEmptyBranch(w) && PassNext(w, a).Some?
    ensures Protected(PassNext(w, a).value)
  {
    PassDeletes(w, a);
    StaysOutOfBranch(w, a);
  }

  lemma StaysOutOfBranch(w: World, a: Action)
    requires w.pass.Some? && !InEmptyBranch(w) && PassNext(w, a).Some?
    ensures !InEmptyBranch(PassNext(w, a).value)
  {
    assert EmptyNext(w, w.pass.value, a).None?;
  }

  lemma EnvironmentKeepsProtected(w: World, a: Action)
    requires Protected(w) && w.records != map[] && EnvironmentNext(w, a).Some?
    ensures Protected(EnvironmentNext(w, a).value)
  {
    EnvironmentKeepsClaims(w, a);
  }

  lemma RecoveryKeepsProtected(w: World, a: Action)
    requires Protected(w) && w.records != map[] && RecoveryNext(w, a).Some?
    ensures Protected(RecoveryNext(w, a).value)
  {
    OthersDeleteNothing(w, a);
    assert RecoveryNext(w, a).value.pass.None?;
  }

  lemma StepKeepsProtected(w: World, a: Action)
    requires Inv(w) && Protected(w) && SafeStart(w, a) && Next(w, a).Some?
    ensures Protected(Next(w, a).value)
  {
    NoNewRecords(w, a);
    if w.records == map[] {
    } else if a.StartPass? {
      StartKeepsProtected(w, a.n);
    } else if a.Interrupt? {
    } else if EnvironmentNext(w, a).Some? {
      EnvironmentKeepsProtected(w, a);
    } else if RecoveryNext(w, a).Some? {
      RecoveryKeepsProtected(w, a);
    } else if InEmptyBranch(w) {
      BranchKeepsProtected(w, a);
    } else {
      HandoffKeepsProtected(w, a);
    }
  }

  lemma {:induction false} RunKeepsProtected(w: World, actions: seq<Action>, v: World)
    requires Inv(w) && Protected(w) && SafeStarts(w, actions) && Reachable(w, actions, v)
    ensures Protected(v)
    decreases |actions|
  {
    if actions != [] {
      StepKeepsProtected(w, actions[0]);
      NextKeepsInv(w, actions[0]);
      RunKeepsProtected(Next(w, actions[0]).value, actions[1..], v);
    }
  }

  /** Along every run of recovery, repatriation, users, joins, host losses and interruptions in
      which empty hosts are reclaimed only when the rows show it safe, the state volume is never
      deleted while it holds sandboxes. */
  lemma SafeRunsLoseNothing(w0: World, actions: seq<Action>, w: World)
    requires Initial(w0) && Reachable(w0, actions, w) && SafeStarts(w0, actions)
    ensures !Lost(w)
  {
    InitialInv(w0);
    RunKeepsProtected(w0, actions, w);
  }

  lemma ReachableCons(w: World, a: Action, rest: seq<Action>, v: World)
    requires Next(w, a).Some? && Reachable(Next(w, a).value, rest, v)
    ensures Reachable(w, [a] + rest, v)
  {
    assert ([a] + rest)[1..] == rest;
  }

  /** A pass whose row names the state volume deletes it as soon as no host holds it. */
  lemma RowDeletes(w: World)
    requires w.pass.Some? && w.pass.value.pc.EmptyClaim? && w.pass.value.row == Some(StateVolume)
    requires Available(w, StateVolume)
    ensures exists v :: Reachable(w, [NoClaim, Go, Go], v) && StateVolume in v.deleted && v.records == w.records
  {
    var w1 := Next(w, NoClaim).value;
    var w2 := Next(w1, Go).value;
    var w3 := Next(w2, Go).value;
    ReachableCons(w2, Go, [], w3);
    ReachableCons(w1, Go, [Go] + [], w3);
    ReachableCons(w, NoClaim, [Go] + ([Go] + []), w3);
    assert [NoClaim] + ([Go] + ([Go] + [])) == [NoClaim, Go, Go];
  }

  /** So does a pass that finds a claim naming it. */
  lemma ClaimDeletes(w: World, t: nat)
    requires w.pass.Some? && w.pass.value.pc.EmptyClaim?
    requires t in w.spotClaims && w.spotClaims[t] == StateVolume && Available(w, StateVolume)
    ensures exists v :: Reachable(w, [UseClaim(t), Go], v) && StateVolume in v.deleted && v.records == w.records
  {
    var w1 := Next(w, UseClaim(t)).value;
    var w2 := Next(w1, Go).value;
    ReachableCons(w1, Go, [], w2);
    ReachableCons(w, UseClaim(t), [Go] + [], w2);
    assert [UseClaim(t)] + ([Go] + []) == [UseClaim(t), Go];
  }

  lemma {:induction false} NoStartsAreSafe(w: World, actions: seq<Action>)
    requires forall a <- actions :: !a.StartPass?
    ensures SafeStarts(w, actions)
    decreases |actions|
  {
    if actions != [] {
      assert actions[0] in actions;
      if Next(w, actions[0]).Some? {
        NoStartsAreSafe(Next(w, actions[0]).value, actions[1..]);
      }
    }
  }

  ghost predicate NeverLoses(s: World) {
    forall actions, v :: SafeStarts(s, actions) && Reachable(s, actions, v) ==> !Lost(v)
  }

  /** Reclaiming an empty recovery host spares the volume of every sandbox left, whatever happens
      then and after, if and only if the rows show it safe when the pass starts. */
  lemma EmptyPassSafeExactly(w0: World, history: seq<Action>, w: World, n: nat)
    requires Initial(w0) && Reachable(w0, history, w)
    requires Start(w, n).Some? && NoneTargeted(w, n) && StateVolume !in w.deleted
    ensures SafeToReclaim(w, n) <==> NeverLoses(Start(w, n).value)
  {
    var s := Start(w, n).value;
    assert (set sid | sid in w.records && w.records[sid].target == Some(OnDemand(n))) == {};
    if SafeToReclaim(w, n) {
      InitialInv(w0);
      ReachableInv(w0, history, w);
      StartKeepsInv(w, n);
      StartKeepsProtected(w, n);
      forall actions, v | SafeStarts(s, actions) && Reachable(s, actions, v) ensures !Lost(v) {
        RunKeepsProtected(s, actions, v);
      }
    } else {
      var actions, v := UnsafePassLoses(s);
      assert Lost(v);
    }
  }

  lemma UnsafePassLoses(s: World) returns (actions: seq<Action>, v: World)
    requires s.pass.Some? && s.pass.value.pc.EmptyClaim? && s.records != map[] && StateVolume !in s.deleted
    requires s.pass.value.row == Some(StateVolume) || exists t <- s.spotClaims :: s.spotClaims[t] == StateVolume
    ensures SafeStarts(s, actions) && Reachable(s, actions, v) && Lost(v)
  {
    var free := s;
    if StateVolume in s.attached {
      free := Lose(s, s.attached[StateVolume]);
    }
    if s.pass.value.row == Some(StateVolume) {
      RowDeletes(free);
      actions := [NoClaim, Go, Go];
    } else {
      var t :| t in s.spotClaims && s.spotClaims[t] == StateVolume;
      ClaimDeletes(free, t);
      actions := [UseClaim(t), Go];
    }
    v :| Reachable(free, actions, v) && StateVolume in v.deleted && v.records == free.records;
    if StateVolume in s.attached {
      ReachableCons(s, HostLost(s.attached[StateVolume]), actions, v);
      actions := [HostLost(s.attached[StateVolume])] + actions;
    }
    NoStartsAreSafe(s, actions);
  }

  // ---------- the fence does not see the other recovery hosts ----------

  /** One sandbox on the Spot host that is about to go. */
  function OneSandbox(): (w: World)
    ensures Initial(w)
  {
    var w := World(map[0 := Record(Running, None, None, false)], map[StateVolume := Origin], {},
                   map[Origin := StateVolume], {(Origin, 0)}, {}, map[], {}, map[], {}, None);
    assert w.vms == set sid | sid in w.records :: (Origin, sid);
    w
  }

  /** Its recovery is interrupted after the volume is mounted on the first standby; that standby's
      row lapses, so the session claims a second one and retargets the record; then the first row
      is back, naming the state volume. */
  const RETARGETED: seq<Action> := [
    CheckpointOrigin(0), HostLost(Origin), ClaimStandby(0), TargetRecord(0, 0), AttachStandby(0),
    MountStandby(0), Heartbeat(OnDemand(0)), ClaimStandby(1), TargetRecord(1, 0)]

  function Retargeted(): World {
    Stage(ON_SECOND, AT_FIRST, BY_FIRST, BY_FIRST, {0, 1})
  }

  /** The worlds along RETARGETED, from the loss of the Spot host on. */
  function Stage(record: Record, attached: map<Volume, Host>, mounted: map<Host, Volume>,
                 rows: map<Host, Volume>, claims: set<nat>): World {
    World(map[0 := record], attached, {}, mounted, {}, {}, rows, claims, map[], {Origin}, None)
  }

  const WAITING := Record(Checkpointed, None, None, false)
  const ON_FIRST := Record(Attaching, Some(OnDemand(0)), None, false)
  const ON_SECOND := Record(Attaching, Some(OnDemand(1)), None, false)
  const AT_FIRST: map<Volume, Host> := map[StateVolume := OnDemand(0)]
  const BY_FIRST: map<Host, Volume> := map[OnDemand(0) := StateVolume]

  lemma Stage1() returns (w: World)
    ensures Next(OneSandbox(), CheckpointOrigin(0)) == Some(w)
    ensures w == OneSandbox().(records := map[0 := WAITING], vms := {})
  {
    w := Next(OneSandbox(), CheckpointOrigin(0)).value;
    assert w.vms == {};
  }

  lemma Stage2(w: World)
    requires w == OneSandbox().(records := map[0 := WAITING], vms := {})
    ensures Next(w, HostLost(Origin)) == Some(Stage(WAITING, map[], map[], map[], {}))
  {
    var v := Lose(w, Origin);
    assert v.attached == map[] && v.mounted == map[] && v.vms == {} && v.parked == {} && v.gone == {Origin};
  }

  lemma Stage3()
    ensures Next(Stage(WAITING, map[], map[], map[], {}), ClaimStandby(0))
        == Some(Stage(WAITING, map[], map[], map[], {0}))
  {
    assert {} + {0} == {0};
  }

  lemma Stage4()
    ensures Next(Stage(WAITING, map[], map[], map[], {0}), TargetRecord(0, 0))
        == Some(Stage(ON_FIRST, map[], map[], map[], {0}))
  {
    assert map[0 := WAITING][0 := ON_FIRST] == map[0 := ON_FIRST];
  }

  lemma Stage5()
    ensures Next(Stage(ON_FIRST, map[], map[], map[], {0}), AttachStandby(0))
        == Some(Stage(ON_FIRST, AT_FIRST, map[], map[], {0}))
  {
    assert TargetIs(Stage(ON_FIRST, map[], map[], map[], {0}), 0, OnDemand(0));
    assert map[][StateVolume := OnDemand(0)] == AT_FIRST;
  }

  lemma Stage6()
    ensures Next(Stage(ON_FIRST, AT_FIRST, map[], map[], {0}), MountStandby(0))
        == Some(Stage(ON_FIRST, AT_FIRST, BY_FIRST, map[], {0}))
  {
    assert map[][OnDemand(0) := StateVolume] == BY_FIRST;
  }

  lemma Stage7()
    ensures Next(Stage(ON_FIRST, AT_FIRST, BY_FIRST, map[], {0}), Heartbeat(OnDemand(0)))
         == Some(Stage(ON_FIRST, AT_FIRST, BY_FIRST, BY_FIRST, {0}))
  {
    assert map[][OnDemand(0) := StateVolume] == BY_FIRST;
  }

  lemma Stage8()
    ensures Next(Stage(ON_FIRST, AT_FIRST, BY_FIRST, BY_FIRST, {0}), ClaimStandby(1))
         == Some(Stage(ON_FIRST, AT_FIRST, BY_FIRST, BY_FIRST, {0, 1}))
  {
    assert {0} + {1} == {0, 1};
  }

  lemma Stage9()
    ensures Next(Stage(ON_FIRST, AT_FIRST, BY_FIRST, BY_FIRST, {0, 1}), TargetRecord(1, 0)) == Some(Retargeted())
  {
    assert map[0 := ON_FIRST][0 := ON_SECOND] == map[0 := ON_SECOND];
  }

  /** A run from its k-th action on, followed by `tail`. */
  lemma Follow(actions: seq<Action>, k: nat, u: World, v: World, tail: seq<Action>, w: World)
    requires k < |actions| && Next(u, actions[k]) == Some(v)
    requires Reachable(v, actions[k + 1..] + tail, w)
    ensures Reachable(u, actions[k..] + tail, w)
  {
    ReachableCons(u, actions[k], actions[k + 1..] + tail, w);
    assert [actions[k]] + (actions[k + 1..] + tail) == actions[k..] + tail;
  }

  lemma SecondHalfReachable(tail: seq<Action>, w: World)
    requires Reachable(Retargeted(), tail, w)
    ensures Reachable(Stage(ON_FIRST, map[], map[], map[], {0}), RETARGETED[4..] + tail, w)
  {
    Stage5(); Stage6(); Stage7(); Stage8(); Stage9();
    assert RETARGETED[9..] + tail == tail;
    Follow(RETARGETED, 8, Stage(ON_FIRST, AT_FIRST, BY_FIRST, BY_FIRST, {0, 1}), Retargeted(), tail, w);
    Follow(RETARGETED, 7, Stage(ON_FIRST, AT_FIRST, BY_FIRST, BY_FIRST, {0}),
        Stage(ON_FIRST, AT_FIRST, BY_FIRST, BY_FIRST, {0, 1}), tail, w);
    Follow(RETARGETED, 6, Stage(ON_FIRST, AT_FIRST, BY_FIRST, map[], {0}),
        Stage(ON_FIRST, AT_FIRST, BY_FIRST, BY_FIRST, {0}), tail, w);
    Follow(RETARGETED, 5, Stage(ON_FIRST, AT_FIRST, map[], map[], {0}),
        Stage(ON_FIRST, AT_FIRST, BY_FIRST, map[], {0}), tail, w);
    Follow(RETARGETED, 4, Stage(ON_FIRST, map[], map[], map[], {0}),
        Stage(ON_FIRST, AT_FIRST, map[], map[], {0}), tail, w);
  }

  lemma FirstHalfReachable(tail: seq<Action>, w: World)
    requires Reachable(Stage(ON_FIRST, map[], map[], map[], {0}), RETARGETED[4..] + tail, w)
    ensures Reachable(Stage(WAITING, map[], map[], map[], {}), RETARGETED[2..] + tail, w)
  {
    Stage3(); Stage4();
    Follow(RETARGETED, 3, Stage(WAITING, map[], map[], map[], {0}), Stage(ON_FIRST, map[], map[], map[], {0}), tail, w);
    Follow(RETARGETED, 2, Stage(WAITING, map[], map[], map[], {}), Stage(WAITING, map[], map[], map[], {0}), tail, w);
  }

  lemma RetargetedReachable(tail: seq<Action>, w: World)
    requires Reachable(Retargeted(), tail, w)
    ensures Reachable(OneSandbox(), RETARGETED + tail, w)
  {
    SecondHalfReachable(tail, w);
    FirstHalfReachable(tail, w);
    LossReachable(RETARGETED, tail, w);
  }

  /** Every run here begins with the sandbox checkpointed and its Spot host lost. */
  lemma LossReachable(actions: seq<Action>, tail: seq<Action>, w: World)
    requires |actions| >= 2 && actions[0] == CheckpointOrigin(0) && actions[1] == HostLost(Origin)
    requires Reachable(Stage(WAITING, map[], map[], map[], {}), actions[2..] + tail, w)
    ensures Reachable(OneSandbox(), actions + tail, w)
  {
    var w1 := Stage1();
    Stage2(w1);
    Follow(actions, 1, w1, Stage(WAITING, map[], map[], map[], {}), tail, w);
    Follow(actions, 0, OneSandbox(), w1, tail, w);
    assert actions[0..] == actions;
  }

  /** A pass whose host still has the volume attached and runs nothing takes it down and deletes it. */
  lemma AttachedHostDeletes(w: World) returns (v: World)
    requires w.pass.Some? && w.pass.value.pc.EmptyUnmount? && w.pass.value.row == Some(StateVolume)
    requires var src := OnDemand(w.pass.value.source);
             AttachedTo(w, StateVolume, src) && Mounts(w, src, StateVolume) && !RunsOn(w, src)
    ensures Reachable(w, [Go, Go, Go], v)
    ensures StateVolume in v.deleted && v.records == w.records && v.gone == w.gone
  {
    var w1 := Next(w, Go).value;
    var w2 := Next(w1, Go).value;
    v := Next(w2, Go).value;
    ReachableCons(w2, Go, [], v);
    ReachableCons(w1, Go, [Go], v);
    ReachableCons(w, Go, [Go, Go], v);
  }

  lemma PassOverFirstStandby() returns (w: World)
    ensures Next(Retargeted(), StartPass(0)).Some?
    ensures Next(Next(Retargeted(), StartPass(0)).value, NoClaim) == Some(w)
    ensures w == Retargeted().(pass := Some(Pass(0, Some(StateVolume), map[], {}, 0, StateVolume, EmptyUnmount)))
  {
    var v := Retargeted();
    assert (set sid | sid in v.records && v.records[sid].target == Some(OnDemand(0))) == {};
    var s := Next(v, StartPass(0)).value;
    assert s.pass.value.originals == map[] && s.pass.value.unflagged == {};
    w := Next(s, NoClaim).value;
  }

  /** No second host fails: from there the pass over the first standby, which sees no record
      targeted at it, unmounts, detaches and deletes the volume of a sandbox that still exists. */
  lemma ReclaimedStandbyLosesVolume() returns (w: World)
    ensures Initial(OneSandbox()) && Reachable(OneSandbox(), RETARGETED + [StartPass(0), NoClaim, Go, Go, Go], w)
    ensures Lost(w) && w.records == map[0 := ON_SECOND] && w.gone == {Origin}
  {
    var v := PassOverFirstStandby();
    w := AttachedHostDeletes(v);
    ReachableCons(Next(Retargeted(), StartPass(0)).value, NoClaim, [Go, Go, Go], w);
    ReachableCons(Retargeted(), StartPass(0), [NoClaim, Go, Go, Go], w);
    RetargetedReachable([StartPass(0), NoClaim, Go, Go, Go], w);
    assert 0 in w.records;
  }
}
