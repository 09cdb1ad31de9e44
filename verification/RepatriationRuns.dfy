/** The theorems about whole runs of passes over one handoff: any number of attempts, interrupted
    anywhere the exact condition allows, then one that is left alone. */
module RepatriationRuns {
  import opened Options
  import opened VolumeHandoff
  import opened Reentrancy
  import opened ReentrantRuns
  import opened RepatriationGoal

  /** A node reporting what it has mounted. */
  predicate Beat(w: World, a: Action) {
    a.Heartbeat? && Next(w, a).Some?
  }

  /** A pass left alone, nodes reporting meanwhile. */
  predicate SteadyRun(w: World, actions: seq<Action>, v: World, k: Plan)
    decreases |actions|
  {
    if actions == [] then v == w
    else (Beat(w, actions[0]) || Enabled(w, actions[0], k)) && SteadyRun(Next(w, actions[0]).value, actions[1..], v, k)
  }

  /** The steps among them that the pass takes itself. */
  function OwnSteps(actions: seq<Action>): nat {
    if actions == [] then 0 else (if actions[0].Heartbeat? then 0 else 1) + OwnSteps(actions[1..])
  }

  /** Passes over the source host, started and interrupted at will, until the handoff is done;
      nodes report at any time. */
  predicate AttemptStep(w: World, a: Action, k: Plan) {
    if a.Heartbeat? then Next(w, a).Some?
    else if w.pass.None? then a == StartPass(k.source) && !Goal(w, k) && Next(w, a).Some?
    else a.Interrupt? || Enabled(w, a, k)
  }

  predicate Attempts(w: World, actions: seq<Action>, v: World, k: Plan)
    decreases |actions|
  {
    if actions == [] then v == w
    else AttemptStep(w, actions[0], k) && Attempts(Next(w, actions[0]).value, actions[1..], v, k)
  }

  /** No attempt is interrupted while some sandboxes run on the Spot host and others have not moved. */
  predicate GentleAttempts(w: World, actions: seq<Action>, v: World, k: Plan)
    decreases |actions|
  {
    if actions == [] then v == w
    else
      && AttemptStep(w, actions[0], k) && (actions[0].Interrupt? ==> Interruptible(w, k))
      && GentleAttempts(Next(w, actions[0]).value, actions[1..], v, k)
  }

  /** `w` is where any number of passes over the handoff, started at `w0`, have got to. */
  predicate Attempted(w0: World, attempts: seq<Action>, w: World, k: Plan) {
    GoodPlan(k) && w0.pass.None? && Before(w0, k) && GentleAttempts(w0, attempts, w, k)
  }

  predicate InHand(w: World, k: Plan) {
    if w.pass.None? then Before(w, k) || After(w, k) || Goal(w, k) else InPass(w, k)
  }

  // ---------- a pass left alone reaches the goal ----------

  lemma BeatKeepsGoal(w: World, a: Action, k: Plan)
    requires Goal(w, k) && Beat(w, a)
    ensures Goal(Next(w, a).value, k)
  {
    BeatSetsRow(w, a.h);
  }

  lemma BeatKeepsSteps(w: World, a: Action, k: Plan)
    requires Beat(w, a)
    ensures StepsLeft(Next(w, a).value, k) == StepsLeft(w, k)
  {
    BeatSetsRow(w, a.h);
    if w.pass.Some? {
      assert Pending(Next(w, a).value, k, w.pass.value.pc) == Pending(w, k, w.pass.value.pc);
    }
  }

  lemma BeatKeepsPass(w: World, a: Action, k: Plan)
    requires (InPass(w, k) || Goal(w, k)) && Beat(w, a)
    ensures var v := Next(w, a).value;
      (InPass(w, k) ==> InPass(v, k)) && (Goal(w, k) ==> Goal(v, k)) && StepsLeft(v, k) == StepsLeft(w, k)
  {
    BeatKeepsSteps(w, a, k);
    if InPass(w, k) { BeatKeeps(w, a.h, k); } else { BeatKeepsGoal(w, a, k); }
  }

  /** Left alone, a pass cannot exceed its step count, and stops nowhere short of the goal, whatever
      the nodes report in the meantime. */
  lemma {:induction false} PassEndsAtGoal(w: World, actions: seq<Action>, v: World, k: Plan)
    requires InPass(w, k) && SteadyRun(w, actions, v, k)
    ensures OwnSteps(actions) <= StepsLeft(w, k)
    ensures (forall a :: !Enabled(v, a, k)) ==> Goal(v, k)
    ensures InPass(v, k) || Goal(v, k)
    decreases |actions|
  {
    if actions == [] {
      var a := SomeStep(w, k);
      assert Enabled(v, a, k);
    } else {
      var next := Next(w, actions[0]).value;
      if actions[0].Heartbeat? {
        BeatKeepsPass(w, actions[0], k);
      } else {
        StepKeeps(w, actions[0], k);
        StepShrinks(w, actions[0], k);
      }
      if InPass(next, k) {
        PassEndsAtGoal(next, actions[1..], v, k);
      } else {
        GoalStays(next, actions[1..], v, k);
      }
    }
  }

  lemma {:induction false} GoalStays(w: World, actions: seq<Action>, v: World, k: Plan)
    requires Goal(w, k) && SteadyRun(w, actions, v, k)
    ensures Goal(v, k) && OwnSteps(actions) == 0
    decreases |actions|
  {
    if actions != [] {
      if actions[0].Heartbeat? {
        BeatKeepsPass(w, actions[0], k);
        GoalStays(Next(w, actions[0]).value, actions[1..], v, k);
      } else {
        assert false;
      }
    }
  }

  /** And there is such a pass. */
  lemma {:induction false} PassCompletes(w: World, k: Plan) returns (actions: seq<Action>, v: World)
    requires InPass(w, k)
    ensures SteadyRun(w, actions, v, k) && Goal(v, k)
    decreases StepsLeft(w, k)
  {
    var a := SomeStep(w, k);
    var next := Next(w, a).value;
    StepKeeps(w, a, k);
    StepShrinks(w, a, k);
    var rest: seq<Action>;
    if Goal(next, k) {
      rest, v := [], next;
    } else {
      rest, v := PassCompletes(next, k);
    }
    actions := [a] + rest;
    assert actions[1..] == rest;
  }

  // ---------- attempts ----------

  lemma BeatKeepsInHand(w: World, a: Action, k: Plan)
    requires InHand(w, k) && Beat(w, a)
    ensures InHand(Next(w, a).value, k)
  {
    if Goal(w, k) { BeatKeepsPass(w, a, k); } else { BeatKeeps(w, a.h, k); }
  }

  lemma AttemptKeepsInHand(w: World, a: Action, k: Plan)
    requires GoodPlan(k) && InHand(w, k) && AttemptStep(w, a, k) && (a.Interrupt? ==> Interruptible(w, k))
    ensures InHand(Next(w, a).value, k)
  {
    if a.Heartbeat? {
      BeatKeepsInHand(w, a, k);
    } else if w.pass.None? {
      if Before(w, k) { BeforeStarts(w, k); } else { AfterStarts(w, k); }
    } else if a.Interrupt? {
      InterruptKeepsInHand(w, k);
    } else {
      StepKeeps(w, a, k);
    }
  }

  lemma InterruptKeepsInHand(w: World, k: Plan)
    requires InPass(w, k) && Interruptible(w, k)
    ensures Before(w.(pass := None), k) || After(w.(pass := None), k)
  {
    if InHandoff(w, k) {
      if AllMoved(w, k) { AllMovedIsAfter(w, k); } else { BackToBefore(w, k); }
    }
  }

  lemma {:induction false} AttemptsKeepInHand(w: World, actions: seq<Action>, v: World, k: Plan)
    requires GoodPlan(k) && InHand(w, k) && GentleAttempts(w, actions, v, k)
    ensures InHand(v, k)
    decreases |actions|
  {
    if actions != [] {
      AttemptKeepsInHand(w, actions[0], k);
      AttemptsKeepInHand(Next(w, actions[0]).value, actions[1..], v, k);
    }
  }

  /** Left alone, a pass from here ends at the goal, in a bounded number of its own steps. */
  ghost predicate EndsAtGoal(s: World, k: Plan) {
    forall actions, v :: SteadyRun(s, actions, v, k) ==>
      OwnSteps(actions) <= StepsLeft(s, k) && ((forall a :: !Enabled(v, a, k)) ==> Goal(v, k))
  }

  lemma PassesEndAtGoal(s: World, k: Plan)
    requires InPass(s, k)
    ensures EndsAtGoal(s, k)
  {
    forall actions, v | SteadyRun(s, actions, v, k)
      ensures OwnSteps(actions) <= StepsLeft(s, k) && ((forall a :: !Enabled(v, a, k)) ==> Goal(v, k))
    {
      PassEndsAtGoal(s, actions, v, k);
    }
  }

  lemma StartEntersPass(w: World, k: Plan)
    requires GoodPlan(k) && w.pass.None? && (Before(w, k) || After(w, k))
    ensures Start(w, k.source).Some? && Next(w, StartPass(k.source)) == Start(w, k.source)
    ensures InPass(Start(w, k.source).value, k)
  {
    if Before(w, k) { BeforeStarts(w, k); } else { AfterStarts(w, k); }
  }

  /** Repatriation is re-entrant.  However many passes were interrupted before, unless the handoff
      is already done the next one starts, and left alone it ends at the goal: the state volume on
      the Spot host, every sandbox in its original state, the replaced volume deleted, the
      On-Demand host terminated. */
  lemma RepatriationReentrant(w0: World, attempts: seq<Action>, w: World, k: Plan)
    requires Attempted(w0, attempts, w, k)
    ensures w.pass.None? ==>
              Goal(w, k) || (Next(w, StartPass(k.source)).Some? && EndsAtGoal(Next(w, StartPass(k.source)).value, k))
  {
    AttemptsKeepInHand(w0, attempts, w, k);
    if w.pass.None? && !Goal(w, k) {
      StartEntersPass(w, k);
      PassesEndAtGoal(Next(w, StartPass(k.source)).value, k);
    }
  }

  /** Once the source no longer has the volume, every sandbox that ran there is known to have been
      checkpointed, or has moved already. */
  lemma UnmountedMeansCheckpointed(w0: World, attempts: seq<Action>, w: World, k: Plan)
    requires Attempted(w0, attempts, w, k)
    ensures forall sid <- w.records :: k.Runs(sid) && k.Src() !in w.mounted ==>
              w.records[sid].flagged || Moved(k, w.records[sid], k.states[sid])
  {
    AttemptsKeepInHand(w0, attempts, w, k);
    forall sid | sid in w.records && k.Runs(sid) && k.Src() !in w.mounted
      ensures w.records[sid].flagged || Moved(k, w.records[sid], k.states[sid])
    {
      if w.pass.None? && Before(w, k) {
        WaitingIsFlagged(w, k, sid);
      } else if w.pass.Some? && InHandoff(w, k) {
        HandedOverIsFlagged(w, k, sid);
      }
    }
  }

  lemma WaitingIsFlagged(w: World, k: Plan, sid: Sid)
    requires Before(w, k) && sid in w.records && k.Runs(sid) && k.Src() !in w.mounted
    ensures w.records[sid].flagged
  {
    assert WaitingRecord(w, k, sid);
  }

  lemma HandedOverIsFlagged(w: World, k: Plan, sid: Sid)
    requires InHandoff(w, k) && sid in w.records && k.Runs(sid) && k.Src() !in w.mounted
    ensures w.records[sid].flagged
  {
    assert RecordOk(w, k, sid);
  }

  /** A host all its sandboxes were recovered on, and a Spot host that has reported its own empty
      volume: where every handoff starts. */
  predicate Recovered(w: World, k: Plan) {
    && w.pass.None? && w.records.Keys == k.states.Keys
    && (forall sid <- w.records :: w.records[sid] == Record(k.states[sid], Some(k.Src()), None, false))
    && k.source in w.standbyClaims && k.Src() !in w.gone && k.Dst() !in w.gone && w.deleted == {}
        && w.spotClaims == map[]
    && w.attached == map[StateVolume := k.Src(), k.Replaced() := k.Dst()]
    && w.mounted == map[k.Src() := StateVolume, k.Dst() := k.Replaced()]
    && (k.Src() in w.rows ==> w.rows[k.Src()] == StateVolume) && k.Dst() in w.rows && w.rows[k.Dst()] == k.Replaced()
    && w.vms == (set sid | sid in k.states && k.Runs(sid) :: (k.Src(), sid))
    && w.parked == (set sid | sid in k.states && k.states[sid] == Suspended :: (k.Src(), sid))
  }

  lemma RecoveredIsBefore(w: World, k: Plan)
    requires GoodPlan(k) && Recovered(w, k)
    ensures Before(w, k)
  {
    var sid :| sid in k.states;
    assert w.records[sid].target == Some(k.Src());
    forall s | s in w.records ensures WaitingRecord(w, k, s) {
      assert k.Runs(s) ==> (k.Src(), s) in w.vms;
    }
  }

  // ---------- interrupted halfway through the resumes ----------

  /** One sandbox runs on the Spot host, another has not left the source. */
  predicate Torn(w: World, k: Plan, there: Sid, left: Sid) {
    && (k.Dst(), there) in w.vms + w.parked && AttachedTo(w, StateVolume, k.Dst()) && k.Replaced() !in w.attached
    && k.target in w.spotClaims && w.spotClaims[k.target] == k.Replaced()
    && left in w.records && w.records[left].target == Some(k.Src())
    && (w.pass.Some? ==>
          var p := w.pass.value;
          && p.source == k.source && left in p.originals
          && (p.pc.ClaimTarget? || (Rank(p.pc) <= 9 && p.target == k.target && p.replaced == k.Replaced())))
  }

  lemma TornRecordsStep(w: World, a: Action, k: Plan, there: Sid, left: Sid)
    requires Torn(w, k, there, left) && w.pass.Some? && Steady(w, a, k)
    requires var pc := w.pass.value.pc; pc.ClaimTarget? || pc.Mark? || pc.Checkpoint? || pc.Handoff?
    ensures HandoffNext(w, w.pass.value, a).Some? ==> Torn(HandoffNext(w, w.pass.value, a).value, k, there, left)
  {
  }

  lemma TornUnmountStep(w: World, a: Action, k: Plan, there: Sid, left: Sid)
    requires Torn(w, k, there, left) && w.pass.Some?
        && (w.pass.value.pc.UnmountSource? || w.pass.value.pc.UnmountReplaced?)
    ensures HandoffNext(w, w.pass.value, a).Some? ==> Torn(HandoffNext(w, w.pass.value, a).value, k, there, left)
  {
  }

  lemma TornVolumeStep(w: World, a: Action, k: Plan, there: Sid, left: Sid)
    requires Torn(w, k, there, left) && w.pass.Some?
    requires var pc := w.pass.value.pc; pc.DetachSource? || pc.DetachReplaced? || pc.AttachTarget?
    ensures HandoffNext(w, w.pass.value, a).Some? ==> Torn(HandoffNext(w, w.pass.value, a).value, k, there, left)
  {
  }

  lemma TornMountRefused(w: World, a: Action, k: Plan, there: Sid, left: Sid)
    requires Torn(w, k, there, left) && w.pass.Some? && w.pass.value.pc.MountTarget?
    ensures HandoffNext(w, w.pass.value, a).None?
  {
    var x := (k.Dst(), there);
    assert x in w.vms + w.parked && x.0 == k.Dst();
  }

  lemma TornStep(w: World, a: Action, k: Plan, there: Sid, left: Sid)
    requires Torn(w, k, there, left) && AttemptStep(w, a, k)
    ensures Torn(Next(w, a).value, k, there, left)
  {
    if a.Heartbeat? {
      BeatSetsRow(w, a.h);
    } else if w.pass.Some? && !a.Interrupt? {
      SteadyIsPassNext(w, a, k);
      WhichBranch(w, a);
      if w.pass.value.pc.MountTarget? {
        TornMountRefused(w, a, k, there, left);
      } else if w.pass.value.pc.UnmountSource? || w.pass.value.pc.UnmountReplaced? {
        TornUnmountStep(w, a, k, there, left);
      } else if Rank(w.pass.value.pc) >= 4 {
        TornVolumeStep(w, a, k, there, left);
      } else {
        TornRecordsStep(w, a, k, there, left);
      }
    }
  }

  lemma {:induction false} TornForever(w: World, actions: seq<Action>, v: World, k: Plan, there: Sid, left: Sid)
    requires Torn(w, k, there, left) && Attempts(w, actions, v, k)
    ensures !Goal(v, k)
    decreases |actions|
  {
    if actions != [] {
      TornStep(w, actions[0], k, there, left);
      TornForever(Next(w, actions[0]).value, actions[1..], v, k, there, left);
    }
  }

  lemma InterruptTears(w: World, k: Plan) returns (there: Sid, left: Sid)
    requires InHandoff(w, k) && !Interruptible(w, k)
    ensures Torn(w.(pass := None), k, there, left)
  {
    SomeoneLeftBehind(w, k);
    left :| left in w.records && w.records[left].target == Some(k.Src());
    var x :| x in w.vms + w.parked && x.0 == k.Dst();
    there := x.1;
  }

  lemma {:induction false} SteadyIsAttempts(w: World, actions: seq<Action>, v: World, k: Plan)
    requires (InPass(w, k) || Goal(w, k)) && SteadyRun(w, actions, v, k)
    ensures Attempts(w, actions, v, k)
    decreases |actions|
  {
    if actions != [] {
      if actions[0].Heartbeat? { BeatKeepsPass(w, actions[0], k); } else { StepKeeps(w, actions[0], k); }
      SteadyIsAttempts(Next(w, actions[0]).value, actions[1..], v, k);
    }
  }

  lemma NextPassCompletes(w: World, k: Plan) returns (actions: seq<Action>, v: World)
    requires GoodPlan(k) && w.pass.None? && (Before(w, k) || After(w, k))
    ensures Attempts(w, actions, v, k) && Goal(v, k)
  {
    StartIsAttempt(w, k);
    var s := Start(w, k.source).value;
    var rest: seq<Action>;
    rest, v := PassCompletes(s, k);
    SteadyIsAttempts(s, rest, v, k);
    actions := [StartPass(k.source)] + rest;
    assert actions[1..] == rest;
  }

  lemma StartIsAttempt(w: World, k: Plan)
    requires GoodPlan(k) && w.pass.None? && (Before(w, k) || After(w, k))
    ensures AttemptStep(w, StartPass(k.source), k) && Next(w, StartPass(k.source)) == Start(w, k.source)
    ensures InPass(Start(w, k.source).value, k)
  {
    StartEntersPass(w, k);
    assert k.Src() !in w.gone;
  }

  ghost predicate CanComplete(w: World, k: Plan) {
    exists actions, v :: Attempts(w, actions, v, k) && Goal(v, k)
  }

  lemma GentleInterruptCompletes(w: World, k: Plan)
    requires GoodPlan(k) && InHandoff(w, k) && Interruptible(w, k)
    ensures CanComplete(w.(pass := None), k)
  {
    InterruptKeepsInHand(w, k);
    var actions, v := NextPassCompletes(w.(pass := None), k);
  }

  lemma TornNeverCompletes(w: World, k: Plan, there: Sid, left: Sid)
    requires Torn(w, k, there, left)
    ensures !CanComplete(w, k)
  {
    forall actions, v | Attempts(w, actions, v, k) ensures !Goal(v, k) {
      TornForever(w, actions, v, k, there, left);
    }
  }

  /** Where a pass may be cut short: later passes can still complete the handoff if and only if,
      at that moment, no sandbox of the session is on the Spot host yet or every one has moved. */
  lemma InterruptExactly(w: World, k: Plan)
    requires GoodPlan(k) && InHandoff(w, k)
    ensures Interruptible(w, k) <==> CanComplete(w.(pass := None), k)
  {
    if Interruptible(w, k) {
      GentleInterruptCompletes(w, k);
    } else {
      var there, left := InterruptTears(w, k);
      TornNeverCompletes(w.(pass := None), k, there, left);
    }
  }
}
