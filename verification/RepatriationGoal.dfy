/** A pass that is not interrupted ends at the goal of the handoff within a bounded number of
    steps; one that is leaves a world a later pass completes if and only if no sandbox runs on the
    Spot host yet or all of them have moved. */
module RepatriationGoal {
  import opened Options
  import opened FiniteSets
  import opened VolumeHandoff
  import opened Reentrancy
  import opened ReentrantRuns

  // ---------- a pass never gets stuck ----------

  predicate Enabled(w: World, a: Action, k: Plan) {
    Steady(w, a, k) && Next(w, a).Some?
  }

  lemma RecordStep(w: World, k: Plan) returns (a: Action)
    requires InHandoff(w, k) && (w.pass.value.pc.Mark? || w.pass.value.pc.Checkpoint?)
    ensures Steady(w, a, k) && HandoffNext(w, w.pass.value, a).Some?
  {
    var todo := w.pass.value.pc.todo;
    if todo == {} {
      a := Go;
    } else {
      var sid :| sid in todo;
      assert sid in w.records && RecordOk(w, k, sid);
      a := if w.pass.value.pc.Checkpoint? && (k.Src(), sid) in w.vms then SuspendVm(sid) else OnRecord(sid);
    }
  }

  lemma NothingRunsOnSource(w: World, k: Plan)
    requires InHandoff(w, k) && Rank(w.pass.value.pc) >= 3
    ensures !RunsOn(w, k.Src())
  {
    forall x | x in w.vms ensures x.0 != k.Src() {
      assert k.Runs(x.1) && RecordOk(w, k, x.1);
    }
  }

  lemma VolumeStep(w: World, k: Plan)
    requires InHandoff(w, k) && 3 <= Rank(w.pass.value.pc) <= 9
    ensures HandoffNext(w, w.pass.value, Go).Some?
  {
    NothingRunsOnSource(w, k);
    assert RunsOn(w, k.Dst()) ==> Resident(w, k.Dst());
  }

  lemma MoveStep(w: World, k: Plan) returns (a: Action)
    requires InHandoff(w, k) && w.pass.value.pc.Move?
    ensures Steady(w, a, k) && FinishNext(w, w.pass.value, a).Some?
  {
    var todo := w.pass.value.pc.todo;
    if todo == {} {
      a := Go;
    } else {
      var sid :| sid in todo;
      assert sid in w.records;
      a := OnRecord(sid);
    }
  }

  lemma ResumeStep(w: World, k: Plan) returns (a: Action)
    requires InHandoff(w, k) && w.pass.value.pc.ResumeAll?
    ensures Steady(w, a, k) && FinishNext(w, w.pass.value, a).Some?
  {
    var todo := w.pass.value.pc.todo;
    if todo == {} {
      a := Go;
    } else {
      var sid :| sid in todo;
      assert sid in w.records;
      a := if (k.Dst(), sid) !in w.vms then ResumeVm(sid) else OnRecord(sid);
    }
  }

  lemma HealthStep(w: World, k: Plan)
    requires InHandoff(w, k) && w.pass.value.pc.CheckHealth?
    ensures FinishNext(w, w.pass.value, Go).Some?
  {
    var p := w.pass.value;
    forall sid | sid in RunningBefore(p) ensures sid in Entries(w, k.Dst()) {
      assert sid in w.records && RecordOk(w, k, sid) && k.Runs(sid) && RunsIfMoved(w, k, sid);
      var x := (k.Dst(), sid);
      assert x in w.vms + w.parked && x.0 == k.Dst() && x.1 == sid;
    }
    SubsetSize(RunningBefore(p), Entries(w, k.Dst()));
  }

  lemma HandoffStep(w: World, k: Plan) returns (a: Action)
    requires InHandoff(w, k)
    ensures Steady(w, a, k) && PassNext(w, a).Some?
  {
    var p := w.pass.value;
    if p.pc.ClaimTarget? {
      a := if k.target in w.spotClaims then UseClaim(k.target) else NewClaim(k.target);
    } else if p.pc.Mark? || p.pc.Checkpoint? {
      a := RecordStep(w, k);
    } else if Rank(p.pc) <= 9 {
      VolumeStep(w, k);
      a := Go;
    } else if p.pc.Move? {
      a := MoveStep(w, k);
    } else if p.pc.ResumeAll? {
      a := ResumeStep(w, k);
    } else {
      if p.pc.CheckHealth? { HealthStep(w, k); }
      a := Go;
    }
    WhichBranch(w, a);
  }

  lemma SomeStep(w: World, k: Plan) returns (a: Action)
    requires InPass(w, k)
    ensures Enabled(w, a, k)
  {
    if InHandoff(w, k) {
      a := HandoffStep(w, k);
    } else {
      var pc := w.pass.value.pc;
      a := if !pc.EmptyClaim? then Go else if k.target in w.spotClaims then UseClaim(k.target) else NoClaim;
      WhichBranch(w, a);
    }
    SteadyIsPassNext(w, a, k);
  }

  // ---------- and never goes round ----------

  function Todo(pc: Pc): set<Sid> {
    if IsLoop(pc) then pc.todo else {}
  }

  /** The sandboxes whose node call is still to come. */
  function Pending(w: World, k: Plan, pc: Pc): set<Sid> {
    set sid | sid in Todo(pc) && ((pc.Checkpoint? && (k.Src(), sid) in w.vms)
        || (pc.ResumeAll? && (k.Dst(), sid) !in w.vms))
  }

  function Work(w: World, k: Plan, pc: Pc): nat {
    2 * |Todo(pc)| + |Pending(w, k, pc)|
  }

  /** One record written: it leaves the current loop. */
  predicate OneRecord(w: World, v: World, p: Pc, q: Pc, a: Action) {
    a.OnRecord? && a.sid in Todo(p) && Todo(q) == Todo(p) - {a.sid} && Rank(p) == Rank(q) && w.vms == v.vms
  }

  /** One node call made: that sandbox is suspended, or runs, as the current loop wants it. */
  predicate OneCall(w: World, v: World, p: Pc, q: Pc, a: Action, k: Plan) {
    p == q && if p.Checkpoint?
              then a.SuspendVm? && a.sid in p.todo && (k.Src(), a.sid) in w.vms && v.vms == w.vms - {(k.Src(), a.sid)}
              else a.ResumeVm? && p.ResumeAll? && a.sid in p.todo && (k.Dst(), a.sid) !in w.vms
                   && v.vms == w.vms + {(k.Dst(), a.sid)}
  }

  predicate Advances(w: World, v: World, a: Action, k: Plan)
    requires w.pass.Some?
  {
    v.pass.Some? ==>
      var p, q := w.pass.value.pc, v.pass.value.pc;
      Rank(p) < Rank(q) || OneRecord(w, v, p, q, a) || OneCall(w, v, p, q, a, k)
  }

  predicate IsLoop(pc: Pc) {
    pc.Mark? || pc.Checkpoint? || pc.Move? || pc.ResumeAll?
  }

  predicate MovesOn(p: Pass, v: World) {
    v.pass.Some? && Rank(p.pc) < Rank(v.pass.value.pc)
  }

  lemma DetachesMoveOn(w: World, p: Pass, a: Action)
    requires (p.pc.ClaimTarget? || p.pc.Handoff? || p.pc.DetachSource? || p.pc.DetachReplaced?)
        && HandoffNext(w, p, a).Some?
    ensures MovesOn(p, HandoffNext(w, p, a).value)
  {
  }

  lemma UnmountsMoveOn(w: World, p: Pass, a: Action)
    requires (p.pc.UnmountSource? || p.pc.UnmountReplaced?) && HandoffNext(w, p, a).Some?
    ensures MovesOn(p, HandoffNext(w, p, a).value)
  {
  }

  lemma MountsMoveOn(w: World, p: Pass, a: Action)
    requires (p.pc.AttachTarget? || p.pc.MountTarget?) && HandoffNext(w, p, a).Some?
    ensures MovesOn(p, HandoffNext(w, p, a).value)
  {
  }

  lemma EmptyUnmountMovesOn(w: World, p: Pass, a: Action)
    requires p.pc.EmptyUnmount? && EmptyNext(w, p, a).Some?
    ensures MovesOn(p, EmptyNext(w, p, a).value)
  {
  }

  lemma EmptyMovesOn(w: World, p: Pass, a: Action)
    requires !p.pc.EmptyUnmount? && EmptyNext(w, p, a).Some?
    ensures MovesOn(p, EmptyNext(w, p, a).value)
  {
  }

  lemma FinishMovesOn(w: World, p: Pass, a: Action)
    requires (p.pc.CheckHealth? || p.pc.DeleteReplaced? || p.pc.ReleaseClaim?) && FinishNext(w, p, a).Some?
    ensures MovesOn(p, FinishNext(w, p, a).value)
  {
  }

  lemma HandoffLoops(w: World, p: Pass, a: Action, k: Plan)
    requires w.pass == Some(p) && p.source == k.source && IsLoop(p.pc) && HandoffNext(w, p, a).Some?
    ensures Advances(w, HandoffNext(w, p, a).value, a, k)
  {
  }

  lemma MoveLoops(w: World, p: Pass, a: Action, k: Plan)
    requires w.pass == Some(p) && p.pc.Move? && FinishNext(w, p, a).Some?
    ensures Advances(w, FinishNext(w, p, a).value, a, k)
  {
  }

  lemma ResumeLoops(w: World, p: Pass, a: Action, k: Plan)
    requires w.pass == Some(p) && p.target == k.target && p.pc.ResumeAll? && Steady(w, a, k)
    requires FinishNext(w, p, a).Some?
    ensures Advances(w, FinishNext(w, p, a).value, a, k)
  {
  }

  lemma StepAdvances(w: World, a: Action, k: Plan)
    requires InPass(w, k) && Enabled(w, a, k)
    ensures Advances(w, Next(w, a).value, a, k)
  {
    SteadyIsPassNext(w, a, k);
    WhichBranch(w, a);
    var p := w.pass.value;
    if p.pc.Move? {
      MoveLoops(w, p, a, k);
    } else if p.pc.ResumeAll? {
      ResumeLoops(w, p, a, k);
    } else if IsLoop(p.pc) {
      HandoffLoops(w, p, a, k);
    } else if p.pc.UnmountSource? || p.pc.UnmountReplaced? {
      UnmountsMoveOn(w, p, a);
    } else if p.pc.AttachTarget? || p.pc.MountTarget? {
      MountsMoveOn(w, p, a);
    } else if Rank(p.pc) <= 9 {
      DetachesMoveOn(w, p, a);
    } else if p.pc.EmptyUnmount? {
      EmptyUnmountMovesOn(w, p, a);
    } else if 15 <= Rank(p.pc) <= 20 {
      EmptyMovesOn(w, p, a);
    } else if !p.pc.Terminate? {
      FinishMovesOn(w, p, a);
    }
  }

  lemma RecordDone(w: World, v: World, k: Plan, p: Pc, q: Pc, a: Action)
    requires OneRecord(w, v, p, q, a)
    ensures Work(v, k, q) < Work(w, k, p)
  {
    SubsetSize(Pending(v, k, q), Pending(w, k, p));
  }

  lemma CallDone(w: World, v: World, k: Plan, p: Pc, a: Action)
    requires OneCall(w, v, p, p, a, k)
    ensures Work(v, k, p) < Work(w, k, p)
  {
    assert Pending(v, k, p) == Pending(w, k, p) - {a.sid} && a.sid in Pending(w, k, p);
  }

  /** How many steps the pass can still take. */
  function StepsLeft(w: World, k: Plan): nat {
    if w.pass.None? then 0
    else (22 - Rank(w.pass.value.pc)) * (3 * |k.states| + 1) + Work(w, k, w.pass.value.pc)
  }

  lemma WorkBound(w: World, k: Plan)
    requires InPass(w, k)
    ensures Work(w, k, w.pass.value.pc) <= 3 * |k.states|
  {
    SubsetSize(Todo(w.pass.value.pc), k.states.Keys);
    SubsetSize(Pending(w, k, w.pass.value.pc), Todo(w.pass.value.pc));
  }

  lemma RankLeads(r1: nat, r2: nat, n: nat, w1: nat, w2: nat)
    requires r1 < r2 <= 22 && w2 < n
    ensures (22 - r2) * n + w2 < (22 - r1) * n + w1
  {
    assert (22 - r1) * n == (22 - r2) * n + (r2 - r1) * n;
    assert (r2 - r1) * n >= n;
  }

  lemma AdvanceShrinks(w: World, v: World, a: Action, k: Plan)
    requires w.pass.Some? && Advances(w, v, a, k)
    requires v.pass.Some? ==> Work(v, k, v.pass.value.pc) <= 3 * |k.states|
    ensures StepsLeft(v, k) < StepsLeft(w, k)
  {
    var p := w.pass.value.pc;
    if v.pass.None? {
      RankLeads(Rank(p), 22, 3 * |k.states| + 1, Work(w, k, p), 0);
    } else {
      var q := v.pass.value.pc;
      if Rank(p) < Rank(q) {
        RankLeads(Rank(p), Rank(q), 3 * |k.states| + 1, Work(w, k, p), Work(v, k, q));
      } else if OneRecord(w, v, p, q, a) {
        RecordDone(w, v, k, p, q, a);
      } else {
        CallDone(w, v, k, p, a);
      }
    }
  }

  lemma StepShrinks(w: World, a: Action, k: Plan)
    requires InPass(w, k) && Enabled(w, a, k)
    ensures StepsLeft(Next(w, a).value, k) < StepsLeft(w, k)
  {
    StepKeeps(w, a, k);
    StepAdvances(w, a, k);
    var v := Next(w, a).value;
    if v.pass.Some? {
      WorkBound(v, k);
    }
    AdvanceShrinks(w, v, a, k);
  }
}
