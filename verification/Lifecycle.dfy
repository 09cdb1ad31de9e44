/** Suspending and resuming one sandbox: the operator's record against what the node really has,
    with operators crashing between any two steps, answers getting lost and leases lapsing under
    operations that go on.  Every read, record write and node call is a step of its own. */
module Lifecycle {
  import opened Options
  import opened SnapshotGenerations
  import opened SnapshotFidelity

  datatype RecordState = IsRunning | IsSuspending | IsSuspended | IsSlept | IsResuming | IsFailed | IsOrphaned

  predicate IsTarget(r: RecordState) {
    r == IsSuspended || r == IsSlept
  }

  /** What a suspend can be asked to end in. */
  type Target = r: RecordState | IsTarget(r) witness IsSuspended

  /** What asking the node for the VM's state comes to. */
  datatype Runtime = SeesRunning | SeesSuspended | SeesNothing

  /** Where an operation is; Over when it has ended or its operator has crashed. */
  datatype Pc =
    | Over
    | SuspendRead(target: Target)
    | SuspendWrite(target: Target)
    | SuspendSent(target: Target)
    | SuspendDone(target: Target, ok: bool)
    | RecoverRead(target: Target)
    | RecoverAsk(target: Target)
    | RecoverSeen(target: Target, seen: Runtime)
    | ResumeRead
    | ResumeAsk
    | ResumeFound
    | ResumeWrite
    | ResumeSent
    | ResumeDone(ok: bool)

  datatype Request = NoRequest | SuspendRequest | ResumeRequest

  /** `sent` is a request that is still on its way or waiting at the node. */
  datatype Operation = Operation(pc: Pc, sent: Request)

  /** `mem` and `cpu` are what the guest held when it was last suspended.  Operations keep running
      when the lease they were started under is gone; `sleepers` counts those who have read
      "suspended" and are about to write "slept". */
  datatype Life = Life(
    record: RecordState, node: Sandbox, mem: seq<int>, cpu: int,
    operations: map<nat, Operation>, lease: Option<nat>, sleepers: nat)

  datatype Action =
    | Guest(op: Op)
    | Begin(id: nat, pc: Pc)
    | Advance(id: nat)
    | Ask(id: nat, seen: Runtime)
    | NodeSuspends(id: nat, suspend: SuspendOutcome, answered: bool)
    | NodeResumes(id: nat, resume: ResumeOutcome, answered: bool)
    | GivesUpWaiting(id: nat)
    | Crash(id: nat)
    | Lapse
    | Drift
    | ReadsSuspended
    | WritesSlept

  predicate Starts(pc: Pc) {
    pc.SuspendRead? || pc.RecoverRead? || pc.ResumeRead?
  }

  predicate Waits(pc: Pc) {
    pc.SuspendSent? || pc.ResumeSent?
  }

  /** The node tells the truth or does not answer. */
  predicate Truthful(l: Life, seen: Runtime) {
    (seen.SeesRunning? ==> l.node.running) && (seen.SeesSuspended? ==> !l.node.running)
  }

  function Answered(pc: Pc, ok: bool): Pc {
    match pc
    case SuspendSent(target) => SuspendDone(target, ok)
    case ResumeSent => ResumeDone(ok)
    case _ => pc
  }

  function At(l: Life, id: nat, pc: Pc): Life
    requires id in l.operations
  {
    l.(operations := l.operations[id := l.operations[id].(pc := pc)])
  }

  function Sends(l: Life, id: nat, pc: Pc, request: Request): Life {
    l.(operations := l.operations[id := Operation(pc, request)])
  }

  /** An operation ends by releasing the lease, if it is still its own. */
  function Ends(l: Life, id: nat): Life
    requires id in l.operations
  {
    At(l, id, Over).(lease := if l.lease == Some(id) then None else l.lease)
  }

  /** The next read or record write of an operation. */
  function Advanced(l: Life, id: nat): (r: Option<Life>)
    requires id in l.operations
    ensures r.Some? ==> r.value.node == l.node && r.value.mem == l.mem && r.value.cpu == l.cpu
  {
    match l.operations[id].pc
    case SuspendRead(target) => Some(if l.record.IsRunning? then At(l, id, SuspendWrite(target)) else Ends(l, id))
    case SuspendWrite(target) =>
      // update_state("suspending", expected "running"); a failed condition falls back to "running".
      if l.record.IsRunning? then Some(Sends(l, id, SuspendSent(target), SuspendRequest).(record := IsSuspending))
      else Some(Ends(l, id).(record := IsRunning))
    case SuspendDone(target, ok) =>
      // update_state(target, expected "suspending"); any failure falls back to "running".
      Some(Ends(l, id).(record := if ok && l.record.IsSuspending? then target else IsRunning))
    case RecoverRead(target) => Some(if l.record.IsSuspending? then At(l, id, RecoverAsk(target)) else Ends(l, id))
    case RecoverSeen(target, seen) =>
      Some(Ends(l, id).(record :=
        if seen.SeesRunning? then IsRunning else if seen.SeesSuspended? then target else l.record))
    case ResumeRead =>
      if l.record.IsRunning? then Some(Ends(l, id))
      else if l.record.IsFailed? || l.record.IsSuspending? then Some(At(l, id, ResumeDone(false)))
      else Some(At(l, id, if l.record.IsResuming? then ResumeAsk else ResumeWrite))
    case ResumeFound => Some(Ends(l, id).(record := IsRunning))
    case ResumeWrite => Some(Sends(l, id, ResumeSent, ResumeRequest).(record := IsResuming))
    case ResumeDone(ok) => Some(Ends(l, id).(record := if ok then IsRunning else IsFailed))
    case _ => None
  }

  predicate Possible(l: Life, a: Action)
    requires WellSized(l.node)
  {
    match a
    case Guest(op) => !op.Suspend? && !op.Resume? && Guard(l.node, op)
    case Begin(id, pc) => l.lease.None? && id !in l.operations && Starts(pc)
    case Advance(id) => id in l.operations && Advanced(l, id).Some?
    case Ask(id, seen) =>
      Truthful(l, seen) && id in l.operations && (l.operations[id].pc.RecoverAsk? || l.operations[id].pc.ResumeAsk?)
    case NodeSuspends(id, o, _) =>
      id in l.operations && l.operations[id].sent.SuspendRequest? && Guard(l.node, Op.Suspend(o))
    case NodeResumes(id, o, _) =>
      id in l.operations && l.operations[id].sent.ResumeRequest? && (o.RegisterFailed? || Guard(l.node, Op.Resume(o)))
    case GivesUpWaiting(id) => id in l.operations && Waits(l.operations[id].pc)
    case Crash(id) => id in l.operations
    case Lapse => true
    case Drift => true
    case ReadsSuspended => l.record.IsSuspended?
    case WritesSlept => l.sleepers > 0
  }

  function Suspends(l: Life, o: SuspendOutcome): Life
    requires WellSized(l.node)
  {
    var ok := l.node.running && Succeeds(l.node, o);
    l.(node := Apply(l.node, Op.Suspend(o)), mem := if ok then l.node.mem else l.mem,
       cpu := if ok then l.node.cpu else l.cpu)
  }

  /** The request is done with; the operation hears of it if the answer arrives and it still waits. */
  function Replies(l: Life, id: nat, ok: bool, answered: bool): Life
    requires id in l.operations
  {
    var pc := l.operations[id].pc;
    l.(operations := l.operations[id := Operation(if answered then Answered(pc, ok) else pc, NoRequest)])
  }

  function Next(l: Life, a: Action): (v: Life)
    requires WellSized(l.node) && Possible(l, a)
    ensures WellSized(v.node)
  {
    match a
    case Guest(op) => l.(node := Apply(l.node, op))
    case Begin(id, pc) => Sends(l, id, pc, NoRequest).(lease := Some(id))
    case Advance(id) => Advanced(l, id).value
    case Ask(id, seen) =>
      var pc := l.operations[id].pc;
      At(l, id, if pc.RecoverAsk? then RecoverSeen(pc.target, seen)
                else if seen.SeesRunning? then ResumeFound else ResumeWrite)
    case NodeSuspends(id, o, answered) =>
      Replies(Suspends(l, o), id, l.node.running && Succeeds(l.node, o), answered && !o.ending.LostBeforeStop?)
    case NodeResumes(id, o, answered) =>
      var node := Apply(l.node, Op.Resume(o));
      Replies(l.(node := node), id, node.running, answered && !o.LostAfterLoad? && !o.LostInPromotion?)
    case GivesUpWaiting(id) => At(l, id, Answered(l.operations[id].pc, false))
    case Crash(id) => At(l, id, Over)
    case Lapse => l.(lease := None)
    case Drift => l.(record := IsOrphaned)
    case ReadsSuspended => l.(sleepers := l.sleepers + 1)
    case WritesSlept => l.(record := IsSlept, sleepers := l.sleepers - 1)
  }

  predicate Run(l: Life, actions: seq<Action>, v: Life)
    requires WellSized(l.node)
    decreases |actions|
  {
    if actions == [] then v == l
    else Possible(l, actions[0]) && Run(Next(l, actions[0]), actions[1..], v)
  }

  /** A sandbox just created, nothing in its snapshot directory. */
  predicate Created(l: Life) {
    WellSized(l.node) && Fresh(l.node) && l.record.IsRunning? && l.operations == map[] && l.lease.None?
        && l.sleepers == 0
  }

  // ---------- what the node keeps, whatever the operators do ----------

  /** The node is down with a verified snapshot of exactly what was suspended. */
  predicate Down(l: Life)
    requires WellSized(l.node)
  {
    Holds(l.node, l.mem, l.cpu)
  }

  /** What verifies is what was suspended last. */
  predicate NodeSound(l: Life) {
    && WellSized(l.node) && Covered(l.node)
    && (!l.node.running ==> l.node.files.manifest.Some?)
    && (!l.node.running && Verified(l.node.files) ==> Down(l))
  }

  lemma GuestKeeps(l: Life, a: Action)
    requires NodeSound(l) && Possible(l, a) && a.Guest?
    ensures NodeSound(Next(l, a))
  {
    if l.node.running {
      GuardKeepsCovered(l.node, a.op);
    } else {
      assert Apply(l.node, a.op) == l.node;
    }
  }

  lemma SuspendKeeps(l: Life, a: Action)
    requires NodeSound(l) && Possible(l, a) && a.NodeSuspends?
    ensures NodeSound(Next(l, a))
    ensures l.node.running || Down(l) ==> Next(l, a).node.running || Down(Next(l, a))
    ensures l.node.running && Succeeds(l.node, a.suspend) ==> Down(Next(l, a))
    ensures Down(l) ==> Down(Next(l, a))
  {
    if l.node.running {
      GuardKeepsCovered(l.node, Op.Suspend(a.suspend));
      if Succeeds(l.node, a.suspend) {
        SuspendHolds(l.node, a.suspend);
      }
    }
  }

  /** The resumes that consume a snapshot: they load it, or promote it and then fail. */
  predicate Consumes(s: Sandbox, o: ResumeOutcome) {
    !Fails(o) || (o.RegisterFailed? && (s.files.base.Some? || s.files.marker))
  }

  lemma ResumeKeeps(l: Life, a: Action)
    requires NodeSound(l) && Possible(l, a) && a.NodeResumes?
    ensures NodeSound(Next(l, a))
    ensures l.node.running ==> Next(l, a).node.running
    ensures Down(l) ==> (Down(Next(l, a)) <==> !Consumes(l.node, a.resume))
  {
    if !l.node.running {
      assert WithManifest(l.node.files) == l.node.files;
      if Verified(l.node.files) {
        ResumeGuardExactly(l.node, a.resume, l.mem, l.cpu);
      }
    }
  }

  lemma StepKeepsNode(l: Life, a: Action)
    requires NodeSound(l) && Possible(l, a)
    ensures NodeSound(Next(l, a))
  {
    match a
    case Guest(_) => GuestKeeps(l, a);
    case NodeSuspends(_, _, _) => SuspendKeeps(l, a);
    case NodeResumes(_, _, _) => ResumeKeeps(l, a);
    case _ => assert Next(l, a).node == l.node;
  }

  // ---------- what the record promises, and when a step breaks it ----------

  /** A record marked suspended or slept stands for a verified snapshot of what was suspended. */
  predicate Kept(l: Life)
    requires WellSized(l.node)
  {
    IsTarget(l.record) ==> Down(l)
  }

  /** The step writes "suspended" or "slept". */
  predicate WritesTarget(l: Life, a: Action) {
    match a
    case WritesSlept => true
    case Advance(id) =>
      id in l.operations &&
      var pc := l.operations[id].pc;
      (pc.SuspendDone? && pc.ok && l.record.IsSuspending?) || (pc.RecoverSeen? && pc.seen.SeesSuspended?)
    case _ => false
  }

  /** A resume request is carried out and consumes the snapshot. */
  predicate ConsumesTarget(l: Life, a: Action) {
    IsTarget(l.record) && a.NodeResumes? && Consumes(l.node, a.resume)
  }

  lemma AdvanceWritesTarget(l: Life, id: nat)
    requires id in l.operations && Advanced(l, id).Some?
    ensures var record := Advanced(l, id).value.record;
      if WritesTarget(l, Advance(id)) then IsTarget(record) else IsTarget(record) ==> record == l.record
  {
  }

  lemma RecordWriteBreaksExactly(l: Life, a: Action)
    requires NodeSound(l) && Kept(l) && Possible(l, a) && !a.Guest? && !a.NodeSuspends? && !a.NodeResumes?
    ensures !Kept(Next(l, a)) <==> WritesTarget(l, a) && (l.node.running || !Verified(l.node.files))
  {
    var v := Next(l, a);
    assert v.node == l.node && v.mem == l.mem && v.cpu == l.cpu;
    if a.Advance? {
      AdvanceWritesTarget(l, a.id);
    }
  }

  /** Whatever operators crash, stall past their lease or race: a step breaks the promise of a
      record if and only if it writes "suspended" or "slept" while the sandbox runs or its snapshot
      does not verify, or carries out a resume request while the record says so. */
  lemma PromiseBrokenExactly(l: Life, a: Action)
    requires NodeSound(l) && Kept(l) && Possible(l, a)
    ensures !Kept(Next(l, a)) <==>
            (WritesTarget(l, a) && (l.node.running || !Verified(l.node.files))) || ConsumesTarget(l, a)
  {
    match a
    case Guest(op) => assert !l.node.running ==> Apply(l.node, op) == l.node;
    case NodeSuspends(_, _, _) => SuspendKeeps(l, a);
    case NodeResumes(_, _, _) => ResumeKeeps(l, a);
    case _ => RecordWriteBreaksExactly(l, a);
  }

  // ---------- runs in which the lease fences ----------

  /** Only the holder of the lease reads and writes the record and has a resume carried out, and
      "slept" replaces nothing but a target state.  Whoever asks a node, and whichever suspend request
      a node carries out, however late, is free. */
  predicate Fenced(l: Life, a: Action) {
    match a
    case Advance(id) => l.lease == Some(id)
    case NodeResumes(id, _, _) => l.lease == Some(id)
    case WritesSlept => IsTarget(l.record)
    case _ => true
  }

  predicate FencedRun(l: Life, actions: seq<Action>)
    requires WellSized(l.node)
    decreases |actions|
  {
    actions == [] || !Possible(l, actions[0])
    || (Fenced(l, actions[0]) && FencedRun(Next(l, actions[0]), actions[1..]))
  }

  predicate UpOrDown(l: Life)
    requires WellSized(l.node)
  {
    l.node.running || Down(l)
  }

  /** What the holder of the lease relies on. */
  predicate HolderSound(l: Life, op: Operation)
    requires WellSized(l.node)
  {
    var pc := op.pc;
    && (pc.SuspendWrite? || pc.SuspendSent? || pc.SuspendDone? || pc.RecoverAsk? || pc.RecoverSeen? ==> UpOrDown(l))
    && (pc.SuspendDone? && pc.ok ==> Down(l))
    && (pc.RecoverSeen? && pc.seen.SeesSuspended? ==> Down(l))
    && (pc.ResumeFound? || (pc.ResumeDone? && pc.ok) ==> UpOrDown(l))
    && (op.sent.SuspendRequest? ==> pc.SuspendSent? || pc.SuspendDone? || pc.Over?)
    && (op.sent.SuspendRequest? && pc.SuspendDone? ==> !pc.ok)
    && (op.sent.ResumeRequest? ==> pc.ResumeSent? || pc.ResumeDone? || pc.Over?)
    && (op.sent.ResumeRequest? && pc.ResumeDone? ==> !pc.ok)
    && (op.sent.ResumeRequest? ==> l.record.IsResuming? || l.record.IsOrphaned?)
  }

  predicate FencedInv(l: Life) {
    && NodeSound(l) && Kept(l)
    && (l.record.IsRunning? || l.record.IsSuspending? ==> UpOrDown(l))
    && (l.lease.Some? ==> l.lease.value in l.operations && HolderSound(l, l.operations[l.lease.value]))
  }

  lemma SuspendReadKeepsFenced(l: Life, id: nat)
    requires FencedInv(l) && l.lease == Some(id) && Advanced(l, id).Some?
    requires var pc := l.operations[id].pc; pc.SuspendRead? || pc.SuspendWrite?
    ensures FencedInv(Advanced(l, id).value)
  {
  }

  lemma SuspendDoneKeepsFenced(l: Life, id: nat)
    requires FencedInv(l) && l.lease == Some(id) && Advanced(l, id).Some?
    requires var pc := l.operations[id].pc; pc.SuspendDone?
    ensures FencedInv(Advanced(l, id).value)
  {
  }

  lemma RecoverKeepsFenced(l: Life, id: nat)
    requires FencedInv(l) && l.lease == Some(id) && Advanced(l, id).Some?
    requires var pc := l.operations[id].pc; pc.RecoverRead? || pc.RecoverSeen?
    ensures FencedInv(Advanced(l, id).value)
  {
  }

  lemma ResumeReadKeepsFenced(l: Life, id: nat)
    requires FencedInv(l) && l.lease == Some(id) && Advanced(l, id).Some?
    requires var pc := l.operations[id].pc; pc.ResumeRead? || pc.ResumeWrite?
    ensures FencedInv(Advanced(l, id).value)
  {
  }

  lemma ResumeDoneKeepsFenced(l: Life, id: nat)
    requires FencedInv(l) && l.lease == Some(id) && Advanced(l, id).Some?
    requires var pc := l.operations[id].pc; pc.ResumeFound? || pc.ResumeDone?
    ensures FencedInv(Advanced(l, id).value)
  {
  }

  lemma AdvanceKeepsFenced(l: Life, id: nat)
    requires FencedInv(l) && l.lease == Some(id) && Advanced(l, id).Some?
    ensures FencedInv(Advanced(l, id).value)
  {
    match l.operations[id].pc
    case SuspendRead(_) => SuspendReadKeepsFenced(l, id);
    case SuspendWrite(_) => SuspendReadKeepsFenced(l, id);
    case SuspendDone(_, _) => SuspendDoneKeepsFenced(l, id);
    case RecoverRead(_) => RecoverKeepsFenced(l, id);
    case RecoverSeen(_, _) => RecoverKeepsFenced(l, id);
    case ResumeRead => ResumeReadKeepsFenced(l, id);
    case ResumeWrite => ResumeReadKeepsFenced(l, id);
    case ResumeFound => ResumeDoneKeepsFenced(l, id);
    case ResumeDone(_) => ResumeDoneKeepsFenced(l, id);
  }

  lemma AskKeepsFenced(l: Life, a: Action)
    requires FencedInv(l) && Possible(l, a) && Fenced(l, a) && a.Ask?
    ensures FencedInv(Next(l, a))
  {
    assert Next(l, a).node == l.node && Next(l, a).mem == l.mem && Next(l, a).cpu == l.cpu;
  }

  lemma NodeKeepsFenced(l: Life, a: Action)
    requires FencedInv(l) && Possible(l, a) && Fenced(l, a) && (a.NodeSuspends? || a.NodeResumes?)
    ensures FencedInv(Next(l, a))
  {
    if a.NodeSuspends? { SuspendKeeps(l, a); } else { ResumeKeeps(l, a); }
  }

  lemma GuestKeepsFenced(l: Life, a: Action)
    requires FencedInv(l) && Possible(l, a) && a.Guest?
    ensures FencedInv(Next(l, a))
  {
    GuestKeeps(l, a);
  }

  lemma OthersKeepFenced(l: Life, a: Action)
    requires FencedInv(l) && Possible(l, a) && Fenced(l, a)
    requires a.Begin? || a.GivesUpWaiting? || a.Crash? || a.Lapse? || a.Drift? || a.ReadsSuspended? || a.WritesSlept?
    ensures FencedInv(Next(l, a))
  {
    assert Next(l, a).node == l.node && Next(l, a).mem == l.mem && Next(l, a).cpu == l.cpu;
  }

  lemma StepKeepsFenced(l: Life, a: Action)
    requires FencedInv(l) && Possible(l, a) && Fenced(l, a)
    ensures FencedInv(Next(l, a))
  {
    match a
    case Guest(_) => GuestKeepsFenced(l, a);
    case Advance(id) => AdvanceKeepsFenced(l, id);
    case Ask(_, _) => AskKeepsFenced(l, a);
    case NodeSuspends(_, _, _) => NodeKeepsFenced(l, a);
    case NodeResumes(_, _, _) => NodeKeepsFenced(l, a);
    case _ => OthersKeepFenced(l, a);
  }

  lemma {:induction false} RunKeepsFenced(l: Life, actions: seq<Action>, v: Life)
    requires FencedInv(l) && Run(l, actions, v) && FencedRun(l, actions)
    ensures FencedInv(v)
    decreases |actions|
  {
    if actions != [] {
      StepKeepsFenced(l, actions[0]);
      RunKeepsFenced(Next(l, actions[0]), actions[1..], v);
    }
  }

  /** Over every run of guest activity, checkpoints, suspends, resumes, crashes, timeouts, lost
      answers and recoveries in which the lease fences: a record marked suspended or slept has a
      verified snapshot on disk, a resume of it verifies, and brings back page for page the memory
      and registers that were suspended. */
  lemma SuspendedMeansVerified(l: Life, actions: seq<Action>, v: Life)
    requires Created(l) && Run(l, actions, v) && FencedRun(l, actions) && IsTarget(v.record)
    ensures WellSized(v.node) && !v.node.running && Verified(v.node.files)
    ensures var t := Apply(v.node, Op.Resume(Resumed)); t.running && t.mem == v.mem && t.cpu == v.cpu
  {
    assert FencedInv(l);
    RunKeepsFenced(l, actions, v);
  }

  lemma {:induction false} RunKeepsNode(l: Life, actions: seq<Action>, v: Life)
    requires NodeSound(l) && Run(l, actions, v)
    ensures NodeSound(v)
    decreases |actions|
  {
    if actions != [] {
      StepKeepsNode(l, actions[0]);
      RunKeepsNode(Next(l, actions[0]), actions[1..], v);
    }
  }

  /** And over every run, fenced or not, what verifies on the node is what was suspended last. */
  lemma VerifiedMeansSuspended(l: Life, actions: seq<Action>, v: Life)
    requires Created(l) && Run(l, actions, v)
    ensures WellSized(v.node) && Covered(v.node)
    ensures !v.node.running && Verified(v.node.files) ==> Down(v)
  {
    assert NodeSound(l);
    RunKeepsNode(l, actions, v);
  }

  // ---------- runs in which it does not ----------

  lemma {:induction false} RunThen(l: Life, first: seq<Action>, v: Life, second: seq<Action>, w: Life)
    requires WellSized(l.node) && Run(l, first, v) && WellSized(v.node) && Run(v, second, w)
    ensures Run(l, first + second, w)
    decreases |first|
  {
    if first == [] {
      assert first + second == second;
    } else {
      RunThen(Next(l, first[0]), first[1..], v, second, w);
      assert (first + second)[0] == first[0] && (first + second)[1..] == first[1..] + second;
    }
  }

  lemma Step(l: Life, a: Action)
    requires WellSized(l.node) && Possible(l, a)
    ensures Run(l, [a], Next(l, a))
  {
    assert [a][1..] == [];
  }

  lemma ThreeSteps(l: Life, a: Action, b: Action, c: Action)
    requires WellSized(l.node) && Possible(l, a) && Possible(Next(l, a), b) && Possible(Next(Next(l, a), b), c)
    ensures Run(l, [a] + [b] + [c], Next(Next(Next(l, a), b), c))
  {
    var l1 := Next(l, a);
    var l2 := Next(l1, b);
    Step(l, a);
    Step(l1, b);
    Step(l2, c);
    RunThen(l, [a], l1, [b], l2);
    RunThen(l, [a] + [b], l2, [c], Next(l2, c));
  }

  /** A recovery up to its answer from the node. */
  function Recovers(id: nat): seq<Action> {
    [Begin(id, RecoverRead(IsSuspended))] + [Advance(id)] + [Ask(id, SeesSuspended)]
  }

  /** A resume from its start to its last write. */
  function ResumesFully(id: nat): seq<Action> {
    [Begin(id, ResumeRead)] + [Advance(id)] + [Advance(id)] + [NodeResumes(id, Resumed, true)] + [Advance(id)]
  }

  lemma RecoversTo(l: Life, id: nat) returns (v: Life)
    requires WellSized(l.node) && !l.node.running && l.record.IsSuspending? && l.lease.None? && id !in l.operations
    ensures Run(l, Recovers(id), v)
    ensures v == l.(operations := l.operations[id := Operation(RecoverSeen(IsSuspended, SeesSuspended), NoRequest)],
        lease := Some(id))
  {
    var begun := Next(l, Begin(id, RecoverRead(IsSuspended)));
    var read := Next(begun, Advance(id));
    v := Next(read, Ask(id, SeesSuspended));
    ThreeSteps(l, Begin(id, RecoverRead(IsSuspended)), Advance(id), Ask(id, SeesSuspended));
  }

  lemma ResumeSends(l: Life, id: nat) returns (v: Life)
    requires WellSized(l.node) && l.record.IsSuspended? && l.lease.None? && id !in l.operations
    ensures Run(l, [Begin(id, ResumeRead)] + [Advance(id)] + [Advance(id)], v)
    ensures v == l.(record := IsResuming, operations := l.operations[id := Operation(ResumeSent, ResumeRequest)],
        lease := Some(id))
  {
    var begun := Next(l, Begin(id, ResumeRead));
    var read := Next(begun, Advance(id));
    v := Next(read, Advance(id));
    ThreeSteps(l, Begin(id, ResumeRead), Advance(id), Advance(id));
  }

  lemma ResumeReturns(l: Life, id: nat) returns (v: Life)
    requires WellSized(l.node) && Down(l) && l.lease == Some(id)
    requires id in l.operations && l.operations[id] == Operation(ResumeSent, ResumeRequest)
    ensures Run(l, [NodeResumes(id, Resumed, true)] + [Advance(id)], v)
    ensures WellSized(v.node) && v.node.running
    ensures v == l.(node := v.node, record := IsRunning, operations := l.operations[id := Operation(Over, NoRequest)],
        lease := None)
  {
    var up := Next(l, NodeResumes(id, Resumed, true));
    v := Next(up, Advance(id));
    Step(l, NodeResumes(id, Resumed, true));
    Step(up, Advance(id));
    RunThen(l, [NodeResumes(id, Resumed, true)], up, [Advance(id)], v);
  }

  lemma ResumesTo(l: Life, id: nat) returns (v: Life)
    requires WellSized(l.node) && Down(l) && l.record.IsSuspended? && l.lease.None? && id !in l.operations
    ensures Run(l, ResumesFully(id), v)
    ensures WellSized(v.node) && v.node.running
    ensures v == l.(node := v.node, record := IsRunning, operations := l.operations[id := Operation(Over, NoRequest)])
  {
    var sent := ResumeSends(l, id);
    v := ResumeReturns(sent, id);
    var first := [Begin(id, ResumeRead)] + [Advance(id)] + [Advance(id)];
    RunThen(l, first, sent, [NodeResumes(id, Resumed, true)] + [Advance(id)], v);
    assert first + ([NodeResumes(id, Resumed, true)] + [Advance(id)]) == ResumesFully(id);
  }

  /** From any suspended record someone is about to mark slept, a resume that gets in between ends
      with a record marked slept and the sandbox running. */
  lemma LateSleepBreaks(l: Life, id: nat) returns (v: Life)
    requires NodeSound(l) && Kept(l) && l.record.IsSuspended? && l.lease.None? && id !in l.operations && l.sleepers > 0
    ensures Run(l, ResumesFully(id) + [WritesSlept], v)
    ensures v.record.IsSlept? && v.node.running
  {
    var up := ResumesTo(l, id);
    v := Next(up, WritesSlept);
    Step(up, WritesSlept);
    RunThen(l, ResumesFully(id), up, [WritesSlept], v);
  }

  /** One recovery stalls past its lease, a second one completes. */
  function StalledThenRecovered(stale: nat, id: nat): seq<Action> {
    (Recovers(stale) + [Lapse]) + (Recovers(id) + [Advance(id)])
  }

  lemma Stalls(l: Life, stale: nat) returns (v: Life)
    requires WellSized(l.node) && !l.node.running && l.record.IsSuspending? && l.lease.None? && stale !in l.operations
    ensures Run(l, Recovers(stale) + [Lapse], v)
    ensures v == l.(operations := l.operations[stale := Operation(RecoverSeen(IsSuspended, SeesSuspended), NoRequest)])
  {
    var stalled := RecoversTo(l, stale);
    v := Next(stalled, Lapse);
    Step(stalled, Lapse);
    RunThen(l, Recovers(stale), stalled, [Lapse], v);
  }

  lemma Completes(l: Life, id: nat) returns (v: Life)
    requires WellSized(l.node) && !l.node.running && l.record.IsSuspending? && l.lease.None? && id !in l.operations
    ensures Run(l, Recovers(id) + [Advance(id)], v)
    ensures v == l.(record := IsSuspended, operations := l.operations[id := Operation(Over, NoRequest)])
  {
    var seen := RecoversTo(l, id);
    v := Next(seen, Advance(id));
    Step(seen, Advance(id));
    RunThen(l, Recovers(id), seen, [Advance(id)], v);
  }

  lemma StaleRecoverySetsUp(l: Life, stale: nat, id: nat) returns (v: Life)
    requires WellSized(l.node) && Down(l) && l.record.IsSuspending? && l.lease.None?
    requires stale !in l.operations && id !in l.operations && stale != id
    ensures Run(l, StalledThenRecovered(stale, id), v)
    ensures v.node == l.node && v.mem == l.mem && v.cpu == l.cpu && v.record.IsSuspended? && v.lease.None?
    ensures v.operations.Keys == l.operations.Keys + {stale, id}
    ensures v.operations[stale] == Operation(RecoverSeen(IsSuspended, SeesSuspended), NoRequest)
  {
    var lapsed := Stalls(l, stale);
    v := Completes(lapsed, id);
    RunThen(l, Recovers(stale) + [Lapse], lapsed, Recovers(id) + [Advance(id)], v);
  }

  lemma ResumesThenStaleWrite(l: Life, stale: nat, user: nat) returns (v: Life)
    requires WellSized(l.node) && Down(l) && l.record.IsSuspended? && l.lease.None? && user !in l.operations
    requires stale in l.operations && stale != user
    requires l.operations[stale] == Operation(RecoverSeen(IsSuspended, SeesSuspended), NoRequest)
    ensures Run(l, ResumesFully(user) + [Advance(stale)], v)
    ensures v.record.IsSuspended? && v.node.running
  {
    var up := ResumesTo(l, user);
    v := Next(up, Advance(stale));
    Step(up, Advance(stale));
    RunThen(l, ResumesFully(user), up, [Advance(stale)], v);
  }

  /** From any abandoned suspend whose sandbox is down: a recovery sees it suspended and stalls past
      its lease, a second one completes, the user resumes, and the first one's unconditional write
      ends with a record marked suspended and the sandbox running. */
  lemma StaleRecoveryBreaks(l: Life, stale: nat, id: nat, user: nat) returns (v: Life)
    requires WellSized(l.node) && Down(l) && l.record.IsSuspending? && l.lease.None?
    requires stale !in l.operations && id !in l.operations && user !in l.operations
    requires stale != id && user != stale && user != id
    ensures Run(l, StalledThenRecovered(stale, id) + (ResumesFully(user) + [Advance(stale)]), v)
    ensures v.record.IsSuspended? && v.node.running
  {
    var recovered := StaleRecoverySetsUp(l, stale, id);
    v := ResumesThenStaleWrite(recovered, stale, user);
    RunThen(l, StalledThenRecovered(stale, id), recovered, ResumesFully(user) + [Advance(stale)], v);
  }
}
