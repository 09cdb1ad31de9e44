/** The operator's lifecycle actions as they run when nothing interrupts them: one record, rewritten
    around calls to the sandbox's node.  Each is proved to be a run of Lifecycle in which only the
    holder of the lease acts. */
module OperatorActions {
  import opened Options
  import opened SnapshotGenerations
  import opened SnapshotFidelity
  import opened SandboxNode
  import opened Lifecycle

  // ---------- the steps an operation takes ----------

  /** A run, fenced throughout. */
  predicate FencedTo(l: Life, actions: seq<Action>, v: Life)
    requires WellSized(l.node)
  {
    Lifecycle.Run(l, actions, v) && FencedRun(l, actions)
  }

  /** Some run, fenced throughout, leads there. */
  ghost predicate IsRun(l: Life, v: Life)
    requires WellSized(l.node)
  {
    exists actions :: FencedTo(l, actions, v)
  }

  lemma FencedStep(l: Life, a: Action)
    requires WellSized(l.node) && Possible(l, a) && Fenced(l, a)
    ensures FencedTo(l, [a], Next(l, a))
  {
    Step(l, a);
    assert [a][1..] == [];
  }

  lemma {:induction false} FencedThen(l: Life, first: seq<Action>, v: Life, second: seq<Action>, u: Life)
    requires WellSized(l.node) && FencedTo(l, first, v) && WellSized(v.node) && FencedTo(v, second, u)
    ensures FencedTo(l, first + second, u)
    decreases |first|
  {
    RunThen(l, first, v, second, u);
    if first == [] {
      assert first + second == second;
    } else {
      FencedThen(Next(l, first[0]), first[1..], v, second, u);
      assert (first + second)[0] == first[0] && (first + second)[1..] == first[1..] + second;
    }
  }

  /** The answer does not come where it is lost or the agent is. */
  predicate Hears(o: SuspendOutcome, answered: bool) {
    answered && !o.ending.LostBeforeStop?
  }

  function SuspendCall(id: nat, o: SuspendOutcome, answered: bool): seq<Action> {
    [NodeSuspends(id, o, answered)] + (if Hears(o, answered) then [] else [GivesUpWaiting(id)])
  }

  function SuspendSteps(l: Life, id: nat, target: Target, o: SuspendOutcome, answered: bool): seq<Action> {
    ([Begin(id, SuspendRead(target))] + [Advance(id)])
    + (if l.record.IsRunning? then ([Advance(id)] + SuspendCall(id, o, answered)) + [Advance(id)] else [])
  }

  /** Ended, with nothing on its way. */
  function Ended(l: Life, id: nat): map<nat, Operation> {
    l.operations[id := Operation(Over, NoRequest)]
  }

  /** Where a suspend leads: the record, and the node as the call left it. */
  function Suspended(l: Life, id: nat, target: Target, o: SuspendOutcome, answered: bool): Life
    requires WellSized(l.node)
  {
    if !l.record.IsRunning? then l.(operations := Ended(l, id))
    else
      var ok := l.node.running && Succeeds(l.node, o) && Hears(o, answered);
      Suspends(l, o).(record := if ok then target else IsRunning, operations := Ended(l, id))
  }

  lemma SuspendBegins(l: Life, id: nat, target: Target) returns (v: Life)
    requires WellSized(l.node) && l.lease.None? && id !in l.operations
    ensures FencedTo(l, [Begin(id, SuspendRead(target))] + [Advance(id)], v)
    ensures v == if l.record.IsRunning?
                 then l.(lease := Some(id),
                         operations := l.operations[id := Operation(SuspendWrite(target), NoRequest)])
                 else l.(operations := Ended(l, id))
  {
    var begun := Next(l, Begin(id, SuspendRead(target)));
    v := Next(begun, Advance(id));
    FencedStep(l, Begin(id, SuspendRead(target)));
    FencedStep(begun, Advance(id));
    FencedThen(l, [Begin(id, SuspendRead(target))], begun, [Advance(id)], v);
  }

  lemma SuspendCalls(l: Life, id: nat, target: Target, o: SuspendOutcome, answered: bool) returns (v: Life)
    requires WellSized(l.node) && l.lease == Some(id) && id in l.operations
    requires l.operations[id] == Operation(SuspendSent(target), SuspendRequest) && Guard(l.node, Op.Suspend(o))
    ensures FencedTo(l, SuspendCall(id, o, answered), v)
    ensures v == Suspends(l, o).(operations := l.operations[id := Operation(SuspendDone(target,
                   l.node.running && Succeeds(l.node, o) && Hears(o, answered)), NoRequest)])
  {
    var replied := Next(l, NodeSuspends(id, o, answered));
    FencedStep(l, NodeSuspends(id, o, answered));
    if Hears(o, answered) {
      v := replied;
      assert SuspendCall(id, o, answered) == [NodeSuspends(id, o, answered)];
    } else {
      v := Next(replied, GivesUpWaiting(id));
      FencedStep(replied, GivesUpWaiting(id));
      FencedThen(l, [NodeSuspends(id, o, answered)], replied, [GivesUpWaiting(id)], v);
    }
  }

  lemma SuspendSends(l: Life, id: nat, target: Target) returns (v: Life)
    requires WellSized(l.node) && l.lease == Some(id) && id in l.operations && l.record.IsRunning?
    requires l.operations[id] == Operation(SuspendWrite(target), NoRequest)
    ensures FencedTo(l, [Advance(id)], v)
    ensures v == l.(record := IsSuspending,
        operations := l.operations[id := Operation(SuspendSent(target), SuspendRequest)])
  {
    v := Next(l, Advance(id));
    FencedStep(l, Advance(id));
  }

  lemma SuspendEnds(l: Life, id: nat, target: Target, ok: bool) returns (v: Life)
    requires WellSized(l.node) && l.lease == Some(id) && id in l.operations && l.record.IsSuspending?
    requires l.operations[id] == Operation(SuspendDone(target, ok), NoRequest)
    ensures FencedTo(l, [Advance(id)], v)
    ensures v == l.(record := if ok then target else IsRunning, operations := Ended(l, id), lease := None)
  {
    v := Next(l, Advance(id));
    FencedStep(l, Advance(id));
  }

  lemma SuspendFinishes(l: Life, id: nat, target: Target, o: SuspendOutcome, answered: bool) returns (v: Life)
    requires WellSized(l.node) && l.lease == Some(id) && id in l.operations && l.record.IsRunning?
    requires l.operations[id] == Operation(SuspendWrite(target), NoRequest) && Guard(l.node, Op.Suspend(o))
    ensures FencedTo(l, ([Advance(id)] + SuspendCall(id, o, answered)) + [Advance(id)], v)
    ensures var ok := l.node.running && Succeeds(l.node, o) && Hears(o, answered);
      v == Suspends(l, o).(record := if ok then target else IsRunning, operations := Ended(l, id), lease := None)
  {
    var sent := SuspendSends(l, id, target);
    var called := SuspendCalls(sent, id, target, o, answered);
    v := SuspendEnds(called, id, target, l.node.running && Succeeds(l.node, o) && Hears(o, answered));
    FencedThen(l, [Advance(id)], sent, SuspendCall(id, o, answered), called);
    FencedThen(l, [Advance(id)] + SuspendCall(id, o, answered), called, [Advance(id)], v);
  }

  /** A suspend that nothing interrupts is a run of the protocol. */
  lemma SuspendRuns(l: Life, id: nat, target: Target, o: SuspendOutcome, answered: bool)
    requires WellSized(l.node) && l.lease.None? && id !in l.operations && Guard(l.node, Op.Suspend(o))
    ensures FencedTo(l, SuspendSteps(l, id, target, o, answered), Suspended(l, id, target, o, answered))
  {
    var begun := SuspendBegins(l, id, target);
    if l.record.IsRunning? {
      var v := SuspendFinishes(begun, id, target, o, answered);
      FencedThen(l, [Begin(id, SuspendRead(target))] + [Advance(id)], begun,
          ([Advance(id)] + SuspendCall(id, o, answered)) + [Advance(id)], v);
      assert v == Suspended(l, id, target, o, answered);
    } else {
      assert SuspendSteps(l, id, target, o, answered) == [Begin(id, SuspendRead(target))] + [Advance(id)];
    }
  }

  // ---------- recovering ----------

  /** What the node is heard to say. */
  function Seen(running: bool, answers: bool): Runtime {
    if !answers then SeesNothing else if running then SeesRunning else SeesSuspended
  }

  function RecoverSteps(l: Life, id: nat, target: Target, answers: bool): seq<Action> {
    ([Begin(id, RecoverRead(target))] + [Advance(id)])
    + (if l.record.IsSuspending? then [Ask(id, Seen(l.node.running, answers))] + [Advance(id)] else [])
  }

  function Recovered(l: Life, id: nat, target: Target, answers: bool): Life {
    var record :=
      if !l.record.IsSuspending? || !answers then l.record else if l.node.running then IsRunning else target;
    l.(record := record, operations := Ended(l, id))
  }

  lemma RecoverBegins(l: Life, id: nat, target: Target) returns (v: Life)
    requires WellSized(l.node) && l.lease.None? && id !in l.operations
    ensures FencedTo(l, [Begin(id, RecoverRead(target))] + [Advance(id)], v)
    ensures v == if l.record.IsSuspending?
                 then l.(operations := l.operations[id := Operation(RecoverAsk(target), NoRequest)], lease := Some(id))
                 else l.(operations := Ended(l, id))
  {
    var begun := Next(l, Begin(id, RecoverRead(target)));
    v := Next(begun, Advance(id));
    FencedStep(l, Begin(id, RecoverRead(target)));
    FencedStep(begun, Advance(id));
    FencedThen(l, [Begin(id, RecoverRead(target))], begun, [Advance(id)], v);
  }

  lemma RecoverFinishes(l: Life, id: nat, target: Target, answers: bool) returns (v: Life)
    requires WellSized(l.node) && l.lease == Some(id) && id in l.operations && l.record.IsSuspending?
    requires l.operations[id] == Operation(RecoverAsk(target), NoRequest)
    ensures FencedTo(l, [Ask(id, Seen(l.node.running, answers))] + [Advance(id)], v)
    ensures v == Recovered(l, id, target, answers).(lease := None)
  {
    var seen := Seen(l.node.running, answers);
    var asked := Next(l, Ask(id, seen));
    v := Next(asked, Advance(id));
    FencedStep(l, Ask(id, seen));
    FencedStep(asked, Advance(id));
    FencedThen(l, [Ask(id, seen)], asked, [Advance(id)], v);
  }

  /** So is a recovery that nothing interrupts. */
  lemma RecoverRuns(l: Life, id: nat, target: Target, answers: bool)
    requires WellSized(l.node) && l.lease.None? && id !in l.operations
    ensures FencedTo(l, RecoverSteps(l, id, target, answers), Recovered(l, id, target, answers))
  {
    var begun := RecoverBegins(l, id, target);
    if l.record.IsSuspending? {
      var v := RecoverFinishes(begun, id, target, answers);
      FencedThen(l, [Begin(id, RecoverRead(target))] + [Advance(id)], begun,
          [Ask(id, Seen(l.node.running, answers))] + [Advance(id)], v);
      assert v == Recovered(l, id, target, answers);
    } else {
      assert RecoverSteps(l, id, target, answers) == [Begin(id, RecoverRead(target))] + [Advance(id)];
    }
  }

  // ---------- resuming ----------

  /** A node that already runs the sandbox answers at once. */
  function Taken(running: bool, o: ResumeOutcome): ResumeOutcome {
    if running then Resumed else o
  }

  predicate HearsResume(o: ResumeOutcome, answered: bool) {
    answered && !o.LostAfterLoad? && !o.LostInPromotion?
  }

  function ResumeCall(id: nat, o: ResumeOutcome, answered: bool): seq<Action> {
    [NodeResumes(id, o, answered)] + (if HearsResume(o, answered) then [] else [GivesUpWaiting(id)])
  }

  /** From the write of "resuming" to the last write. */
  function SendSteps(id: nat, o: ResumeOutcome, answered: bool): seq<Action> {
    ([Advance(id)] + ResumeCall(id, o, answered)) + [Advance(id)]
  }

  /** After the first read has found this record; `up` when the node runs the sandbox. */
  function RestOfResume(record: RecordState, up: bool, id: nat, o: ResumeOutcome, probed: bool, answered: bool)
    : seq<Action>
  {
    match record
    case IsRunning => []
    case IsFailed => [Advance(id)]
    case IsSuspending => [Advance(id)]
    case IsResuming =>
      [Ask(id, Seen(up, probed))] + (if probed && up then [Advance(id)] else SendSteps(id, Taken(up, o), answered))
    case _ => SendSteps(id, Taken(up, o), answered)
  }

  function ResumeSteps(l: Life, id: nat, o: ResumeOutcome, probed: bool, answered: bool): seq<Action> {
    ([Begin(id, ResumeRead)] + [Advance(id)]) + RestOfResume(l.record, l.node.running, id, o, probed, answered)
  }

  /** A request goes out unless the record forbids it or the probe has found the sandbox running. */
  predicate GoesOut(record: RecordState, up: bool, probed: bool) {
    !record.IsRunning? && !record.IsFailed? && !record.IsSuspending? && !(record.IsResuming? && probed && up)
  }

  /** The node and the record a resume leads to. */
  function NodeAfter(record: RecordState, node: Sandbox, o: ResumeOutcome, probed: bool): (r: Sandbox)
    requires WellSized(node)
    ensures WellSized(r)
  {
    if GoesOut(record, node.running, probed) then Apply(node, Op.Resume(Taken(node.running, o))) else node
  }

  function RecordAfter(record: RecordState, node: Sandbox, o: ResumeOutcome, probed: bool, answered: bool): RecordState
    requires WellSized(node)
  {
    if GoesOut(record, node.running, probed) then
      if NodeAfter(record, node, o, probed).running && HearsResume(Taken(node.running, o), answered)
      then IsRunning else IsFailed
    else if record.IsSuspending? || record.IsFailed? then IsFailed
    else IsRunning
  }

  function ResumedTo(l: Life, id: nat, o: ResumeOutcome, probed: bool, answered: bool): Life
    requires WellSized(l.node)
  {
    l.(record := RecordAfter(l.record, l.node, o, probed, answered), node := NodeAfter(l.record, l.node, o, probed),
       operations := Ended(l, id), lease := None)
  }

  /** Where the first read takes a resume. */
  function AfterRead(record: RecordState): Pc {
    match record
    case IsRunning => Over
    case IsFailed => ResumeDone(false)
    case IsSuspending => ResumeDone(false)
    case IsResuming => ResumeAsk
    case _ => ResumeWrite
  }

  lemma ResumeBegins(l: Life, id: nat) returns (v: Life)
    requires WellSized(l.node) && l.lease.None? && id !in l.operations
    ensures FencedTo(l, [Begin(id, ResumeRead)] + [Advance(id)], v)
    ensures v == l.(operations := l.operations[id := Operation(AfterRead(l.record), NoRequest)],
                    lease := if l.record.IsRunning? then None else Some(id))
  {
    var begun := Next(l, Begin(id, ResumeRead));
    v := Next(begun, Advance(id));
    FencedStep(l, Begin(id, ResumeRead));
    FencedStep(begun, Advance(id));
    FencedThen(l, [Begin(id, ResumeRead)], begun, [Advance(id)], v);
  }

  lemma ResumeCalls(l: Life, id: nat, o: ResumeOutcome, answered: bool) returns (v: Life)
    requires WellSized(l.node) && l.lease == Some(id) && id in l.operations
    requires l.operations[id] == Operation(ResumeSent, ResumeRequest)
    requires o.RegisterFailed? || Guard(l.node, Op.Resume(o))
    ensures FencedTo(l, ResumeCall(id, o, answered), v)
    ensures var node := Apply(l.node, Op.Resume(o));
      v == l.(node := node, operations := l.operations[id :=
                Operation(ResumeDone(node.running && HearsResume(o, answered)), NoRequest)])
  {
    var replied := Next(l, NodeResumes(id, o, answered));
    FencedStep(l, NodeResumes(id, o, answered));
    if HearsResume(o, answered) {
      v := replied;
      assert ResumeCall(id, o, answered) == [NodeResumes(id, o, answered)];
    } else {
      v := Next(replied, GivesUpWaiting(id));
      FencedStep(replied, GivesUpWaiting(id));
      FencedThen(l, [NodeResumes(id, o, answered)], replied, [GivesUpWaiting(id)], v);
    }
  }

  lemma ResumeEnds(l: Life, id: nat, ok: bool) returns (v: Life)
    requires WellSized(l.node) && l.lease == Some(id) && id in l.operations
    requires l.operations[id] == Operation(ResumeDone(ok), NoRequest)
    ensures FencedTo(l, [Advance(id)], v)
    ensures v == l.(record := if ok then IsRunning else IsFailed, operations := Ended(l, id), lease := None)
  {
    v := Next(l, Advance(id));
    FencedStep(l, Advance(id));
  }

  lemma ResumeSends(l: Life, id: nat) returns (v: Life)
    requires WellSized(l.node) && l.lease == Some(id) && id in l.operations
    requires l.operations[id] == Operation(ResumeWrite, NoRequest)
    ensures FencedTo(l, [Advance(id)], v)
    ensures v == l.(record := IsResuming, operations := l.operations[id := Operation(ResumeSent, ResumeRequest)])
  {
    v := Next(l, Advance(id));
    FencedStep(l, Advance(id));
  }

  lemma ResumeSendsOff(l: Life, id: nat, o: ResumeOutcome, answered: bool) returns (v: Life)
    requires WellSized(l.node) && l.lease == Some(id) && id in l.operations
    requires l.operations[id] == Operation(ResumeWrite, NoRequest)
    requires o.RegisterFailed? || Guard(l.node, Op.Resume(o))
    ensures FencedTo(l, SendSteps(id, o, answered), v)
    ensures var node := Apply(l.node, Op.Resume(o));
      v == l.(node := node, record := if node.running && HearsResume(o, answered) then IsRunning else IsFailed,
              operations := Ended(l, id), lease := None)
  {
    var sent := ResumeSends(l, id);
    var called := ResumeCalls(sent, id, o, answered);
    v := ResumeEnds(called, id, Apply(l.node, Op.Resume(o)).running && HearsResume(o, answered));
    FencedThen(l, [Advance(id)], sent, ResumeCall(id, o, answered), called);
    FencedThen(l, [Advance(id)] + ResumeCall(id, o, answered), called, [Advance(id)], v);
  }

  lemma ResumeFinds(l: Life, id: nat) returns (v: Life)
    requires WellSized(l.node) && l.lease == Some(id) && id in l.operations && l.node.running
    requires l.operations[id] == Operation(ResumeAsk, NoRequest)
    ensures FencedTo(l, [Ask(id, SeesRunning)] + [Advance(id)], v)
    ensures v == l.(record := IsRunning, operations := Ended(l, id), lease := None)
  {
    var asked := Next(l, Ask(id, SeesRunning));
    v := Next(asked, Advance(id));
    FencedStep(l, Ask(id, SeesRunning));
    FencedStep(asked, Advance(id));
    FencedThen(l, [Ask(id, SeesRunning)], asked, [Advance(id)], v);
  }

  lemma ResumeAsks(l: Life, id: nat, seen: Runtime) returns (v: Life)
    requires WellSized(l.node) && l.lease == Some(id) && id in l.operations && Truthful(l, seen) && !seen.SeesRunning?
    requires l.operations[id] == Operation(ResumeAsk, NoRequest)
    ensures FencedTo(l, [Ask(id, seen)], v)
    ensures v == l.(operations := l.operations[id := Operation(ResumeWrite, NoRequest)])
  {
    v := Next(l, Ask(id, seen));
    FencedStep(l, Ask(id, seen));
  }

  /** A resume may be carried out: it fails to register, or its guard holds. */
  predicate Allowed(node: Sandbox, o: ResumeOutcome)
    requires WellSized(node)
  {
    Taken(node.running, o).RegisterFailed? || Guard(node, Op.Resume(Taken(node.running, o)))
  }

  lemma ResumeProbes(l: Life, id: nat, o: ResumeOutcome, probed: bool, answered: bool) returns (v: Life)
    requires WellSized(l.node) && l.record.IsResuming? && l.lease == Some(id) && id in l.operations
    requires l.operations[id] == Operation(ResumeAsk, NoRequest) && Allowed(l.node, o) && !(probed && l.node.running)
    ensures FencedTo(l, [Ask(id, Seen(l.node.running, probed))] + SendSteps(id, Taken(l.node.running, o), answered), v)
    ensures v == ResumedTo(l, id, o, probed, answered)
  {
    var seen := Seen(l.node.running, probed);
    var asked := ResumeAsks(l, id, seen);
    v := ResumeSendsOff(asked, id, Taken(l.node.running, o), answered);
    FencedThen(l, [Ask(id, seen)], asked, SendSteps(id, Taken(l.node.running, o), answered), v);
  }

  lemma ResumeRests(l: Life, id: nat, o: ResumeOutcome, probed: bool, answered: bool) returns (v: Life)
    requires WellSized(l.node) && !l.record.IsRunning? && l.lease == Some(id) && id in l.operations
    requires l.operations[id] == Operation(AfterRead(l.record), NoRequest) && Allowed(l.node, o)
    ensures FencedTo(l, RestOfResume(l.record, l.node.running, id, o, probed, answered), v)
    ensures v == ResumedTo(l, id, o, probed, answered)
  {
    ghost var rest := RestOfResume(l.record, l.node.running, id, o, probed, answered);
    if l.record.IsFailed? || l.record.IsSuspending? {
      v := ResumeEnds(l, id, false);
      assert rest == [Advance(id)];
    } else if !l.record.IsResuming? {
      v := ResumeSendsOff(l, id, Taken(l.node.running, o), answered);
      assert rest == SendSteps(id, Taken(l.node.running, o), answered);
    } else if probed && l.node.running {
      v := ResumeFinds(l, id);
      assert rest == [Ask(id, SeesRunning)] + [Advance(id)];
    } else {
      v := ResumeProbes(l, id, o, probed, answered);
    }
  }

  /** And a resume that nothing interrupts. */
  lemma ResumeRuns(l: Life, id: nat, o: ResumeOutcome, probed: bool, answered: bool)
    requires WellSized(l.node) && l.lease.None? && id !in l.operations && Allowed(l.node, o)
    ensures FencedTo(l, ResumeSteps(l, id, o, probed, answered), ResumedTo(l, id, o, probed, answered))
  {
    var begun := ResumeBegins(l, id);
    if l.record.IsRunning? {
      assert ResumeSteps(l, id, o, probed, answered) == [Begin(id, ResumeRead)] + [Advance(id)];
    } else {
      var v := ResumeRests(begun, id, o, probed, answered);
      var rest := RestOfResume(l.record, l.node.running, id, o, probed, answered);
      FencedThen(l, [Begin(id, ResumeRead)] + [Advance(id)], begun, rest, v);
      assert Ended(begun, id) == Ended(l, id);
    }
  }

  /** The record ends "running": it was, or the probe finds the sandbox running, or the node answers and
      runs it already or loads an undamaged snapshot.  Failed and suspending records are refused. */
  predicate ComesBack(record: RecordState, up: bool, damaged: bool, o: ResumeOutcome, probed: bool, answered: bool) {
    || record.IsRunning?
    || (record.IsResuming? && probed && up)
    || (!record.IsFailed? && !record.IsSuspending? && answered && (up || (!damaged && o == Resumed)))
  }

  /** The sandbox ends up running. */
  predicate EndsUp(record: RecordState, up: bool, damaged: bool, o: ResumeOutcome) {
    up || (!record.IsRunning? && !record.IsFailed? && !record.IsSuspending? && !damaged && !Fails(o))
  }

  // ---------- the actions ----------

  class SandboxOperator {
    const dir: SandboxDir
    var record: RecordState
    var lease: Option<nat>

    // What the guest held when last suspended, the operations so far, and the writers of "slept".
    ghost var mem: seq<int>
    ghost var cpu: int
    ghost var operations: map<nat, Operation>
    ghost var sleepers: nat

    ghost function Now(): Life
      reads this, dir
    {
      Life(record, dir.State(), mem, cpu, operations, lease, sleepers)
    }

    constructor (dir: SandboxDir, record: RecordState)
      ensures this.dir == dir && this.record == record && lease.None? && operations == map[] && sleepers == 0
      ensures mem == dir.mem && cpu == dir.cpu
    {
      this.dir, this.record, this.lease := dir, record, None;
      mem, cpu, operations, sleepers := dir.mem, dir.cpu, map[], 0;
    }

    /** The request, and the record's last write. */
    method SendSuspend(target: Target, o: SuspendOutcome, answered: bool)
      requires dir.Valid()
      modifies this`record, dir
      ensures dir.Valid() && dir.State() == Apply(old(dir.State()), Op.Suspend(o))
      ensures record ==
              if old(dir.running) && old(Succeeds(dir.State(), o)) && Hears(o, answered) then target else IsRunning
      ensures record == target ==> !dir.running && Verified(dir.State().files)
      ensures record == target && old(Covered(dir.State())) ==> Holds(dir.State(), old(dir.mem), old(dir.cpu))
    {
      record := IsSuspending;
      var ok := false;
      if dir.running {
        ok := dir.OpSuspend(o);
      }
      record := if ok && answered then target else IsRunning;
    }

    /** What a suspend does once it holds the lease. */
    method SuspendHeld(target: Target, o: SuspendOutcome, answered: bool)
      requires dir.Valid()
      modifies this`record, dir
      ensures dir.Valid()
      ensures old(record) != IsRunning ==> record == old(record) && dir.State() == old(dir.State())
      ensures old(record) == IsRunning ==>
                && dir.State() == Apply(old(dir.State()), Op.Suspend(o))
                && record ==
                   if old(dir.running && Succeeds(dir.State(), o)) && Hears(o, answered) then target else IsRunning
      ensures record != old(record) ==> !dir.running && Verified(dir.State().files)
      ensures record != old(record) && old(Covered(dir.State())) ==> Holds(dir.State(), old(dir.mem), old(dir.cpu))
    {
      if record == IsRunning {
        SendSuspend(target, o, answered);
      }
    }

    /** With the lease free: taken, used and given back. */
    method SuspendLeased(id: nat, target: Target, o: SuspendOutcome, answered: bool)
      requires dir.Valid() && id !in operations && lease.None?
      modifies this, dir
      ensures dir.Valid() && Now() == Suspended(old(Now()), id, target, o, answered)
      ensures record != old(record) ==> !dir.running && Verified(dir.State().files)
      ensures record != old(record) && old(Covered(dir.State())) ==> Holds(dir.State(), old(dir.mem), old(dir.cpu))
    {
      ghost var before := Now();
      ghost var after := Suspended(before, id, target, o, answered);
      lease, mem, cpu, operations := Some(id), after.mem, after.cpu, after.operations;
      SuspendHeld(target, o, answered);
      lease := None;
    }

    /** A record leaves "running" for `target` only with a verified snapshot behind it, of exactly
        the guest if nothing was lost before; a failed call or a lost answer leaves it "running". */
    method Suspend(id: nat, target: Target, o: SuspendOutcome, answered: bool)
      requires dir.Valid() && id !in operations
      modifies this, dir
      ensures dir.Valid()
      ensures old(lease.Some?) ==> Now() == old(Now())
      ensures old(lease.None?) ==> Now() == Suspended(old(Now()), id, target, o, answered)
      ensures old(lease.None? && Guard(dir.State(), Op.Suspend(o))) ==> IsRun(old(Now()), Now())
      ensures old(lease.None?) ==>
                record == (if old(record) != IsRunning then old(record)
                           else if old(dir.running) && old(Succeeds(dir.State(), o)) && answered then target
                           else IsRunning)
      ensures record != old(record) ==> !dir.running && Verified(dir.State().files)
      ensures record != old(record) && old(Covered(dir.State())) ==> Holds(dir.State(), old(dir.mem), old(dir.cpu))
    {
      if lease.Some? {
        return;
      }
      if Guard(dir.State(), Op.Suspend(o)) { SuspendRuns(Now(), id, target, o, answered); }
      SuspendLeased(id, target, o, answered);
    }

    /** An abandoned "suspending" becomes what the node says, or stays when it does not answer. */
    method RecoverSuspending(id: nat, target: Target, answers: bool)
      requires dir.Valid() && id !in operations
      modifies this`record, this`lease, this`operations
      ensures old(lease.Some?) ==> Now() == old(Now())
      ensures old(lease.None?) ==>
                Now() == Recovered(old(Now()), id, target, answers) && IsRun(old(Now()), Now())
      ensures record == if old(lease).Some? || old(record) != IsSuspending || !answers then old(record)
                        else if dir.running then IsRunning else target
    {
      if lease.Some? {
        return;
      }
      ghost var before := Now();
      lease := Some(id);
      if record == IsSuspending {
        var seen := if !answers then SeesNothing else if dir.running then SeesRunning else SeesSuspended;
        match seen {
          case SeesRunning => record := IsRunning;
          case SeesSuspended => record := target;
          case SeesNothing =>
        }
      }
      lease := None;
      operations := Ended(before, id);
      RecoverRuns(before, id, target, answers);
    }

    /** The request, and the record's last write. */
    method SendResume(o: ResumeOutcome, answered: bool)
      requires dir.Valid()
      modifies this`record, dir
      ensures dir.Valid() && dir.State() == Apply(old(dir.State()), Op.Resume(Taken(old(dir.running), o)))
      ensures record == if dir.running && HearsResume(Taken(old(dir.running), o), answered) then IsRunning else IsFailed
      ensures dir.running <==> old(dir.running) || (!old(Damaged(dir.State().files)) && !Fails(o))
      ensures old(dir.running) ==> dir.State() == old(dir.State())
      ensures forall m, c :: old(Holds(dir.State(), m, c)) && !Fails(o) ==> dir.running && dir.mem == m && dir.cpu == c
    {
      record := IsResuming;
      var ok := dir.running;
      if !ok {
        ok := dir.OpResume(o);
      }
      record := if ok && answered then IsRunning else IsFailed;
    }

    /** What a resume does once it holds the lease. */
    method ResumeHeld(o: ResumeOutcome, probed: bool, answered: bool)
      requires dir.Valid()
      modifies this`record, dir
      ensures dir.Valid() && dir.State() == NodeAfter(old(record), old(dir.State()), o, probed)
      ensures record == RecordAfter(old(record), old(dir.State()), o, probed, answered)
      ensures record ==
              if ComesBack(old(record), old(dir.running), old(Damaged(dir.State().files)), o, probed, answered)
              then IsRunning else IsFailed
      ensures dir.running == EndsUp(old(record), old(dir.running), old(Damaged(dir.State().files)), o)
      ensures old(dir.running) ==> dir.State() == old(dir.State())
      ensures old(record) == IsRunning ==> record == IsRunning && dir.State() == old(dir.State())
      ensures old(record) != IsRunning ==> record == IsFailed || (record == IsRunning && dir.running)
      ensures forall m, c :: IsTarget(old(record)) && old(Holds(dir.State(), m, c)) && o == Resumed && answered ==>
                record == IsRunning && dir.running && dir.mem == m && dir.cpu == c
    {
      if record == IsRunning {
        return;
      }
      if record == IsFailed || record == IsSuspending {
        record := IsFailed;
        return;
      }
      if record == IsResuming && probed && dir.running {
        record := IsRunning;
        return;
      }
      SendResume(o, answered);
    }

    /** With the lease free: taken, used and given back. */
    method ResumeLeased(id: nat, o: ResumeOutcome, probed: bool, answered: bool)
      requires dir.Valid() && id !in operations && lease.None?
      modifies this`record, this`lease, this`operations, dir
      ensures dir.Valid() && Now() == ResumedTo(old(Now()), id, o, probed, answered)
      ensures record ==
              if ComesBack(old(record), old(dir.running), old(Damaged(dir.State().files)), o, probed, answered)
              then IsRunning else IsFailed
      ensures dir.running == EndsUp(old(record), old(dir.running), old(Damaged(dir.State().files)), o)
      ensures old(dir.running) ==> dir.State() == old(dir.State())
      ensures old(record) == IsRunning ==> record == IsRunning && dir.State() == old(dir.State())
      ensures old(record) != IsRunning ==> record == IsFailed || (record == IsRunning && dir.running)
      ensures o == Resumed && answered ==>
                forall m, c :: old(IsTarget(record) && Holds(dir.State(), m, c)) ==>
                  record == IsRunning && dir.running && dir.mem == m && dir.cpu == c
    {
      lease, operations := Some(id), Ended(Now(), id);
      ResumeHeld(o, probed, answered);
      lease := None;
    }

    /** A sandbox down with a verified snapshot comes back exactly as it was suspended; any failure
        leaves the record "failed". */
    method Resume(id: nat, o: ResumeOutcome, probed: bool, answered: bool)
      requires dir.Valid() && id !in operations
      modifies this`record, this`lease, this`operations, dir
      ensures dir.Valid()
      ensures old(lease.Some?) ==> Now() == old(Now())
      ensures old(lease.None?) ==> Now() == ResumedTo(old(Now()), id, o, probed, answered)
      ensures old(lease.None? && Allowed(dir.State(), o)) ==> IsRun(old(Now()), Now())
      ensures old(lease.None?) ==>
                record ==
                if ComesBack(old(record), old(dir.running), old(Damaged(dir.State().files)), o, probed, answered)
                then IsRunning else IsFailed
      ensures old(lease.None?) ==>
                dir.running == EndsUp(old(record), old(dir.running), old(Damaged(dir.State().files)), o)
      ensures old(dir.running) ==> dir.State() == old(dir.State())
      ensures old(record) == IsRunning ==> record == IsRunning && dir.State() == old(dir.State())
      ensures old(lease.None? && record != IsRunning) ==> record == IsFailed || (record == IsRunning && dir.running)
      ensures o == Resumed && answered ==>
                forall m, c :: old(lease.None? && IsTarget(record) && Holds(dir.State(), m, c)) ==>
                  record == IsRunning && dir.running && dir.mem == m && dir.cpu == c
    {
      if lease.Some? {
        return;
      }
      if Allowed(dir.State(), o) { ResumeRuns(Now(), id, o, probed, answered); }
      ResumeLeased(id, o, probed, answered);
    }
  }
}
