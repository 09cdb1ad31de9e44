/** What every snapshot operation keeps, exactly when it keeps it, and memory fidelity over
    every run. */
module SnapshotFidelity {
  import opened Options
  import opened SparseImages
  import opened SnapshotGenerations

  // ---------- the invariant ----------

  /** The file reads as guest memory on every page the dirty bitmap does not list. */
  predicate AgreesOffDirty(f: SparseFile, s: Sandbox) {
    && |f| == |s.mem|
    && forall p :: 0 <= p < |f| && p !in s.dirty ==> ReadCell(f[p]) == s.mem[p]
  }

  /** What the next sparse suspend and its resume would build on. */
  function MergedImage(s: Sandbox): SparseFile
    requires WellSized(s) && s.files.base.Some?
  {
    Overlay(s.files.base.value, FileOrHoles(s.files.vmMem, s.pages))
  }

  /** Nothing clean is lost: the image the next suspend starts from carries every page the
      bitmap does not.  In-place mode clones the base, so there the base itself must do. */
  predicate Covered(s: Sandbox)
    requires WellSized(s)
  {
    s.running && s.files.base.Some? ==>
      AgreesOffDirty(MergedImage(s), s) && (s.inplace ==> AgreesOffDirty(s.files.base.value, s))
  }

  predicate Succeeds(s: Sandbox, o: SuspendOutcome)
    requires WellSized(s) && s.running
  {
    SnapshotCalls(s, o).1 && o.ending.Stops?
  }

  /** The stopped sandbox holds exactly this memory and register state, verified. */
  predicate Holds(s: Sandbox, mem: seq<int>, cpu: int)
    requires WellSized(s)
  {
    && !s.running && Verified(s.files)
    && Content(ResumeImage(s.files)) == mem && s.files.snapshot == Some(cpu)
  }

  // ---------- one suspend and its resume ----------

  /** Whatever path the suspend took (Full, sparse Diff, in-place Diff, Full fallback), it left a
      verified snapshot from which a resume rebuilds the suspended memory page for page. */
  lemma SuspendHolds(s: Sandbox, o: SuspendOutcome)
    requires WellSized(s) && s.running && Covered(s) && Succeeds(s, o)
    ensures Holds(SuspendStep(s, o), s.mem, s.cpu)
  {
    var t := SuspendStep(s, o);
    var image := Content(ResumeImage(t.files));
    forall p | 0 <= p < s.pages ensures image[p] == s.mem[p] {
      if s.files.base.Some? && p !in s.dirty {
        assert ReadCell(MergedImage(s)[p]) == s.mem[p];
      }
    }
    assert image == s.mem;
  }

  /** Covered is exactly what fidelity needs: the successful suspends of a sandbox all reload
      its memory if and only if the sandbox is covered. */
  lemma CoveredExactly(s: Sandbox)
    requires WellSized(s) && s.running
    ensures Covered(s) <==> forall o: SuspendOutcome :: Succeeds(s, o) ==> Holds(SuspendStep(s, o), s.mem, s.cpu)
  {
    if Covered(s) {
      forall o: SuspendOutcome | Succeeds(s, o) ensures Holds(SuspendStep(s, o), s.mem, s.cpu) {
        SuspendHolds(s, o);
      }
    } else if s.inplace && !AgreesOffDirty(s.files.base.value, s) {
      var p :| 0 <= p < s.pages && p !in s.dirty && ReadCell(s.files.base.value[p]) != s.mem[p];
      LosesPage(s, SuspendOutcome(true, Done, Done, true, Stops), p);
    } else {
      var p :| 0 <= p < s.pages && p !in s.dirty && ReadCell(MergedImage(s)[p]) != s.mem[p];
      LosesPage(s, SuspendOutcome(false, Done, Done, true, Stops), p);
    }
  }

  lemma LosesPage(s: Sandbox, o: SuspendOutcome, p: nat)
    requires WellSized(s) && s.running && s.files.base.Some? && p < s.pages && p !in s.dirty
    requires o.first.Done? && o.ending.Stops?
    requires ReadCell((if s.inplace && o.cloned then s.files.base.value else MergedImage(s))[p]) != s.mem[p]
    ensures Succeeds(s, o) && !Holds(SuspendStep(s, o), s.mem, s.cpu)
  {
    var t := SuspendStep(s, o);
    assert Content(ResumeImage(t.files))[p] != s.mem[p];
  }

  /** A Full fallback needs no help from the base: it reloads even an uncovered sandbox. */
  lemma FullFallbackHeals(s: Sandbox, o: SuspendOutcome)
    requires WellSized(s) && s.running && Succeeds(s, o) && o.first.Failed?
    ensures Holds(SuspendStep(s, o), s.mem, s.cpu)
  {
    var image := Content(ResumeImage(SuspendStep(s, o).files));
    assert forall p :: 0 <= p < s.pages ==> image[p] == s.mem[p];
    assert image == s.mem;
  }

  // ---------- which operations keep the invariant ----------

  predicate HoleAt(f: Option<SparseFile>, p: nat) {
    f.Some? && p < |f.value| ==> f.value[p].Hole?
  }

  /** What an operator can read off the directory and the bitmap before (or right after a
      failed call of) an operation; guest memory does not occur in it. */
  predicate Guard(s: Sandbox, op: Op)
    requires WellSized(s)
  {
    var f := s.files;
    match op
    case Write(_, _) => true
    case Execute(_) => true
    case SnapshotBase(call) =>
      s.running && f.base.None? ==>
        (match call
         case Done => forall p :: 0 <= p < s.pages ==> HoleAt(f.vmMem, p)
         case Failed(written, truncated) =>
           (written == {} && !truncated)
           || (forall p :: 0 <= p < s.pages && p !in s.dirty ==> p in written && HoleAt(f.vmMem, p)))
    case Checkpoint(o) =>
      s.running && f.base.Some? ==>
        (o.Promoted? ==> forall p :: 0 <= p < s.pages && p in s.dirty ==> HoleAt(f.vmMem, p))
        && (o.LostAfterDiff? ==> s.dirty == {})
    case Suspend(o) =>
      s.running && f.base.Some? ==>
        (SnapshotCalls(s, o).1 && !o.ending.Stops? && s.inplace ==> s.dirty == {})
        && (o.first.Failed? && o.fallback.Failed? && o.fallback.truncated && f.vmMem.Some? ==>
              forall p :: 0 <= p < s.pages && p !in s.dirty && p !in o.fallback.written ==>
                f.vmMem.value[p].Hole? || ReadCell(f.vmMem.value[p]) == ReadCell(f.base.value[p]))
    case Resume(o) => !s.running && Verified(WithManifest(f)) ==> ResumeGuard(s, WithManifest(f), o)
  }

  /** Every page vm.mem carries reads the same in the base. */
  predicate BaseHasDiff(base: SparseFile, vmMem: SparseFile)
    requires |base| == |vmMem|
  {
    forall p :: 0 <= p < |vmMem| && vmMem[p].Data? ==> vmMem[p].content == ReadCell(base[p])
  }

  /** A failed registration must not have promoted anything.  With the agent lost before or within
      the promotion, the base left behind must do for the image that was loaded. */
  predicate ResumeGuard(s: Sandbox, f: Files, o: ResumeOutcome)
    requires f.vmMem.Some? && (f.base.Some? ==> |f.base.value| == |f.vmMem.value|)
  {
    match o
    case LoadFailed => true
    case Resumed => true
    case RegisterFailed => f.base.None? && !f.marker
    case LostAfterLoad =>
      f.base.Some? ==>
        && (s.inplace ==> BaseHasDiff(f.base.value, f.vmMem.value))
        && (f.marker ==>
              forall p :: 0 <= p < |f.vmMem.value| && f.vmMem.value[p].Hole? ==> ReadCell(f.base.value[p]) == 0)
    case LostInPromotion => f.base.Some? && !f.marker ==> BaseHasDiff(f.base.value, f.vmMem.value)
  }

  /** Page-wise form of the invariant. */
  predicate CoveredAt(s: Sandbox, p: nat)
    requires WellSized(s) && s.running && s.files.base.Some? && p < s.pages
  {
    p !in s.dirty ==>
      && ReadCell(MergedImage(s)[p]) == s.mem[p]
      && (s.inplace ==> ReadCell(s.files.base.value[p]) == s.mem[p])
  }

  lemma CoveredPagewise(s: Sandbox)
    requires WellSized(s) && s.running && s.files.base.Some?
    ensures Covered(s) <==> forall p :: 0 <= p < s.pages ==> CoveredAt(s, p)
  {
    if Covered(s) {
      forall p | 0 <= p < s.pages ensures CoveredAt(s, p) {
      }
    }
    if forall p :: 0 <= p < s.pages ==> CoveredAt(s, p) {
      forall p | 0 <= p < s.pages && p !in s.dirty
        ensures ReadCell(MergedImage(s)[p]) == s.mem[p]
        ensures s.inplace ==> ReadCell(s.files.base.value[p]) == s.mem[p]
      {
        assert CoveredAt(s, p);
      }
    }
  }

  /** One failed suspend: what its two calls left in vm.mem covers a page that was covered. */
  lemma FailedSuspendKeepsPage(s: Sandbox, o: SuspendOutcome, p: nat)
    requires WellSized(s) && s.running && s.files.base.Some? && p < s.pages
    requires CoveredAt(s, p) && Guard(s, Suspend(o))
    requires o.first.Failed? && o.fallback.Failed?
    ensures CoveredAt(SuspendStep(s, o), p)
  {
    var f, t := s.files, SuspendStep(s, o).files;
    var staged := s.inplace && o.cloned;
    var target := if staged then f.base else f.vmMem;
    var partial := Leftover(target, s.mem, Failed(o.first.written * s.dirty, false));
    assert t.vmMem == Leftover(partial, s.mem, o.fallback) && t.base == f.base;
    if p !in s.dirty {
      assert FileOrHoles(partial, s.pages)[p] == FileOrHoles(target, s.pages)[p];
    }
  }

  lemma GuardKeepsPage(s: Sandbox, op: Op, p: nat)
    requires WellSized(s) && s.running && p < s.pages && Guard(s, op)
    requires s.files.base.Some? ==> CoveredAt(s, p)
    requires var t := Apply(s, op); t.running && t.files.base.Some?
    ensures CoveredAt(Apply(s, op), p)
  {
    match op
    case Write(_, _) =>
    case Execute(_) =>
    case SnapshotBase(call) =>
      if s.files.base.None? && p !in Apply(s, op).dirty {
        assert HoleAt(s.files.vmMem, p);
      }
    case Checkpoint(_) =>
    case Suspend(o) =>
      if s.files.base.Some? && o.first.Failed? && o.fallback.Failed? {
        FailedSuspendKeepsPage(s, o, p);
      }
    case Resume(_) =>
  }

  lemma GuardKeepsCovered(s: Sandbox, op: Op)
    requires WellSized(s) && s.running && Covered(s) && Guard(s, op)
    ensures Covered(Apply(s, op))
  {
    var t := Apply(s, op);
    if t.running && t.files.base.Some? {
      forall p | 0 <= p < s.pages ensures CoveredAt(t, p) {
        if s.files.base.Some? {
          CoveredPagewise(s);
        }
        GuardKeepsPage(s, op, p);
      }
      CoveredPagewise(t);
    }
  }

  /** A page the bitmap lists, or any page while there is no base, may hold anything. */
  lemma PageIsFree(s: Sandbox, p: nat, v: int)
    requires WellSized(s) && s.running && Covered(s) && p < s.pages
    requires p in s.dirty || s.files.base.None?
    ensures WellSized(s.(mem := s.mem[p := v])) && Covered(s.(mem := s.mem[p := v]))
  {
    var u := s.(mem := s.mem[p := v]);
    if s.files.base.Some? {
      CoveredPagewise(s);
      forall q | 0 <= q < s.pages ensures CoveredAt(u, q) {
        assert CoveredAt(s, q);
      }
      CoveredPagewise(u);
    }
  }

  lemma Uncovers(s: Sandbox, p: nat)
    requires WellSized(s) && s.running && s.files.base.Some? && p < s.pages
    requires !CoveredAt(s, p)
    ensures !Covered(s)
  {
    CoveredPagewise(s);
  }

  /** A guest memory, compatible with everything the guard can see, that the operation uncovers. */
  predicate UncoveredBy(s: Sandbox, op: Op, mem: seq<int>)
    requires WellSized(s) && s.running
  {
    |mem| == s.pages && Covered(s.(mem := mem)) && !Covered(Apply(s.(mem := mem), op))
  }

  lemma BaseSnapshotUncovers(s: Sandbox, op: Op) returns (mem: seq<int>)
    requires WellSized(s) && s.running && Covered(s) && op.SnapshotBase? && !Guard(s, op)
    ensures UncoveredBy(s, op, mem)
  {
    var vmMem := s.files.vmMem;
    var p: nat;
    if op.call.Done? {
      p :| p < s.pages && !HoleAt(vmMem, p);
    } else {
      p :| p < s.pages && p !in s.dirty && !(p in op.call.written && HoleAt(vmMem, p));
    }
    var v := if HoleAt(vmMem, p) then 1 else vmMem.value[p].content + 1;
    PageIsFree(s, p, v);
    mem := s.mem[p := v];
    Uncovers(Apply(s.(mem := mem), op), p);
  }

  lemma CheckpointUncovers(s: Sandbox, op: Op) returns (mem: seq<int>)
    requires WellSized(s) && s.running && Covered(s) && op.Checkpoint? && !Guard(s, op)
    ensures UncoveredBy(s, op, mem)
  {
    var p :| p in s.dirty && (op.checkpoint.Promoted? ==> !HoleAt(s.files.vmMem, p));
    var v := ReadCell(MergedImage(s)[p]) + 1;
    PageIsFree(s, p, v);
    mem := s.mem[p := v];
    Uncovers(Apply(s.(mem := mem), op), p);
  }

  lemma SuspendUncovers(s: Sandbox, op: Op) returns (mem: seq<int>)
    requires WellSized(s) && s.running && Covered(s) && op.Suspend? && !Guard(s, op)
    ensures UncoveredBy(s, op, mem)
  {
    var f, o := s.files, op.suspend;
    if SnapshotCalls(s, o).1 {
      var p :| p in s.dirty;
      var v := ReadCell(f.base.value[p]) + 1;
      PageIsFree(s, p, v);
      mem := s.mem[p := v];
      Uncovers(Apply(s.(mem := mem), op), p);
    } else {
      mem := s.mem;
      var p :| 0 <= p < s.pages && p !in s.dirty && p !in o.fallback.written
        && !(f.vmMem.value[p].Hole? || ReadCell(f.vmMem.value[p]) == ReadCell(f.base.value[p]));
      CoveredPagewise(s);
      assert CoveredAt(s, p);
      assert s.(mem := mem) == s;
      Uncovers(Apply(s, op), p);
    }
  }

  /** When the guard fails there is such a memory. */
  lemma GuardFailureUncovers(s: Sandbox, op: Op) returns (mem: seq<int>)
    requires WellSized(s) && s.running && Covered(s) && !Guard(s, op)
    ensures UncoveredBy(s, op, mem)
  {
    match op
    case SnapshotBase(_) => mem := BaseSnapshotUncovers(s, op);
    case Checkpoint(_) => mem := CheckpointUncovers(s, op);
    case Suspend(_) => mem := SuspendUncovers(s, op);
    case Write(_, _) =>
    case Execute(_) =>
    case Resume(_) =>
  }

  /** The guard is exact: an operation is safe for every guest memory compatible with the
      directory and the bitmap if and only if the guard holds. */
  lemma GuardExactly(s: Sandbox, op: Op)
    requires WellSized(s) && s.running && Covered(s)
    ensures Guard(s, op) <==>
            forall mem: seq<int> :: |mem| == s.pages && Covered(s.(mem := mem)) ==> Covered(Apply(s.(mem := mem), op))
  {
    if Guard(s, op) {
      forall mem: seq<int> | |mem| == s.pages && Covered(s.(mem := mem))
        ensures Covered(Apply(s.(mem := mem), op))
      {
        GuardSeesNoMemory(s, mem, op);
        GuardKeepsCovered(s.(mem := mem), op);
      }
    } else {
      var mem := GuardFailureUncovers(s, op);
      assert UncoveredBy(s, op, mem);
    }
  }

  lemma GuardSeesNoMemory(s: Sandbox, mem: seq<int>, op: Op)
    requires WellSized(s) && s.running && |mem| == s.pages
    ensures Guard(s, op) <==> Guard(s.(mem := mem), op)
  {
  }

  predicate Fails(o: ResumeOutcome) {
    o.LoadFailed? || o.RegisterFailed?
  }

  /** A failed resume keeps the snapshot unless it fails after the promotion, when vm.mem, which
      the manifest lists, has already become the next base. */
  lemma FailedResumeKeepsSnapshotExactly(s: Sandbox, o: ResumeOutcome, mem: seq<int>, cpu: int)
    requires WellSized(s) && Holds(s, mem, cpu) && Fails(o)
    ensures Holds(ResumeStep(s, o), mem, cpu) <==>
            o == LoadFailed || (s.files.base.None? && !s.files.marker)
  {
  }

  /** Page by page, what a resume leaves to the next suspend. */
  predicate NextBaseAt(t: Sandbox, p: nat)
    requires WellSized(t) && t.running && t.files.base.Some? && p < t.pages
  {
    ReadCell(MergedImage(t)[p]) == t.mem[p] && (t.inplace ==> ReadCell(t.files.base.value[p]) == t.mem[p])
  }

  lemma NextBaseCovers(t: Sandbox)
    requires WellSized(t) && t.running && t.files.base.Some? && t.dirty == {}
    ensures Covered(t) <==> forall p :: 0 <= p < t.pages ==> NextBaseAt(t, p)
  {
    CoveredPagewise(t);
    forall p | 0 <= p < t.pages ensures CoveredAt(t, p) <==> NextBaseAt(t, p) {
    }
  }

  lemma ResumeGuardCovers(s: Sandbox, o: ResumeOutcome)
    requires WellSized(s) && !s.running && Verified(s.files) && ResumeGuard(s, s.files, o)
    ensures Covered(ResumeStep(s, o))
  {
    var t := ResumeStep(s, o);
    if t.running && t.files.base.Some? {
      forall p | 0 <= p < t.pages ensures NextBaseAt(t, p) {
      }
      NextBaseCovers(t);
    }
  }

  /** A page of the image loaded that the base left behind does not have. */
  lemma ResumeUncovers(s: Sandbox, o: ResumeOutcome)
    requires WellSized(s) && !s.running && Verified(s.files) && !Fails(o) && !ResumeGuard(s, s.files, o)
    ensures !Covered(ResumeStep(s, o))
  {
    var t := ResumeStep(s, o);
    var f := s.files;
    var base, vmMem := f.base.value, f.vmMem.value;
    var p: nat;
    if o.LostAfterLoad? && f.marker && exists q :: 0 <= q < s.pages && vmMem[q].Hole? && ReadCell(base[q]) != 0 {
      p :| p < s.pages && vmMem[p].Hole? && ReadCell(base[p]) != 0;
    } else {
      p :| p < s.pages && vmMem[p].Data? && vmMem[p].content != ReadCell(base[p]);
    }
    assert !NextBaseAt(t, p);
    NextBaseCovers(t);
  }

  /** For a sandbox that is down the guard is exact too: it holds if and only if the resume leaves
      a running sandbox covered, and one still down holding what it held. */
  lemma ResumeGuardExactly(s: Sandbox, o: ResumeOutcome, mem: seq<int>, cpu: int)
    requires WellSized(s) && Holds(s, mem, cpu)
    ensures Guard(s, Resume(o)) <==>
            var t := ResumeStep(s, o);
            if t.running then Covered(t) else Holds(t, mem, cpu)
  {
    if Fails(o) {
      FailedResumeKeepsSnapshotExactly(s, o, mem, cpu);
    } else if ResumeGuard(s, s.files, o) {
      ResumeGuardCovers(s, o);
    } else {
      ResumeUncovers(s, o);
    }
  }

  // ---------- fidelity over runs ----------

  /** A sandbox just created on a node, or claimed into a fresh directory: nothing on disk. */
  predicate Fresh(s: Sandbox)
    requires WellSized(s)
  {
    s.running && s.files == Files(None, None, None, false, None)
  }

  predicate GuardedRun(s: Sandbox, ops: seq<Op>)
    requires WellSized(s)
    decreases |ops|
  {
    ops == [] || (Guard(s, ops[0]) && GuardedRun(Apply(s, ops[0]), ops[1..]))
  }

  /** Every resume of the run restores the memory and registers of the suspend it answers, and
      whenever the sandbox is down its snapshot verifies and holds that state. */
  predicate Faithful(s: Sandbox, mem: seq<int>, cpu: int, ops: seq<Op>)
    requires WellSized(s)
    decreases |ops|
  {
    && (!s.running ==> Holds(s, mem, cpu))
    && (ops == [] ||
        var t := Apply(s, ops[0]);
        && (!s.running && t.running ==> t.mem == mem && t.cpu == cpu)
        && (if s.running then Faithful(t, s.mem, s.cpu, ops[1..]) else Faithful(t, mem, cpu, ops[1..])))
  }

  lemma {:induction false} RunFidelityFrom(s: Sandbox, mem: seq<int>, cpu: int, ops: seq<Op>)
    requires WellSized(s) && Covered(s) && GuardedRun(s, ops)
    requires !s.running ==> Holds(s, mem, cpu)
    ensures Faithful(s, mem, cpu, ops)
    decreases |ops|
  {
    if ops != [] {
      var t := Apply(s, ops[0]);
      if s.running {
        GuardKeepsCovered(s, ops[0]);
        if !t.running {
          SuspendHolds(s, ops[0].suspend);
        }
        RunFidelityFrom(t, s.mem, s.cpu, ops[1..]);
      } else {
        if ops[0].Resume? {
          ResumeGuardExactly(s, ops[0].resume, mem, cpu);
        }
        RunFidelityFrom(t, mem, cpu, ops[1..]);
      }
    }
  }

  /** Memory fidelity: over any number of generations, storage modes and failed calls, a guarded
      run from a fresh directory only ever resumes exactly what was suspended. */
  lemma RunFidelity(s: Sandbox, ops: seq<Op>)
    requires WellSized(s) && Fresh(s) && GuardedRun(s, ops)
    ensures Faithful(s, s.mem, s.cpu, ops)
  {
    RunFidelityFrom(s, s.mem, s.cpu, ops);
  }

  // ---------- the guest alone ----------

  /** Memory and registers as the guest's own writes and execution leave them. */
  datatype Guest = Guest(mem: seq<int>, cpu: int)

  function Lived(g: Guest, op: Op): Guest {
    match op
    case Write(p, v) => if p < |g.mem| then g.(mem := g.mem[p := v]) else g
    case Execute(c) => g.(cpu := c)
    case _ => g
  }

  /** What the guest does while it runs, and nothing else. */
  function LivedThrough(s: Sandbox, g: Guest, ops: seq<Op>): Guest
    requires WellSized(s)
    decreases |ops|
  {
    if ops == [] then g else LivedThrough(Apply(s, ops[0]), if s.running then Lived(g, ops[0]) else g, ops[1..])
  }

  /** The guest runs with this state, or is down and held with it. */
  predicate Stands(s: Sandbox, g: Guest)
    requires WellSized(s)
  {
    if s.running then s.mem == g.mem && s.cpu == g.cpu else Holds(s, g.mem, g.cpu)
  }

  /** No operation on a running sandbox touches the guest but its own writes and execution. */
  lemma GuestUndisturbed(s: Sandbox, op: Op)
    requires WellSized(s) && s.running && Apply(s, op).running
    ensures Stands(Apply(s, op), Lived(Guest(s.mem, s.cpu), op))
  {
  }

  lemma {:induction false} TransparentFrom(s: Sandbox, g: Guest, ops: seq<Op>)
    requires WellSized(s) && Covered(s) && Stands(s, g) && GuardedRun(s, ops)
    ensures Stands(Run(s, ops), LivedThrough(s, g, ops))
    decreases |ops|
  {
    if ops != [] {
      var op := ops[0];
      if s.running {
        GuardKeepsCovered(s, op);
        if Apply(s, op).running { GuestUndisturbed(s, op); } else { SuspendHolds(s, op.suspend); }
      } else if op.Resume? {
        ResumeGuardExactly(s, op.resume, g.mem, g.cpu);
      }
      TransparentFrom(Apply(s, op), if s.running then Lived(g, op) else g, ops[1..]);
    }
  }

  /** Snapshots are transparent: after any guarded run from a fresh directory the guest's memory and
      registers, in the guest or held on disk, are what its own writes and execution made them. */
  lemma RunIsTransparent(s: Sandbox, ops: seq<Op>)
    requires WellSized(s) && Fresh(s) && GuardedRun(s, ops)
    ensures Stands(Run(s, ops), LivedThrough(s, Guest(s.mem, s.cpu), ops))
  {
    TransparentFrom(s, Guest(s.mem, s.cpu), ops);
  }

  // ---------- damaged snapshots ----------

  /** A file the resume needs or the manifest lists is missing, or its content is not what was recorded. */
  predicate Damaged(f: Files) {
    || f.vmMem.None?
    || f.snapshot.None?
    || (f.manifest.Some? && Content(f.vmMem.value) != f.manifest.value.vmMem)
    || (f.manifest.Some? && f.snapshot.value != f.manifest.value.snapshot)
    || (f.manifest.Some? && f.manifest.value.base.Some?
        && (f.base.None? || Content(f.base.value) != f.manifest.value.base.value))
  }

  /** A damaged snapshot never enters a guest: whatever is tried and however its calls come out, the
      sandbox stays down and nothing on disk changes. */
  lemma {:induction false} DamagedStaysDown(s: Sandbox, ops: seq<Op>)
    requires WellSized(s) && !s.running && Damaged(s.files)
    ensures Run(s, ops) == s
    decreases |ops|
  {
    if ops != [] {
      DamagedStaysDown(s, ops[1..]);
    }
  }

  /** Page by page, what a resume of an undamaged snapshot puts into the guest. */
  predicate LoadedFrom(f: Files, mem: seq<int>) {
    && f.vmMem.Some? && |mem| == |f.vmMem.value|
    && (f.base.Some? ==> |f.base.value| == |mem|)
    && forall p :: 0 <= p < |mem| ==>
         mem[p] == match f.vmMem.value[p]
                   case Data(v) => v
                   case Hole => if f.marker || f.base.None? then 0 else ReadCell(f.base.value[p])
  }

  // ---------- checksums left to the filesystem ----------

  /** Every file the manifest lists is there; images of one sandbox have one size. */
  predicate Present(f: Files) {
    && f.vmMem.Some? && f.snapshot.Some? && f.manifest.Some?
    && (f.manifest.value.base.Some? ==> f.base.Some?)
  }

  predicate PresentVerifies(s: Sandbox) {
    !s.running ==> s.files.manifest.Some? && (Present(s.files) ==> Verified(s.files))
  }

  lemma OpKeepsPresentVerifies(s: Sandbox, op: Op)
    requires WellSized(s) && PresentVerifies(s)
    ensures PresentVerifies(Apply(s, op))
  {
  }

  /** Over every run, guarded or not, a sandbox that is down verifies if and only if the files its
      manifest lists are there: a manifest that records sizes alone, where a checksumming filesystem
      vouches for the images, decides every resume as one with hashes does. */
  lemma {:induction false} SizesSuffice(s: Sandbox, ops: seq<Op>)
    requires WellSized(s) && PresentVerifies(s)
    ensures var t := Run(s, ops); !t.running ==> (Present(t.files) <==> Verified(t.files))
    decreases |ops|
  {
    if ops != [] {
      OpKeepsPresentVerifies(s, ops[0]);
      SizesSuffice(Apply(s, ops[0]), ops[1..]);
    }
  }
}
