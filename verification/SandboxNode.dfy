/** The node agent's snapshot operations as they run: one sandbox's VMM and snapshot directory,
    rewritten call by call.  Each operation is proved to take exactly the step SnapshotGenerations
    specifies for the outcomes its external calls have. */
module SandboxNode {
  import opened Options
  import opened SparseImages
  import opened SnapshotGenerations
  import opened SnapshotFidelity

  /** 8 MiB of 4 KiB pages: the read size of the merge loop. */
  const MERGE_CHUNK: nat := 2048

  class SandboxDir {
    const inplace: bool
    const pages: nat
    var running: bool
    var mem: seq<int>
    var cpu: int
    var dirty: set<nat>
    var base: Option<SparseFile>
    var vmMem: Option<SparseFile>
    var snapshot: Option<int>
    var marker: bool
    var manifest: Option<Manifest>

    function State(): Sandbox
      reads this
    {
      Sandbox(inplace, pages, running, mem, cpu, dirty, Files(base, vmMem, snapshot, marker, manifest))
    }

    predicate Valid()
      reads this
    {
      WellSized(State())
    }

    constructor (inplace: bool, mem: seq<int>, cpu: int, dirty: set<nat>)
      requires forall p <- dirty :: p < |mem|
      ensures Valid() && Fresh(State())
      ensures this.inplace == inplace && this.mem == mem && this.cpu == cpu && this.dirty == dirty
    {
      this.inplace, this.pages := inplace, |mem|;
      this.running, this.mem, this.cpu, this.dirty := true, mem, cpu, dirty;
      this.base, this.vmMem, this.snapshot, this.marker, this.manifest := None, None, None, false, None;
    }

    // ---------- Firecracker ----------

    method FullCall(file: Option<SparseFile>, call: Call) returns (written: Option<SparseFile>, ok: bool)
      requires Valid() && running && (file.Some? ==> |file.value| == pages)
      modifies this`dirty
      ensures ok == call.Done?
      ensures ok ==> written == Some(Dense(mem)) && dirty == {}
      ensures !ok ==> written == Leftover(file, mem, call) && dirty == old(dirty)
    {
      ok := call.Done?;
      if ok {
        written, dirty := Some(Dense(mem)), {};
      } else {
        written := Leftover(file, mem, call);
      }
    }

    method DiffCall(file: Option<SparseFile>, call: Call) returns (written: Option<SparseFile>, ok: bool)
      requires Valid() && running && (file.Some? ==> |file.value| == pages)
      modifies this`dirty
      ensures ok == call.Done?
      ensures ok ==> written == Some(WritePages(FileOrHoles(file, pages), mem, old(dirty))) && dirty == {}
      ensures !ok ==> written == Leftover(file, mem, Failed(call.written * dirty, false)) && dirty == old(dirty)
    {
      ok := call.Done?;
      if ok {
        written := Some(WritePages(FileOrHoles(file, pages), mem, dirty));
        dirty := {};
      } else {
        written := Leftover(file, mem, Failed(call.written * dirty, false));
      }
    }

    // ---------- operations ----------

    method OpSnapshotBase(call: Call) returns (ok: bool)
      requires Valid() && running
      modifies this
      ensures Valid() && State() == Apply(old(State()), SnapshotBase(call))
      ensures running && mem == old(mem) && cpu == old(cpu)
      ensures ok <==> old(base).Some? || call.Done?
      ensures old(base).None? && ok ==> base == Some(Dense(old(mem))) && dirty == {}
    {
      if base.Some? {
        return true;
      }
      base, ok := FullCall(None, call);
    }

    method OpCheckpoint(o: CheckpointOutcome) returns (ok: bool)
      requires Valid()
      modifies this
      ensures Valid() && State() == Apply(old(State()), Checkpoint(o))
      ensures running == old(running) && mem == old(mem) && cpu == old(cpu)
      ensures ok <==> running && old(base).Some? && o.Promoted?
      ensures ok ==> dirty == {} && base.Some? && |base.value| == |mem|
      ensures ok ==> forall p :: 0 <= p < |mem| ==>
                ReadCell(base.value[p]) == if p in old(dirty) then mem[p] else ReadCell(old(base).value[p])
    {
      if !running || base.None? || o == CloneFailed {
        return false;
      }
      var clone := base;
      var call := if o == DiffFailed then Failed({}, false) else Done;
      clone, ok := DiffCall(clone, call);
      if !ok || o == LostAfterDiff {
        return false;
      }
      base := clone;
    }

    /** First suspend in a directory: a Full call, its file copied to seed the base. */
    method FullSnapshot(o: SuspendOutcome) returns (ok: bool)
      requires Valid() && running && base.None?
      modifies this
      ensures (State(), ok) == SnapshotCalls(old(State()), o)
      ensures ok <==> o.first.Done? && o.baseCopied
      ensures o.first.Done? ==> vmMem == Some(Dense(mem)) && snapshot == Some(cpu) && dirty == {}
      ensures base == if ok then Some(Dense(mem)) else None
    {
      vmMem, ok := FullCall(vmMem, o.first);
      if ok {
        snapshot := Some(cpu);
        ok := o.baseCopied;
        if ok {
          base := vmMem;
        }
      }
    }

    /** Later suspends: a Diff into a clone of the base or into vm.mem, with Full as fallback. */
    method DiffSnapshot(o: SuspendOutcome) returns (ok: bool)
      requires Valid() && running && base.Some?
      modifies this
      ensures (State(), ok) == SnapshotCalls(old(State()), o)
      ensures ok <==> o.first.Done? || o.fallback.Done?
      ensures marker == (inplace && o.cloned) && base == old(base)
      ensures ok ==> snapshot == Some(cpu) && dirty == {} && vmMem.Some? && |vmMem.value| == |mem|
      ensures ok ==> forall p :: 0 <= p < |mem| ==>
                vmMem.value[p] == if o.first.Failed? || p in old(dirty) then Data(mem[p])
                                  else if marker then base.value[p]
                                  else if old(vmMem).Some? then old(vmMem).value[p] else Hole
    {
      marker := inplace && o.cloned;
      if marker {
        vmMem := base;
      }
      vmMem, ok := DiffCall(vmMem, o.first);
      if !ok {
        vmMem, ok := FullCall(vmMem, o.fallback);
      }
      if ok {
        snapshot := Some(cpu);
      }
    }

    method TakeSnapshot(o: SuspendOutcome) returns (ok: bool)
      requires Valid() && running
      modifies this
      ensures (State(), ok) == SnapshotCalls(old(State()), o)
    {
      if base.None? {
        ok := FullSnapshot(o);
      } else {
        ok := DiffSnapshot(o);
      }
    }

    /** The manifest is written and read back, then the VMM is stopped. */
    method Conclude(ending: Ending) returns (ok: bool)
      requires running && vmMem.Some? && snapshot.Some?
      modifies this
      ensures State() == Concluded(old(State()), ending)
      ensures ok == ending.Stops?
    {
      if ending.ManifestFails? {
        return false;
      }
      manifest := Some(ManifestOf(State().files));
      if ending.LostBeforeStop? {
        return false;
      }
      running, mem, cpu, dirty := false, [], 0, {};
      ok := true;
    }

    method OpSuspend(o: SuspendOutcome) returns (ok: bool)
      requires Valid() && running
      modifies this
      ensures Valid() && State() == Apply(old(State()), Suspend(o))
      ensures ok <==> o.ending.Stops?
                      && if old(base).None? then o.first.Done? && o.baseCopied else o.first.Done? || o.fallback.Done?
      ensures ok == Succeeds(old(State()), o) && running == !ok
      ensures !ok ==> mem == old(mem) && cpu == old(cpu)
      ensures ok && old(Covered(State())) ==> Holds(State(), old(mem), old(cpu))
    {
      ghost var before := State();
      ok := TakeSnapshot(o);
      if ok {
        ok := Conclude(o.ending);
      }
      assert State() == SuspendStep(before, o);
      if ok && Covered(before) {
        SuspendHolds(before, o);
      }
    }

    /** The loaded image becomes the base; `half` when the agent is lost between the file operations. */
    method PromoteImage(image: SparseFile, half: bool)
      requires Valid() && vmMem.Some? && image == ResumeImage(State().files)
      modifies this`base, this`vmMem, this`marker
      ensures State().files == if half then HalfPromoted(old(State()).files) else Promote(old(State()).files)
    {
      if marker {
        base, vmMem := Some(image), None;
        if !half {
          marker := false;
        }
      } else if base.Some? {
        vmMem := None;
        if !half {
          base := Some(image);
        }
      }
    }

    /** The image a resume loads, merged where the directory holds a sparse Diff. */
    method LoadImage() returns (image: SparseFile)
      requires Valid() && vmMem.Some?
      ensures image == ResumeImage(State().files)
    {
      image := vmMem.value;
      if !marker && base.Some? {
        var merged := MergeDiffIntoBase(base.value, vmMem.value, MERGE_CHUNK);
        image := merged[..];
      }
    }

    /** A directory without a manifest gets one; then every file it lists is checked. */
    method VerifySnapshot() returns (ok: bool)
      requires Valid()
      modifies this`manifest
      ensures State() == old(State()).(files := WithManifest(old(State()).files))
      ensures ok == Verified(State().files)
      ensures ok <==> !old(Damaged(State().files))
      ensures !ok ==> State() == old(State())
    {
      if manifest.None? && vmMem.Some? && snapshot.Some? {
        manifest := Some(ManifestOf(State().files));
      }
      ok := Verified(State().files);
    }

    method LoadSnapshot(o: ResumeOutcome) returns (ok: bool)
      requires Valid() && !running && Verified(State().files)
      modifies this
      ensures Valid() && State() == Apply(old(State()), Resume(o))
      ensures running == !Fails(o) && ok == (o == Resumed)
      ensures ok && (old(base).Some? || old(marker)) ==>
                base.Some? && Content(base.value) == mem && vmMem.None? && !marker
      ensures running ==> mem == Content(ResumeImage(old(State()).files)) && Some(cpu) == old(snapshot) && dirty == {}
    {
      var image := LoadImage();
      if o == LoadFailed {
        return false;
      }
      if !Fails(o) {
        running, mem, cpu, dirty := true, Content(image), snapshot.value, {};
      }
      if o != LostAfterLoad {
        PromoteImage(image, o == LostInPromotion);
      }
      ok := o == Resumed;
    }

    /** `ok` when the caller gets its answer; a lost agent leaves the guest running without one.  A
        damaged snapshot is refused, and an undamaged one is what enters the guest. */
    method OpResume(o: ResumeOutcome) returns (ok: bool)
      requires Valid() && !running
      modifies this
      ensures Valid() && State() == Apply(old(State()), Resume(o))
      ensures running <==> !old(Damaged(State().files)) && !Fails(o)
      ensures ok <==> running && o == Resumed
      ensures old(Damaged(State().files)) ==> State() == old(State())
      ensures running ==> LoadedFrom(old(State()).files, mem) && Some(cpu) == old(snapshot) && dirty == {}
      ensures ok && (old(base).Some? || old(marker)) ==>
                base.Some? && Content(base.value) == mem && vmMem.None? && !marker
      ensures forall m, c :: !Fails(o) && old(Holds(State(), m, c)) ==> running && mem == m && cpu == c
    {
      var verified := VerifySnapshot();
      if !verified {
        return false;
      }
      ok := LoadSnapshot(o);
      if running {
        ImageIsLoaded(old(State()).files, mem);
      }
    }
  }

  lemma ImageIsLoaded(f: Files, mem: seq<int>)
    requires f.vmMem.Some? && (f.base.Some? ==> |f.base.value| == |f.vmMem.value|) && mem == Content(ResumeImage(f))
    ensures LoadedFrom(f, mem)
  {
  }
}
