/** The life of one sandbox's memory image on a node: base snapshot, periodic checkpoints,
    suspends and resumes, generation after generation, in both storage modes.  Firecracker
    enters through three contracts: a Full call writes every page and clears the dirty
    bitmap, a Diff call writes exactly the dirty pages (into the existing file if there is
    one) and clears it, a load sets memory and clears it.  A call that fails leaves the
    bitmap alone but may have written some pages first. */
module SnapshotGenerations {
  import opened Options
  import opened SparseImages

  /** What the integrity manifest recorded: contents, hashes being collision-free. */
  datatype Manifest = Manifest(vmMem: seq<int>, snapshot: int, base: Option<seq<int>>)

  /** The snapshot directory: vm.mem.base, vm.mem, vm.snapshot, the in-place marker, the manifest. */
  datatype Files = Files(
    base: Option<SparseFile>,
    vmMem: Option<SparseFile>,
    snapshot: Option<int>,
    marker: bool,
    manifest: Option<Manifest>)

  /** `inplace` is the configured storage mode, `pages` the guest memory size; `cpu` stands for
      the register and device state that goes to vm.snapshot. */
  datatype Sandbox = Sandbox(
    inplace: bool, pages: nat,
    running: bool, mem: seq<int>, cpu: int, dirty: set<nat>,
    files: Files)

  // ---------- outcomes of the external calls ----------

  /** A snapshot call that fails may have written `written`, and a Full call may have
      truncated its file before failing. */
  datatype Call = Done | Failed(written: set<nat>, truncated: bool)

  datatype CheckpointOutcome = CloneFailed | DiffFailed | LostAfterDiff | Promoted

  /** `first` is the Diff call, or the Full call when there is no base; `fallback` is the Full
      call made when a Diff fails; `baseCopied` is the copy that seeds a base. */
  datatype SuspendOutcome = SuspendOutcome(
    cloned: bool, first: Call, fallback: Call, baseCopied: bool, ending: Ending)

  /** The manifest is not written and read back, by failure or because the agent is lost before;
      the agent is lost after it and the VMM lives on; the VMM is stopped. */
  datatype Ending = ManifestFails | LostBeforeStop | Stops

  /** An agent lost after the load leaves a live VMM, which its restart adopts: with nothing
      promoted yet, or between the two file operations of the promotion. */
  datatype ResumeOutcome = LoadFailed | RegisterFailed | LostAfterLoad | LostInPromotion | Resumed

  datatype Op =
    | Write(page: nat, value: int)
    | Execute(cpu: int)
    | SnapshotBase(call: Call)
    | Checkpoint(checkpoint: CheckpointOutcome)
    | Suspend(suspend: SuspendOutcome)
    | Resume(resume: ResumeOutcome)

  // ---------- the steps ----------

  function FileOrHoles(f: Option<SparseFile>, n: nat): SparseFile {
    if f.Some? then f.value else AllHoles(n)
  }

  /** The file a failed call leaves behind. */
  function Leftover(f: Option<SparseFile>, mem: seq<int>, call: Call): Option<SparseFile>
    requires f.Some? ==> |f.value| == |mem|
    requires call.Failed?
  {
    if call.truncated then Some(WritePages(AllHoles(|mem|), mem, call.written))
    else if call.written == {} then f
    else Some(WritePages(FileOrHoles(f, |mem|), mem, call.written))
  }

  predicate WellSized(s: Sandbox) {
    && (s.running ==> |s.mem| == s.pages)
    && (!s.running ==> s.mem == [] && s.dirty == {})
    && (forall p <- s.dirty :: p < s.pages)
    && (s.files.base.Some? ==> |s.files.base.value| == s.pages)
    && (s.files.vmMem.Some? ==> |s.files.vmMem.value| == s.pages)
  }

  function WriteStep(s: Sandbox, page: nat, value: int): Sandbox {
    if s.running && page < |s.mem| then s.(mem := s.mem[page := value], dirty := s.dirty + {page}) else s
  }

  function ExecuteStep(s: Sandbox, cpu: int): Sandbox {
    if s.running then s.(cpu := cpu) else s
  }

  /** op_snapshot_base: skipped when a base exists, otherwise a Full call into vm.mem.base. */
  function SnapshotBaseStep(s: Sandbox, call: Call): Sandbox
    requires WellSized(s)
  {
    if s.files.base.Some? || !s.running then s
    else match call
      case Done => s.(dirty := {}, files := s.files.(base := Some(Dense(s.mem))))
      case Failed(_, _) => s.(files := s.files.(base := Leftover(None, s.mem, call)))
  }

  /** op_checkpoint: Diff into a clone of the base, which then replaces the base.  When the
      agent is lost between the two, the bitmap is already clear and the base still old. */
  function CheckpointStep(s: Sandbox, o: CheckpointOutcome): Sandbox
    requires WellSized(s)
  {
    if !s.running || s.files.base.None? then s
    else match o
      case CloneFailed => s
      case DiffFailed => s
      case LostAfterDiff => s.(dirty := {})
      case Promoted =>
        s.(dirty := {}, files := s.files.(base := Some(WritePages(s.files.base.value, s.mem, s.dirty))))
  }

  function ManifestOf(f: Files): Manifest
    requires f.vmMem.Some? && f.snapshot.Some?
  {
    Manifest(Content(f.vmMem.value), f.snapshot.value,
             if f.base.Some? then Some(Content(f.base.value)) else None)
  }

  /** Every file the manifest lists is there and hashes to what was recorded. */
  predicate Verified(f: Files) {
    && f.vmMem.Some? && f.snapshot.Some? && f.manifest.Some?
    && f.manifest.value.vmMem == Content(f.vmMem.value)
    && f.manifest.value.snapshot == f.snapshot.value
    && (f.manifest.value.base.Some? ==>
          f.base.Some? && f.manifest.value.base.value == Content(f.base.value))
  }

  /** The snapshot calls of op_suspend: the sandbox after them, and whether they succeeded. */
  function SnapshotCalls(s: Sandbox, o: SuspendOutcome): (r: (Sandbox, bool))
    requires WellSized(s) && s.running
    ensures WellSized(r.0) && r.0.running && r.0.pages == s.pages && r.0.inplace == s.inplace
    ensures r.1 ==> r.0.files.vmMem.Some? && r.0.files.snapshot.Some?
  {
    var f := s.files;
    if f.base.None? then
      match o.first
      case Done =>
        var image := Some(Dense(s.mem));
        if o.baseCopied
        then (s.(dirty := {}, files := f.(vmMem := image, snapshot := Some(s.cpu), base := image)), true)
        else (s.(dirty := {}, files := f.(vmMem := image, snapshot := Some(s.cpu))), false)
      case Failed(_, _) => (s.(files := f.(vmMem := Leftover(f.vmMem, s.mem, o.first))), false)
    else
      var staged := s.inplace && o.cloned;
      var target := if staged then f.base else f.vmMem;
      var g := f.(marker := staged, vmMem := target);
      match o.first
      case Done =>
        (s.(dirty := {}, files := g.(snapshot := Some(s.cpu),
            vmMem := Some(WritePages(FileOrHoles(target, s.pages), s.mem, s.dirty)))), true)
      case Failed(written, _) =>
        // A Diff call opens the existing file and only ever writes dirty pages.
        var partial := Leftover(target, s.mem, Failed(written * s.dirty, false));
        match o.fallback
        case Done =>
          (s.(dirty := {}, files := g.(snapshot := Some(s.cpu), vmMem := Some(Dense(s.mem)))), true)
        case Failed(_, _) =>
          (s.(files := g.(vmMem := Leftover(partial, s.mem, o.fallback))), false)
  }

  /** What follows the calls: the manifest is written and read back, the VMM stopped. */
  function Concluded(s: Sandbox, ending: Ending): Sandbox
    requires s.files.vmMem.Some? && s.files.snapshot.Some?
  {
    var files := s.files.(manifest := Some(ManifestOf(s.files)));
    match ending
    case ManifestFails => s
    case LostBeforeStop => s.(files := files)
    case Stops => s.(running := false, mem := [], cpu := 0, dirty := {}, files := files)
  }

  function SuspendStep(s: Sandbox, o: SuspendOutcome): (t: Sandbox)
    requires WellSized(s)
    ensures WellSized(t) && t.pages == s.pages && t.inplace == s.inplace
  {
    if !s.running then s
    else
      var (u, ok) := SnapshotCalls(s, o);
      if ok then Concluded(u, o.ending) else u
  }

  /** The memory image a resume loads: vm.mem itself when the marker says it is complete,
      otherwise vm.mem merged over the base, otherwise (no base) vm.mem itself. */
  function ResumeImage(f: Files): SparseFile
    requires f.vmMem.Some?
    requires f.base.Some? ==> |f.base.value| == |f.vmMem.value|
  {
    if f.marker || f.base.None? then f.vmMem.value else Overlay(f.base.value, f.vmMem.value)
  }

  /** The image just loaded becomes the next base, and vm.mem and the marker go. */
  function Promote(f: Files): Files
    requires f.vmMem.Some?
    requires f.base.Some? ==> |f.base.value| == |f.vmMem.value|
  {
    if f.marker || f.base.Some?
    then f.(base := Some(ResumeImage(f)), vmMem := None, marker := false)
    else f
  }

  /** The first of the promotion's two file operations: the marker outlives the rename, vm.mem is
      removed before the merged image is renamed. */
  function HalfPromoted(f: Files): Files
    requires f.vmMem.Some?
  {
    if f.marker then f.(base := f.vmMem, vmMem := None)
    else if f.base.Some? then f.(vmMem := None)
    else f
  }

  /** A directory without a manifest (an old snapshot) gets one before it is verified. */
  function WithManifest(f: Files): Files {
    if f.manifest.None? && f.vmMem.Some? && f.snapshot.Some?
    then f.(manifest := Some(ManifestOf(f))) else f
  }

  function Loaded(s: Sandbox, mem: seq<int>, cpu: int, files: Files): Sandbox {
    s.(running := true, mem := mem, cpu := cpu, dirty := {}, files := files)
  }

  function ResumeStep(s: Sandbox, o: ResumeOutcome): (t: Sandbox)
    requires WellSized(s)
    ensures WellSized(t) && t.pages == s.pages && t.inplace == s.inplace
  {
    if s.running then s
    else
      var f := WithManifest(s.files);
      if !Verified(f) then s.(files := f)
      else
        var image := Content(ResumeImage(f));
        match o
        case LoadFailed => s.(files := f)
        case RegisterFailed => s.(files := Promote(f))
        case LostAfterLoad => Loaded(s, image, f.snapshot.value, f)
        case LostInPromotion => Loaded(s, image, f.snapshot.value, HalfPromoted(f))
        case Resumed => Loaded(s, image, f.snapshot.value, Promote(f))
  }

  function Apply(s: Sandbox, op: Op): (t: Sandbox)
    requires WellSized(s)
    ensures WellSized(t) && t.pages == s.pages && t.inplace == s.inplace
  {
    match op
    case Write(p, v) => WriteStep(s, p, v)
    case Execute(c) => ExecuteStep(s, c)
    case SnapshotBase(call) => SnapshotBaseStep(s, call)
    case Checkpoint(o) => CheckpointStep(s, o)
    case Suspend(o) => SuspendStep(s, o)
    case Resume(o) => ResumeStep(s, o)
  }

  function Run(s: Sandbox, ops: seq<Op>): (t: Sandbox)
    requires WellSized(s)
    ensures WellSized(t) && t.pages == s.pages && t.inplace == s.inplace
    decreases |ops|
  {
    if ops == [] then s else Run(Apply(s, ops[0]), ops[1..])
  }
}
