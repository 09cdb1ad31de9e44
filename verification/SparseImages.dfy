/** Guest memory images as they sit on the state volume: files with holes, and the
    three ways the node agent combines them (merge loop, in-place Diff, dense read). */
module SparseImages {

  /** One page-sized cell of a file.  A hole reads back as zero. */
  datatype Cell = Hole | Data(content: int)

  type SparseFile = seq<Cell>

  function ReadCell(c: Cell): int {
    match c
    case Hole => 0
    case Data(v) => v
  }

  /** What a reader sees: holes as zero. */
  function Content(f: SparseFile): (bytes: seq<int>)
    ensures |bytes| == |f|
    ensures forall i :: 0 <= i < |f| ==> bytes[i] == ReadCell(f[i])
  {
    seq(|f|, i requires 0 <= i < |f| => ReadCell(f[i]))
  }

  function AllHoles(n: nat): (f: SparseFile)
    ensures |f| == n
    ensures forall i :: 0 <= i < n ==> f[i] == Hole
  {
    seq(n, i => Hole)
  }

  /** `top` laid over `bottom`: a data cell of `top` wins, all-zero ones included. */
  function Overlay(bottom: SparseFile, top: SparseFile): (f: SparseFile)
    requires |bottom| == |top|
    ensures |f| == |bottom|
    ensures forall i :: 0 <= i < |f| ==> f[i] == if top[i].Data? then top[i] else bottom[i]
  {
    seq(|bottom|, i requires 0 <= i < |bottom| => if top[i].Data? then top[i] else bottom[i])
  }

  /** The memory pages in `pages` written into `f` at their own offsets. */
  function WritePages(f: SparseFile, mem: seq<int>, pages: set<nat>): (g: SparseFile)
    requires |f| == |mem|
    ensures |g| == |f|
    ensures forall i :: 0 <= i < |g| ==> g[i] == if i in pages then Data(mem[i]) else f[i]
  {
    seq(|f|, i requires 0 <= i < |f| => if i in pages then Data(mem[i]) else f[i])
  }

  /** A dense copy of the whole memory. */
  function Dense(mem: seq<int>): (f: SparseFile)
    ensures |f| == |mem|
    ensures forall i :: 0 <= i < |f| ==> f[i] == Data(mem[i])
  {
    seq(|mem|, i requires 0 <= i < |mem| => Data(mem[i]))
  }

  /** The two storage modes agree: merging a Diff file written into `diff` over the base is
      writing the same dirty pages straight into a clone of what the merge would have given. */
  lemma MergeEqualsInPlace(base: SparseFile, diff: SparseFile, mem: seq<int>, dirty: set<nat>)
    requires |base| == |diff| == |mem|
    ensures Overlay(base, WritePages(diff, mem, dirty)) == WritePages(Overlay(base, diff), mem, dirty)
    ensures Overlay(base, WritePages(AllHoles(|mem|), mem, dirty)) == WritePages(base, mem, dirty)
  {
  }

  // ---------- lseek over extents ----------

  /** lseek(fd, off, SEEK_DATA): the first data cell at or after `off`; |f| stands for ENXIO. */
  function SeekData(f: SparseFile, off: nat): (pos: nat)
    requires off <= |f|
    ensures off <= pos <= |f|
    ensures forall i :: off <= i < pos ==> f[i].Hole?
    ensures pos < |f| ==> f[pos].Data?
    decreases |f| - off
  {
    if off == |f| || f[off].Data? then off else SeekData(f, off + 1)
  }

  /** lseek(fd, off, SEEK_HOLE): the first hole at or after `off`; end of file is a hole. */
  function SeekHole(f: SparseFile, off: nat): (pos: nat)
    requires off <= |f|
    ensures off <= pos <= |f|
    ensures forall i :: off <= i < pos ==> f[i].Data?
    ensures pos < |f| ==> f[pos].Hole?
    decreases |f| - off
  {
    if off == |f| || f[off].Hole? then off else SeekHole(f, off + 1)
  }

  /** The extent walk: clone the base, then copy every data extent of the diff in chunks. */
  method MergeDiffIntoBase(base: SparseFile, diff: SparseFile, chunk: nat) returns (merged: array<Cell>)
    requires |base| == |diff| && chunk > 0
    ensures fresh(merged)
    ensures merged[..] == Overlay(base, diff)
  {
    merged := new Cell[|base|](i requires 0 <= i < |base| => base[i]);
    var off := 0;
    while off < |diff|
      invariant 0 <= off <= |diff|
      invariant forall i :: 0 <= i < off ==> merged[i] == Overlay(base, diff)[i]
      invariant forall i :: off <= i < |base| ==> merged[i] == base[i]
      decreases |diff| - off
    {
      var start := SeekData(diff, off);
      if start == |diff| {
        break;
      }
      var end := SeekHole(diff, start);
      var at := start;
      while at < end
        invariant start <= at <= end
        invariant forall i :: 0 <= i < at ==> merged[i] == Overlay(base, diff)[i]
        invariant forall i :: at <= i < |base| ==> merged[i] == base[i]
      {
        var next := if end - at < chunk then end else at + chunk;
        forall i | at <= i < next {
          merged[i] := diff[i];
        }
        at := next;
      }
      off := end;
    }
  }
}
