/** Five runs, each from a fresh one-page sandbox, that end with a guest resumed into memory it
    did not have when it was suspended.  Each breaks the guard of SnapshotFidelity once. */
module SnapshotCorruptions {
  import opened Options
  import opened SparseImages
  import opened SnapshotGenerations
  import opened SnapshotFidelity

  const PLAIN := SuspendOutcome(true, Done, Done, true, Stops)
  const GIVES_UP := SuspendOutcome(true, Failed({0}, false), Failed({}, false), true, Stops)
  const LOSES_MANIFEST := SuspendOutcome(true, Done, Done, true, ManifestFails)

  function Start(inplace: bool): (s: Sandbox)
    ensures WellSized(s) && Fresh(s)
  {
    Sandbox(inplace, 1, true, [5], 0, {}, Files(None, None, None, false, None))
  }

  /** With page 0 holding `v` and dirty, over a base that holds 5. */
  function Dirtied(inplace: bool, v: int, vmMem: Option<SparseFile>): Sandbox {
    Sandbox(inplace, 1, true, [v], 0, {0}, Files(Some([Data(5)]), vmMem, None, false, None))
  }

  lemma RunCons(s: Sandbox, op: Op, rest: seq<Op>)
    requires WellSized(s)
    ensures Run(s, [op] + rest) == Run(Apply(s, op), rest)
  {
    assert ([op] + rest)[1..] == rest;
  }

  lemma BaseThenWrite(inplace: bool, v: int, rest: seq<Op>)
    ensures WellSized(Dirtied(inplace, v, None))
    ensures Run(Start(inplace), [SnapshotBase(Done)] + ([Write(0, v)] + rest)) == Run(Dirtied(inplace, v, None), rest)
  {
    var s := Start(inplace);
    RunCons(s, SnapshotBase(Done), [Write(0, v)] + rest);
    assert Dense([5]) == [Data(5)];
    RunCons(Apply(s, SnapshotBase(Done)), Write(0, v), rest);
    assert Apply(Apply(s, SnapshotBase(Done)), Write(0, v)) == Dirtied(inplace, v, None);
  }

  /** A suspend and its resume over a one-page directory whose next image is `image`. */
  lemma SuspendResumeGives(s: Sandbox, image: int)
    requires WellSized(s) && s.running && s.pages == 1 && s.dirty == {} && s.files.base.Some?
    requires ReadCell((if s.inplace then s.files.base.value else MergedImage(s))[0]) == image
    ensures Run(s, [Suspend(PLAIN)] + ([Resume(Resumed)] + [])).mem == [image]
  {
    RunCons(s, Suspend(PLAIN), [Resume(Resumed)] + []);
    var t := Apply(s, Suspend(PLAIN));
    RunCons(t, Resume(Resumed), []);
    assert Content(ResumeImage(t.files)) == [image];
  }

  /** The Diff of the abandoned suspend got page 0 out before it failed. */
  lemma GivesUpLeaves7()
    ensures WellSized(Dirtied(false, 7, None))
    ensures Apply(Dirtied(false, 7, None), Suspend(GIVES_UP)) == Dirtied(false, 7, Some([Data(7)]))
  {
    var a := Dirtied(false, 7, None);
    assert {0} * {0} == {0};
    assert WritePages(AllHoles(1), [7], {0}) == [Data(7)];
    assert Leftover(None, [7], Failed({0}, false)) == Some([Data(7)]);
    assert SnapshotCalls(a, GIVES_UP) == (Dirtied(false, 7, Some([Data(7)])), false);
  }

  lemma WritesOver7()
    ensures WellSized(Dirtied(false, 7, Some([Data(7)])))
    ensures Apply(Dirtied(false, 7, Some([Data(7)])), Write(0, 9)) == Dirtied(false, 9, Some([Data(7)]))
  {
    assert [7][0 := 9] == [9] && {0} + {0} == {0};
  }

  lemma CheckpointMoves9(d: Sandbox)
    requires d == Sandbox(false, 1, true, [9], 0, {}, Files(Some([Data(9)]), Some([Data(7)]), None, false, None))
    ensures WellSized(Dirtied(false, 9, Some([Data(7)])))
    ensures Apply(Dirtied(false, 9, Some([Data(7)])), Checkpoint(Promoted)) == d
  {
    assert WritePages([Data(5)], [9], {0}) == [Data(9)];
  }

  /** A suspend that gives up after its Diff wrote page 0, a later write to that page, a checkpoint
      that moves it into the base: the next resume merges the abandoned vm.mem over the base. */
  lemma CheckpointOverLeftover(ops: seq<Op>)
    requires ops == [SnapshotBase(Done), Write(0, 7), Suspend(GIVES_UP), Write(0, 9), Checkpoint(Promoted)]
    ensures Run(Start(false), ops).mem == [9]
    ensures Run(Start(false), ops + [Suspend(PLAIN), Resume(Resumed)]).mem == [7]
  {
    var a, b, c := Dirtied(false, 7, None), Dirtied(false, 7, Some([Data(7)])), Dirtied(false, 9, Some([Data(7)]));
    var d := Sandbox(false, 1, true, [9], 0, {}, Files(Some([Data(9)]), Some([Data(7)]), None, false, None));
    GivesUpLeaves7();
    WritesOver7();
    CheckpointMoves9(d);
    forall rest: seq<Op>
      ensures Run(Start(false), ops + rest) == Run(d, rest)
    {
      var tail := [Suspend(GIVES_UP)] + ([Write(0, 9)] + ([Checkpoint(Promoted)] + rest));
      assert ops + rest == [SnapshotBase(Done)] + ([Write(0, 7)] + tail);
      BaseThenWrite(false, 7, tail);
      RunCons(a, Suspend(GIVES_UP), [Write(0, 9)] + ([Checkpoint(Promoted)] + rest));
      RunCons(b, Write(0, 9), [Checkpoint(Promoted)] + rest);
      RunCons(c, Checkpoint(Promoted), rest);
    }
    assert ops + [] == ops;
    SuspendResumeGives(d, 7);
    assert [Suspend(PLAIN)] + ([Resume(Resumed)] + []) == [Suspend(PLAIN), Resume(Resumed)];
  }

  /** In-place mode: the Diff succeeds and clears the bitmap, the manifest cannot be written, the
      guest is resumed, and the next suspend clones the old base again. */
  lemma LateFailureInPlace(ops: seq<Op>)
    requires ops == [SnapshotBase(Done), Write(0, 7), Suspend(LOSES_MANIFEST)]
    ensures Run(Start(true), ops).mem == [7]
    ensures Run(Start(true), ops + [Suspend(PLAIN), Resume(Resumed)]).mem == [5]
  {
    var b := Sandbox(true, 1, true, [7], 0, {}, Files(Some([Data(5)]), Some([Data(7)]), Some(0), true, None));
    forall rest: seq<Op>
      ensures Run(Start(true), ops + rest) == Run(b, rest)
    {
      assert ops + rest == [SnapshotBase(Done)] + ([Write(0, 7)] + ([Suspend(LOSES_MANIFEST)] + rest));
      BaseThenWrite(true, 7, [Suspend(LOSES_MANIFEST)] + rest);
      var a := Dirtied(true, 7, None);
      RunCons(a, Suspend(LOSES_MANIFEST), rest);
      assert WritePages([Data(5)], [7], {0}) == [Data(7)];
      assert Apply(a, Suspend(LOSES_MANIFEST)) == b;
    }
    assert ops + [] == ops;
    SuspendResumeGives(b, 5);
    assert [Suspend(PLAIN)] + ([Resume(Resumed)] + []) == [Suspend(PLAIN), Resume(Resumed)];
  }

  /** A checkpoint that stops between its Diff and the promotion: the write is in no file and no
      longer in the bitmap. */
  lemma CheckpointLostAfterDiff(ops: seq<Op>)
    requires ops == [SnapshotBase(Done), Write(0, 7), Checkpoint(LostAfterDiff)]
    ensures Run(Start(false), ops).mem == [7]
    ensures Run(Start(false), ops + [Suspend(PLAIN), Resume(Resumed)]).mem == [5]
  {
    var b := Dirtied(false, 7, None).(dirty := {});
    forall rest: seq<Op>
      ensures Run(Start(false), ops + rest) == Run(b, rest)
    {
      assert ops + rest == [SnapshotBase(Done)] + ([Write(0, 7)] + ([Checkpoint(LostAfterDiff)] + rest));
      BaseThenWrite(false, 7, [Checkpoint(LostAfterDiff)] + rest);
      RunCons(Dirtied(false, 7, None), Checkpoint(LostAfterDiff), rest);
    }
    assert ops + [] == ops;
    SuspendResumeGives(b, 5);
    assert [Suspend(PLAIN)] + ([Resume(Resumed)] + []) == [Suspend(PLAIN), Resume(Resumed)];
  }

  // ---------- agents lost during a resume ----------

  /** The directory after a base of 5 and a suspend with page 0 holding 7. */
  function SuspendedWith7(inplace: bool): Sandbox {
    var files := Files(Some([Data(5)]), Some([Data(7)]), Some(0), inplace, Some(Manifest([7], 0, Some([5]))));
    Sandbox(inplace, 1, false, [], 0, {}, files)
  }

  lemma SuspendGives7(inplace: bool, rest: seq<Op>)
    ensures WellSized(SuspendedWith7(inplace)) && Verified(SuspendedWith7(inplace).files)
    ensures Run(Start(inplace), [SnapshotBase(Done), Write(0, 7), Suspend(PLAIN)] + rest)
        == Run(SuspendedWith7(inplace), rest)
  {
    var a := Dirtied(inplace, 7, None);
    var t := SuspendedWith7(inplace);
    assert [SnapshotBase(Done), Write(0, 7), Suspend(PLAIN)] + rest
        == [SnapshotBase(Done)] + ([Write(0, 7)] + ([Suspend(PLAIN)] + rest));
    BaseThenWrite(inplace, 7, [Suspend(PLAIN)] + rest);
    RunCons(a, Suspend(PLAIN), rest);
    assert WritePages([Data(5)], [7], {0}) == [Data(7)] && WritePages(AllHoles(1), [7], {0}) == [Data(7)];
    assert Content([Data(7)]) == [7] && Content([Data(5)]) == [5];
    assert Apply(a, Suspend(PLAIN)) == t;
  }

  /** From there a resume whose agent is lost on the way leaves the guest with its 7 over a base
      that still holds 5. */
  lemma LostResumeForgets(inplace: bool, o: ResumeOutcome)
    requires o == if inplace then LostAfterLoad else LostInPromotion
    ensures WellSized(SuspendedWith7(inplace))
    ensures Run(SuspendedWith7(inplace), [Resume(o)]).mem == [7]
    ensures Run(SuspendedWith7(inplace), [Resume(o), Suspend(PLAIN), Resume(Resumed)]).mem == [5]
  {
    SuspendGives7(inplace, []);
    var s := SuspendedWith7(inplace);
    var t := Apply(s, Resume(o));
    assert Content(ResumeImage(s.files)) == [7];
    assert [Resume(o)] == [Resume(o)] + [];
    RunCons(s, Resume(o), []);
    SuspendResumeGives(t, 5);
    RunCons(s, Resume(o), [Suspend(PLAIN)] + ([Resume(Resumed)] + []));
    assert [Resume(o)] + ([Suspend(PLAIN)] + ([Resume(Resumed)] + [])) == [Resume(o), Suspend(PLAIN), Resume(Resumed)];
  }

  /** In-place mode, the agent lost between the load and the promotion: its restart adopts the
      guest, and the next suspend clones the old base. */
  lemma LostAfterLoadInPlace(ops: seq<Op>)
    requires ops == [SnapshotBase(Done), Write(0, 7), Suspend(PLAIN)]
    ensures Run(Start(true), ops + [Resume(LostAfterLoad)]).mem == [7]
    ensures Run(Start(true), ops + [Resume(LostAfterLoad), Suspend(PLAIN), Resume(Resumed)]).mem == [5]
  {
    SuspendGives7(true, [Resume(LostAfterLoad)]);
    SuspendGives7(true, [Resume(LostAfterLoad), Suspend(PLAIN), Resume(Resumed)]);
    LostResumeForgets(true, LostAfterLoad);
  }

  /** Sparse mode, the agent lost after it removed vm.mem and before it renamed the merged image:
      the next suspend's Diff is merged over the old base. */
  lemma LostInPromotionSparse(ops: seq<Op>)
    requires ops == [SnapshotBase(Done), Write(0, 7), Suspend(PLAIN)]
    ensures Run(Start(false), ops + [Resume(LostInPromotion)]).mem == [7]
    ensures Run(Start(false), ops + [Resume(LostInPromotion), Suspend(PLAIN), Resume(Resumed)]).mem == [5]
  {
    SuspendGives7(false, [Resume(LostInPromotion)]);
    SuspendGives7(false, [Resume(LostInPromotion), Suspend(PLAIN), Resume(Resumed)]);
    LostResumeForgets(false, LostInPromotion);
  }
}
