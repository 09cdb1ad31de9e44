/** Every uninterrupted pass of a handoff ends at its goal, and an interrupted one leaves a world
    the next pass completes if and only if no sandbox runs on the Spot host yet or all have moved. */
module ReentrantRuns {
  import opened Options
  import opened VolumeHandoff
  import opened Reentrancy

  predicate InPass(w: World, k: Plan) {
    InHandoff(w, k) || InCleanup(w, k) || AtEnd(w, k)
  }

  // ---------- a step of the pass ----------

  lemma WhichBranch(w: World, a: Action)
    requires w.pass.Some?
    ensures var p := w.pass.value;
      PassNext(w, a) == if Rank(p.pc) <= 9 then HandoffNext(w, p, a)
                        else if 15 <= Rank(p.pc) <= 20 then EmptyNext(w, p, a) else FinishNext(w, p, a)
  {
  }

  lemma SteadyIsPassNext(w: World, a: Action, k: Plan)
    requires w.pass.Some? && Steady(w, a, k)
    ensures Next(w, a) == PassNext(w, a)
  {
  }

  lemma VolumeKeepsFrameAt(w: World, a: Action, k: Plan)
    requires Frame(w, k) && 3 <= Rank(w.pass.value.pc) <= 9 && Steady(w, a, k) && HandoffNext(w, w.pass.value, a).Some?
    ensures Frame(HandoffNext(w, w.pass.value, a).value, k)
  {
    match w.pass.value.pc
    case Handoff => HandoffKeepsFrame(w, a, k);
    case UnmountSource => UnmountSourceKeepsFrame(w, a, k);
    case DetachSource => DetachSourceKeepsFrame(w, a, k);
    case UnmountReplaced => UnmountReplacedKeepsFrame(w, a, k);
    case DetachReplaced => DetachReplacedKeepsFrame(w, a, k);
    case AttachTarget => AttachTargetKeepsFrame(w, a, k);
    case MountTarget => MountTargetKeepsFrame(w, a, k);
  }

  lemma VolumeKeepsRecordAt(w: World, a: Action, k: Plan, sid: Sid)
    requires Frame(w, k) && 3 <= Rank(w.pass.value.pc) <= 9 && Steady(w, a, k) && HandoffNext(w, w.pass.value, a).Some?
    requires sid in w.records && sid in k.states && RecordOk(w, k, sid)
    ensures var v := HandoffNext(w, w.pass.value, a).value; v.pass.Some? && sid in v.records && RecordOk(v, k, sid)
  {
    match w.pass.value.pc
    case Handoff => HandoffKeepsRecord(w, a, k, sid);
    case UnmountSource => HandoffKeepsRecord(w, a, k, sid);
    case DetachSource => HandoffKeepsRecord(w, a, k, sid);
    case UnmountReplaced => UnmountReplacedKeepsRecord(w, a, k, sid);
    case DetachReplaced => UnmountReplacedKeepsRecord(w, a, k, sid);
    case AttachTarget => AttachTargetKeepsRecord(w, a, k, sid);
    case MountTarget => AttachTargetKeepsRecord(w, a, k, sid);
  }

  lemma ClaimTargetKeepsIn(w: World, a: Action, k: Plan)
    requires InHandoff(w, k) && (w.pass.value.pc.ClaimTarget? || w.pass.value.pc.Mark?) && Steady(w, a, k)
        && HandoffNext(w, w.pass.value, a).Some?
    ensures InHandoff(HandoffNext(w, w.pass.value, a).value, k)
  {
    ClaimTargetKeepsFrame(w, a, k);
    forall sid | sid in w.records ensures RecordOk(HandoffNext(w, w.pass.value, a).value, k, sid) {
      ClaimTargetKeepsRecord(w, a, k, sid);
    }
  }

  lemma CheckpointKeepsIn(w: World, a: Action, k: Plan)
    requires InHandoff(w, k) && w.pass.value.pc.Checkpoint? && Steady(w, a, k) && HandoffNext(w, w.pass.value, a).Some?
    ensures InHandoff(HandoffNext(w, w.pass.value, a).value, k)
  {
    CheckpointKeepsFrame(w, a, k);
    forall sid | sid in w.records ensures RecordOk(HandoffNext(w, w.pass.value, a).value, k, sid) {
      CheckpointKeepsRecord(w, a, k, sid);
    }
  }

  lemma VolumeKeepsIn(w: World, a: Action, k: Plan)
    requires InHandoff(w, k) && 3 <= Rank(w.pass.value.pc) <= 9 && Steady(w, a, k)
        && HandoffNext(w, w.pass.value, a).Some?
    ensures InHandoff(HandoffNext(w, w.pass.value, a).value, k)
  {
    VolumeKeepsFrameAt(w, a, k);
    forall sid | sid in w.records ensures RecordOk(HandoffNext(w, w.pass.value, a).value, k, sid) {
      VolumeKeepsRecordAt(w, a, k, sid);
    }
  }

  lemma MoveKeepsIn(w: World, a: Action, k: Plan)
    requires InHandoff(w, k) && w.pass.value.pc.Move? && Steady(w, a, k) && FinishNext(w, w.pass.value, a).Some?
    ensures InHandoff(FinishNext(w, w.pass.value, a).value, k)
  {
    MoveKeepsFrame(w, a, k);
    forall sid | sid in w.records ensures RecordOk(FinishNext(w, w.pass.value, a).value, k, sid) {
      MoveKeepsRecord(w, a, k, sid);
    }
  }

  lemma ResumeAllKeepsIn(w: World, a: Action, k: Plan)
    requires InHandoff(w, k) && w.pass.value.pc.ResumeAll? && Steady(w, a, k) && FinishNext(w, w.pass.value, a).Some?
    ensures InHandoff(FinishNext(w, w.pass.value, a).value, k)
  {
    ResumeAllKeepsFrame(w, a, k);
    forall sid | sid in w.records ensures RecordOk(FinishNext(w, w.pass.value, a).value, k, sid) {
      ResumeAllKeepsRecord(w, a, k, sid);
    }
  }

  lemma CheckHealthKeepsIn(w: World, a: Action, k: Plan)
    requires InHandoff(w, k) && (w.pass.value.pc.CheckHealth? || w.pass.value.pc.DeleteReplaced?) && Steady(w, a, k)
        && FinishNext(w, w.pass.value, a).Some?
    ensures InHandoff(FinishNext(w, w.pass.value, a).value, k)
  {
    CheckHealthKeepsFrame(w, a, k);
    forall sid | sid in w.records ensures RecordOk(FinishNext(w, w.pass.value, a).value, k, sid) {
      CheckHealthKeepsRecord(w, a, k, sid);
    }
  }

  /** From the resume loop on, records that have moved are all there are. */
  lemma LateRecords(w: World, k: Plan)
    requires InHandoff(w, k) && Rank(w.pass.value.pc) >= 12
    ensures AllMoved(w, k) && Mounts(w, k.Dst(), StateVolume) && k.Src() !in w.mounted
  {
    forall sid | sid in w.records ensures Moved(k, w.records[sid], k.states[sid]) && RunsIfMoved(w, k, sid) {
      assert RecordOk(w, k, sid);
    }
  }

  lemma ReleaseEnds(w: World, a: Action, k: Plan)
    requires InHandoff(w, k) && w.pass.value.pc.ReleaseClaim? && PassNext(w, a).Some?
    ensures AtEnd(PassNext(w, a).value, k)
  {
    LateRecords(w, k);
    WhichBranch(w, a);
  }

  lemma CleanupKeeps(w: World, a: Action, k: Plan)
    requires InCleanup(w, k) && Steady(w, a, k) && PassNext(w, a).Some?
    ensures InCleanup(PassNext(w, a).value, k) || AtEnd(PassNext(w, a).value, k)
  {
    WhichBranch(w, a);
  }

  lemma EndReachesGoal(w: World, a: Action, k: Plan)
    requires AtEnd(w, k) && PassNext(w, a).Some?
    ensures Goal(PassNext(w, a).value, k)
  {
    WhichBranch(w, a);
  }

  lemma HandoffStepKeeps(w: World, a: Action, k: Plan)
    requires InHandoff(w, k) && Steady(w, a, k) && PassNext(w, a).Some?
    ensures InPass(PassNext(w, a).value, k)
  {
    WhichBranch(w, a);
    if w.pass.value.pc.ClaimTarget? || w.pass.value.pc.Mark? {
      ClaimTargetKeepsIn(w, a, k);
    } else if w.pass.value.pc.Checkpoint? {
      CheckpointKeepsIn(w, a, k);
    } else if Rank(w.pass.value.pc) <= 9 {
      VolumeKeepsIn(w, a, k);
    } else if w.pass.value.pc.Move? {
      MoveKeepsIn(w, a, k);
    } else if w.pass.value.pc.ResumeAll? {
      ResumeAllKeepsIn(w, a, k);
    } else if w.pass.value.pc.ReleaseClaim? {
      ReleaseEnds(w, a, k);
    } else {
      CheckHealthKeepsIn(w, a, k);
    }
  }

  lemma StepKeeps(w: World, a: Action, k: Plan)
    requires InPass(w, k) && Steady(w, a, k) && Next(w, a).Some?
    ensures InPass(Next(w, a).value, k) || Goal(Next(w, a).value, k)
  {
    SteadyIsPassNext(w, a, k);
    if InHandoff(w, k) {
      HandoffStepKeeps(w, a, k);
    } else if InCleanup(w, k) {
      CleanupKeeps(w, a, k);
    } else {
      EndReachesGoal(w, a, k);
    }
  }

  // ---------- heartbeats ----------

  /** What a node's report does to the rows: its own is what it has mounted now. */
  lemma BeatSetsRow(w: World, h: Host)
    requires Next(w, Heartbeat(h)).Some?
    ensures var v := Next(w, Heartbeat(h)).value;
      && v == w.(rows := v.rows)
      && (forall g <- v.rows :: if g == h then Mounts(w, g, v.rows[g]) else g in w.rows && v.rows[g] == w.rows[g])
      && (forall g <- w.rows :: g in v.rows || (g == h && g !in w.mounted))
  {
  }

  /** Rows a handoff can do with. */
  predicate RowsFit(w: World, rows: map<Host, Volume>, k: Plan) {
    && (k.Src() in rows ==> rows[k.Src()] == StateVolume)
    && (Claimed(w, k) ==> Claimed(w.(rows := rows), k))
  }

  lemma BeatRowsFit(w: World, h: Host, k: Plan)
    requires Hosts(w, k) && Next(w, Heartbeat(h)).Some?
    ensures RowsFit(w, Next(w, Heartbeat(h)).value.rows, k)
  {
    BeatSetsRow(w, h);
  }

  lemma RowsKeepHandoff(w: World, rows: map<Host, Volume>, k: Plan)
    requires InHandoff(w, k) && RowsFit(w, rows, k)
    ensures InHandoff(w.(rows := rows), k)
  {
    forall sid | sid in w.records ensures RecordOk(w.(rows := rows), k, sid) {
      assert RecordOk(w, k, sid);
    }
  }

  lemma RowsKeepBefore(w: World, rows: map<Host, Volume>, k: Plan)
    requires Before(w, k) && RowsFit(w, rows, k)
    ensures Before(w.(rows := rows), k)
  {
    var v := w.(rows := rows);
    forall sid | sid in v.records ensures WaitingRecord(v, k, sid) {
      assert WaitingRecord(w, k, sid);
    }
    var sid :| sid in w.records && w.records[sid].target == Some(k.Src());
    assert sid in v.records;
  }

  lemma RowsKeepRest(w: World, rows: map<Host, Volume>, k: Plan)
    requires RowsFit(w, rows, k)
    ensures InCleanup(w, k) ==> InCleanup(w.(rows := rows), k)
    ensures AtEnd(w, k) ==> AtEnd(w.(rows := rows), k)
    ensures After(w, k) ==> After(w.(rows := rows), k)
  {
  }

  /** Reports of the nodes, whatever they have mounted by then, disturb neither a pass nor the
      world between two. */
  lemma BeatKeeps(w: World, h: Host, k: Plan)
    requires (InPass(w, k) || Before(w, k) || After(w, k)) && Next(w, Heartbeat(h)).Some?
    ensures var v := Next(w, Heartbeat(h)).value;
      v.pass == w.pass && (InPass(w, k) ==> InPass(v, k)) && (Before(w, k) ==> Before(v, k))
          && (After(w, k) ==> After(v, k))
  {
    BeatSetsRow(w, h);
    BeatRowsFit(w, h, k);
    var rows := Next(w, Heartbeat(h)).value.rows;
    RowsKeepRest(w, rows, k);
    if InHandoff(w, k) { RowsKeepHandoff(w, rows, k); }
    if Before(w, k) { RowsKeepBefore(w, rows, k); }
  }

  // ---------- starting and interrupting ----------

  lemma HostCanStart(w: World, k: Plan, sid: Sid)
    requires w.pass.None? && k.source in w.standbyClaims && TargetIs(w, sid, k.Src())
    requires forall s <- w.records :: w.records[s].target == Some(k.Src()) ==> !InFlight(w.records[s].state)
    ensures Start(w, k.source).Some? && Start(w, k.source).value.pass.Some?
    ensures Start(w, k.source).value == w.(pass := Start(w, k.source).value.pass)
    ensures var p := Start(w, k.source).value.pass.value;
            p.source == k.source && p.pc == ClaimTarget && p.originals != map[] && p.originals.Keys <= w.records.Keys
  {
    var mine := set s | s in w.records && w.records[s].target == Some(k.Src());
    assert sid in mine;
    assert sid in Start(w, k.source).value.pass.value.originals;
  }

  lemma NoneInFlight(w: World, k: Plan, sid: Sid)
    requires GoodPlan(k) && sid in w.records && sid in k.states && WaitingRecord(w, k, sid)
    ensures !InFlight(w.records[sid].state)
  {
  }

  lemma FreshFrame(w: World, k: Plan, p: Pass)
    requires Before(w, k) && p.source == k.source && p.pc == ClaimTarget
    requires p.originals != map[] && p.originals.Keys <= w.records.Keys
    ensures Frame(w.(pass := Some(p)), k)
  {
  }

  lemma BeforeStartsFrame(w: World, k: Plan)
    requires GoodPlan(k) && w.pass.None? && Before(w, k)
    ensures Start(w, k.source).Some? && Frame(Start(w, k.source).value, k)
    ensures Start(w, k.source).value.pass.value.pc == ClaimTarget
  {
    forall s | s in w.records ensures !InFlight(w.records[s].state) {
      NoneInFlight(w, k, s);
    }
    var sid :| sid in w.records && w.records[sid].target == Some(k.Src());
    HostCanStart(w, k, sid);
    FreshFrame(w, k, Start(w, k.source).value.pass.value);
  }

  lemma StartedRecord(w: World, k: Plan, sid: Sid)
    requires w.pass.None? && Start(w, k.source).Some? && Start(w, k.source).value.pass.value.pc == ClaimTarget
    requires sid in w.records && sid in k.states && WaitingRecord(w, k, sid)
    ensures RecordOk(Start(w, k.source).value, k, sid)
  {
  }

  lemma BeforeStarts(w: World, k: Plan)
    requires GoodPlan(k) && w.pass.None? && Before(w, k)
    ensures Start(w, k.source).Some? && InHandoff(Start(w, k.source).value, k)
  {
    BeforeStartsFrame(w, k);
    forall sid | sid in w.records ensures RecordOk(Start(w, k.source).value, k, sid) {
      assert WaitingRecord(w, k, sid);
      StartedRecord(w, k, sid);
    }
  }

  lemma AfterStarts(w: World, k: Plan)
    requires GoodPlan(k) && w.pass.None? && After(w, k)
    ensures Start(w, k.source).Some? && InCleanup(Start(w, k.source).value, k)
  {
    var mine := set sid | sid in w.records && w.records[sid].target == Some(k.Src());
    assert mine == {};
    var v := Start(w, k.source).value;
    assert v == w.(pass := v.pass) && v.pass.value.originals == map[];
  }

  /** The moments at which stopping does no harm: no sandbox runs on the Spot host, or all moved. */
  predicate Interruptible(w: World, k: Plan) {
    !Resident(w, k.Dst()) || AllMoved(w, k)
  }

  lemma SomeoneLeftBehind(w: World, k: Plan)
    requires InHandoff(w, k) && !AllMoved(w, k)
    ensures Rank(w.pass.value.pc) <= 11
    ensures exists sid <- w.records :: w.records[sid].target == Some(k.Src())
  {
    if Rank(w.pass.value.pc) >= 12 {
      LateRecords(w, k);
    }
    var sid :| sid in w.records && !(Moved(k, w.records[sid], k.states[sid]) && RunsIfMoved(w, k, sid));
    assert RecordOk(w, k, sid);
  }

  lemma NotMovedYet(w: World, k: Plan, sid: Sid)
    requires InHandoff(w, k) && Rank(w.pass.value.pc) <= 11 && !Resident(w, k.Dst()) && sid in w.records
    ensures WaitingRecord(w.(pass := None), k, sid)
  {
    assert RecordOk(w, k, sid);
    assert RunsIfMoved(w, k, sid) ==> !k.Runs(sid);
  }

  lemma BackToBefore(w: World, k: Plan)
    requires InHandoff(w, k) && !AllMoved(w, k) && !Resident(w, k.Dst())
    ensures Before(w.(pass := None), k)
  {
    SomeoneLeftBehind(w, k);
    var v := w.(pass := None);
    forall sid | sid in w.records ensures WaitingRecord(v, k, sid) {
      NotMovedYet(w, k, sid);
    }
    var sid :| sid in w.records && w.records[sid].target == Some(k.Src());
    assert sid in v.records && v.records[sid].target == Some(k.Src());
  }

  lemma AllMovedIsAfter(w: World, k: Plan)
    requires InHandoff(w, k) && AllMoved(w, k)
    ensures After(w.(pass := None), k)
  {
    var p := w.pass.value;
    var sid :| sid in p.originals;
    assert RecordOk(w, k, sid);
    if Rank(p.pc) <= 9 {
      assert false;
    }
  }
}
