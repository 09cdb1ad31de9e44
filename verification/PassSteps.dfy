/** The step of VolumeHandoff that each read, write and call of a repatriation pass is. */
module PassSteps {
  import opened Options
  import opened VolumeHandoff
  import opened Reentrancy
  import opened ReentrantRuns
  import opened RepatriationGoal

  // ---------- which step a call is ----------

  predicate Own(a: Action) {
    a.UseClaim? || a.NewClaim? || a.NoClaim? || a.OnRecord? || a.SuspendVm? || a.ResumeVm? || a.Go?
  }

  lemma OwnStep(w: World, a: Action)
    requires w.pass.Some? && Own(a)
    ensures var p := w.pass.value;
      Next(w, a) == if Rank(p.pc) <= 9 then HandoffNext(w, p, a)
                    else if 15 <= Rank(p.pc) <= 20 then EmptyNext(w, p, a) else FinishNext(w, p, a)
  {
    assert EnvironmentNext(w, a).None? && RecoveryNext(w, a).None?;
    WhichBranch(w, a);
  }

  lemma EnvironmentLeavesPass(w: World, a: Action)
    requires EnvironmentNext(w, a).Some?
    ensures EnvironmentNext(w, a).value.pass == w.pass
  {
  }

  lemma PassTakesOwn(w: World, a: Action)
    requires PassNext(w, a).Some?
    ensures Own(a)
  {
  }

  lemma OthersLeavePass(w: World, a: Action)
    requires w.pass.Some? && !Own(a) && !a.Interrupt? && Next(w, a).Some?
    ensures Next(w, a).value.pass == w.pass
  {
    if EnvironmentNext(w, a).Some? { EnvironmentLeavesPass(w, a); }
    if PassNext(w, a).Some? { PassTakesOwn(w, a); }
  }

  /** The source goes on to be given up only if the Spot host mounts the state volume and reports at
      least as many sandboxes as were running. */
  lemma HealthGate(w: World, a: Action)
    requires w.pass.Some? && w.pass.value.pc == CheckHealth && Next(w, a).Some?
    requires Next(w, a).value.pass.Some? && Next(w, a).value.pass.value.pc != CheckHealth
    ensures var p := w.pass.value;
      && Spot(p.target) in w.mounted && w.mounted[Spot(p.target)] == StateVolume
      && |set x | x in w.vms + w.parked && x.0 == Spot(p.target) :: x.1|
         >= |set sid | sid in p.originals && p.originals[sid] == Running|
  {
    var p := w.pass.value;
    if Own(a) {
      OwnStep(w, a);
      assert Entries(w, Spot(p.target)) == set x | x in w.vms + w.parked && x.0 == Spot(p.target) :: x.1;
      assert RunningBefore(p) == set sid | sid in p.originals && p.originals[sid] == Running;
    } else {
      OthersLeavePass(w, a);
    }
  }

  /** The volumes are touched only while the claim stands and does not name the state volume as the one
      to replace. */
  lemma IdentityGate(w: World, a: Action)
    requires w.pass.Some? && w.pass.value.pc == Handoff && Next(w, a).Some?
    requires Next(w, a).value.pass.Some? && Next(w, a).value.pass.value.pc != Handoff
    ensures w.pass.value.replaced != StateVolume && w.pass.value.target in w.spotClaims
  {
    if Own(a) {
      OwnStep(w, a);
      assert HandoffNext(w, w.pass.value, a).Some?;
    } else {
      OthersLeavePass(w, a);
    }
  }

  /** The local variables a pass over OnDemand(n) starts with. */
  function FirstPass(w: World, n: nat): Pass {
    var originals :=
      map sid | sid in w.records && w.records[sid].target == Some(OnDemand(n)) :: OriginalOf(w.records[sid]);
    var unflagged :=
      set sid | sid in w.records && w.records[sid].target == Some(OnDemand(n)) && !w.records[sid].flagged;
    Pass(n, if OnDemand(n) in w.rows then Some(w.rows[OnDemand(n)]) else None, originals, unflagged, 0, StateVolume,
         if originals == map[] then EmptyClaim else ClaimTarget)
  }

  lemma Begins(w: World, n: nat)
    requires w.pass.None? && n in w.standbyClaims
    requires forall sid <- w.records :: w.records[sid].target == Some(OnDemand(n)) ==> !InFlight(w.records[sid].state)
    ensures Next(w, StartPass(n)) == Some(w.(pass := Some(FirstPass(w, n))))
  {
    var s := Start(w, n).value;
    var p, q := s.pass.value, FirstPass(w, n);
    var mine := set sid | sid in w.records && w.records[sid].target == Some(OnDemand(n));
    assert p.originals == q.originals && p.unflagged == q.unflagged;
    assert q.originals.Keys == mine;
    assert mine == {} <==> q.originals == map[];
  }

  lemma Claims(w: World, p: Pass, t: nat)
    requires w.pass == Some(p) && p.pc.ClaimTarget? && t in w.spotClaims
    ensures Next(w, UseClaim(t)) == Some(At(w, p.(target := t, replaced := w.spotClaims[t]), Mark(p.originals.Keys)))
  {
    OwnStep(w, UseClaim(t));
  }

  lemma ClaimsNew(w: World, p: Pass, t: nat)
    requires w.pass == Some(p) && p.pc.ClaimTarget? && Spot(t) in w.rows
    ensures var v := w.rows[Spot(t)];
      Next(w, NewClaim(t))
      == Some(At(w.(spotClaims := w.spotClaims[t := v]), p.(target := t, replaced := v), Mark(p.originals.Keys)))
  {
    OwnStep(w, NewClaim(t));
  }

  lemma Marks(w: World, p: Pass, sid: Sid)
    requires w.pass == Some(p) && p.pc.Mark? && sid in p.pc.todo && sid in w.records && sid in p.originals
    ensures Next(w, OnRecord(sid))
         == Some(At(Put(w, sid, w.records[sid].(state := Repatriating, original := Some(p.originals[sid]))),
                    p, Mark(p.pc.todo - {sid})))
  {
    OwnStep(w, OnRecord(sid));
  }

  function ToCheckpoint(p: Pass): set<Sid> {
    set sid | sid in p.unflagged && sid in p.originals && p.originals[sid] == Running
  }

  lemma MarksDone(w: World, p: Pass)
    requires w.pass == Some(p) && p.pc == Mark({})
    ensures Next(w, Go) == Some(At(w, p, Checkpoint(ToCheckpoint(p))))
  {
    OwnStep(w, Go);
  }

  lemma Suspends(w: World, p: Pass, sid: Sid)
    requires w.pass == Some(p) && p.pc.Checkpoint? && sid in p.pc.todo && (OnDemand(p.source), sid) in w.vms
    ensures var x := (OnDemand(p.source), sid);
      Next(w, SuspendVm(sid)) == Some(w.(vms := w.vms - {x}, parked := w.parked + {x}))
  {
    OwnStep(w, SuspendVm(sid));
  }

  lemma Flags(w: World, p: Pass, sid: Sid)
    requires w.pass == Some(p) && p.pc.Checkpoint? && sid in p.pc.todo && sid in w.records
    requires (OnDemand(p.source), sid) in w.parked
    ensures Next(w, OnRecord(sid))
         == Some(At(Put(w, sid, w.records[sid].(state := Repatriating, flagged := true)), p,
             Checkpoint(p.pc.todo - {sid})))
  {
    OwnStep(w, OnRecord(sid));
  }

  lemma FlagsDone(w: World, p: Pass)
    requires w.pass == Some(p) && p.pc == Checkpoint({})
    ensures Next(w, Go) == Some(At(w, p, Handoff))
  {
    OwnStep(w, Go);
  }

  lemma ChecksIdentity(w: World, p: Pass)
    requires w.pass == Some(p) && p.pc == Handoff && p.replaced != StateVolume && p.target in w.spotClaims
    ensures Next(w, Go) == Some(At(w, p, UnmountSource))
  {
    OwnStep(w, Go);
  }

  lemma UnmountsSource(w: World, p: Pass)
    requires w.pass == Some(p) && p.pc == UnmountSource
    ensures var src := OnDemand(p.source);
      && (!AttachedTo(w, StateVolume, src) ==> Next(w, Go) == Some(At(w, p, UnmountReplaced)))
      && (AttachedTo(w, StateVolume, src) && !UnmountRefused(w, src, StateVolume) ==>
            Next(w, Go) == Some(At(Unmounted(w, src), p, DetachSource)))
  {
    OwnStep(w, Go);
  }

  lemma DetachesSource(w: World, p: Pass)
    requires w.pass == Some(p) && p.pc == DetachSource
    requires StateVolume in w.attached ==> w.attached[StateVolume] == OnDemand(p.source)
    ensures Next(w, Go) == Some(At(w.(attached := w.attached - {StateVolume}), p, UnmountReplaced))
  {
    OwnStep(w, Go);
  }

  lemma UnmountsReplaced(w: World, p: Pass)
    requires w.pass == Some(p) && p.pc == UnmountReplaced
    ensures var dst := Spot(p.target);
      && (!AttachedTo(w, p.replaced, dst) ==> Next(w, Go) == Some(At(w, p, AttachTarget)))
      && (AttachedTo(w, p.replaced, dst) && !UnmountRefused(w, dst, p.replaced) ==>
            Next(w, Go) == Some(At(Unmounted(w, dst), p, DetachReplaced)))
  {
    OwnStep(w, Go);
  }

  lemma DetachesReplaced(w: World, p: Pass)
    requires w.pass == Some(p) && p.pc == DetachReplaced
    requires p.replaced in w.attached ==> w.attached[p.replaced] == Spot(p.target)
    ensures Next(w, Go) == Some(At(w.(attached := w.attached - {p.replaced}), p, AttachTarget))
  {
    OwnStep(w, Go);
  }

  lemma FindsAttached(w: World, p: Pass)
    requires w.pass == Some(p) && p.pc == AttachTarget && Spot(p.target) !in w.gone
    requires AttachedTo(w, StateVolume, Spot(p.target))
    ensures Next(w, Go) == Some(At(w, p, MountTarget))
  {
    OwnStep(w, Go);
  }

  lemma Attaches(w: World, p: Pass)
    requires w.pass == Some(p) && p.pc == AttachTarget && Spot(p.target) !in w.gone && Available(w, StateVolume)
    ensures Next(w, Go) == Some(At(w.(attached := w.attached[StateVolume := Spot(p.target)]), p, MountTarget))
  {
    OwnStep(w, Go);
  }

  lemma Mounting(w: World, p: Pass)
    requires w.pass == Some(p) && p.pc == MountTarget
    requires AttachedTo(w, StateVolume, Spot(p.target)) && !Resident(w, Spot(p.target))
    ensures Next(w, Go) == Some(At(w.(mounted := w.mounted[Spot(p.target) := StateVolume]), p,
        Move(p.originals.Keys, {})))
  {
    OwnStep(w, Go);
  }

  lemma Waits(w: World, p: Pass, sid: Sid)
    requires w.pass == Some(p) && p.pc.Move? && sid in p.pc.todo && sid in w.records
    requires w.records[sid].original.None? || w.records[sid].original.value == Running
    ensures Next(w, OnRecord(sid)) == Some(At(w, p, Move(p.pc.todo - {sid}, p.pc.toResume + {sid})))
  {
    OwnStep(w, OnRecord(sid));
  }

  lemma Moves(w: World, p: Pass, sid: Sid)
    requires w.pass == Some(p) && p.pc.Move? && sid in p.pc.todo && sid in w.records
    requires w.records[sid].original.Some? && w.records[sid].original.value != Running
    ensures var r := w.records[sid];
      Next(w, OnRecord(sid))
      == Some(At(Put(w, sid, r.(state := r.original.value, target := Some(Spot(p.target)))),
                 p, Move(p.pc.todo - {sid}, p.pc.toResume)))
  {
    OwnStep(w, OnRecord(sid));
  }

  lemma MovesDone(w: World, p: Pass)
    requires w.pass == Some(p) && p.pc.Move? && p.pc.todo == {} && (p.pc.toResume == {} || p.target in w.spotClaims)
    ensures Next(w, Go) == Some(At(w, p, ResumeAll(p.pc.toResume)))
  {
    OwnStep(w, Go);
  }

  lemma Resumes(w: World, p: Pass, sid: Sid)
    requires w.pass == Some(p) && p.pc.ResumeAll? && sid in p.pc.todo && Mounts(w, Spot(p.target), StateVolume)
    ensures var x := (Spot(p.target), sid);
      Next(w, ResumeVm(sid)) == Some(w.(vms := w.vms + {x}, parked := w.parked - {x}))
  {
    OwnStep(w, ResumeVm(sid));
  }

  lemma Lands(w: World, p: Pass, sid: Sid)
    requires w.pass == Some(p) && p.pc.ResumeAll? && sid in p.pc.todo && (Spot(p.target), sid) in w.vms
        && sid in w.records
    ensures Next(w, OnRecord(sid))
         == Some(At(Put(w, sid, w.records[sid].(state := Running, target := Some(Spot(p.target)))),
                    p, ResumeAll(p.pc.todo - {sid})))
  {
    OwnStep(w, OnRecord(sid));
  }

  lemma ResumesDone(w: World, p: Pass)
    requires w.pass == Some(p) && p.pc == ResumeAll({})
    ensures Next(w, Go) == Some(At(w, p, CheckHealth))
  {
    OwnStep(w, Go);
  }

  lemma ChecksHealth(w: World, p: Pass)
    requires w.pass == Some(p) && p.pc == CheckHealth && Mounts(w, Spot(p.target), StateVolume)
    requires |Entries(w, Spot(p.target))| >= |RunningBefore(p)|
    ensures Next(w, Go) == Some(At(w, p, DeleteReplaced))
  {
    OwnStep(w, Go);
  }

  lemma DeletesReplaced(w: World, p: Pass)
    requires w.pass == Some(p) && p.pc == DeleteReplaced && p.replaced !in w.attached
    ensures Next(w, Go) == Some(At(w.(deleted := w.deleted + {p.replaced}), p, ReleaseClaim))
  {
    OwnStep(w, Go);
  }

  lemma Releases(w: World, p: Pass)
    requires w.pass == Some(p) && p.pc == ReleaseClaim
    ensures Next(w, Go) == Some(At(w.(spotClaims := w.spotClaims - {p.target}), p, Terminate))
  {
    OwnStep(w, Go);
  }

  lemma Terminates(w: World, p: Pass)
    requires w.pass == Some(p) && p.pc == Terminate
    ensures Next(w, Go) == Some(Lose(w, OnDemand(p.source)).(pass := None))
  {
    OwnStep(w, Go);
  }

  lemma EmptyClaims(w: World, p: Pass, t: nat)
    requires w.pass == Some(p) && p.pc == EmptyClaim && t in w.spotClaims
    ensures Next(w, UseClaim(t)) == Some(At(w, p.(target := t, replaced := w.spotClaims[t]), EmptyDeleteReplaced(t)))
  {
    OwnStep(w, UseClaim(t));
  }

  lemma EmptyHasNoClaim(w: World, p: Pass)
    requires w.pass == Some(p) && p.pc == EmptyClaim
    ensures Next(w, NoClaim) == Some(At(w, p, EmptyUnmount))
  {
    OwnStep(w, NoClaim);
  }

  lemma EmptyDeletesReplaced(w: World, p: Pass)
    requires w.pass == Some(p) && p.pc.EmptyDeleteReplaced? && p.replaced !in w.attached
    ensures Next(w, Go) == Some(At(w.(deleted := w.deleted + {p.replaced}), p, EmptyReleaseClaim(p.pc.claim)))
  {
    OwnStep(w, Go);
  }

  lemma EmptyReleases(w: World, p: Pass)
    requires w.pass == Some(p) && p.pc.EmptyReleaseClaim?
    ensures Next(w, Go) == Some(At(w.(spotClaims := w.spotClaims - {p.pc.claim}), p, EmptyUnmount))
  {
    OwnStep(w, Go);
  }

  lemma EmptyUnmounts(w: World, p: Pass)
    requires w.pass == Some(p) && p.pc == EmptyUnmount && p.row.Some? && AttachedTo(w, p.row.value, OnDemand(p.source))
    requires !UnmountRefused(w, OnDemand(p.source), p.row.value)
    ensures Next(w, Go) == Some(At(Unmounted(w, OnDemand(p.source)), p, EmptyDetach(p.row.value)))
  {
    OwnStep(w, Go);
  }

  lemma EmptySkips(w: World, p: Pass)
    requires w.pass == Some(p) && p.pc == EmptyUnmount
    requires p.row.Some? ==> !AttachedTo(w, p.row.value, OnDemand(p.source))
    ensures Next(w, Go)
         == Some(At(w, p, if p.row.Some? && Available(w, p.row.value) then EmptyDelete(p.row.value) else Terminate))
  {
    OwnStep(w, Go);
  }

  lemma EmptyDetaches(w: World, p: Pass)
    requires w.pass == Some(p) && p.pc.EmptyDetach?
    requires p.pc.volume in w.attached ==> w.attached[p.pc.volume] == OnDemand(p.source)
    ensures Next(w, Go) == Some(At(w.(attached := w.attached - {p.pc.volume}), p, EmptyDelete(p.pc.volume)))
  {
    OwnStep(w, Go);
  }

  lemma EmptyDeletes(w: World, p: Pass)
    requires w.pass == Some(p) && p.pc.EmptyDelete? && p.pc.volume !in w.attached
    ensures Next(w, Go) == Some(At(w.(deleted := w.deleted + {p.pc.volume}), p, Terminate))
  {
    OwnStep(w, Go);
  }

  // ---------- what a handoff in hand allows ----------

  lemma PlanClaims(w: World, k: Plan)
    requires InPass(w, k) && (w.pass.value.pc.ClaimTarget? || w.pass.value.pc.EmptyClaim?)
    ensures forall t <- w.spotClaims :: t == k.target
    ensures w.pass.value.pc.ClaimTarget? && w.spotClaims == map[] ==> k.Dst() in w.rows
  {
  }

  lemma PlanDeletesReplaced(w: World, k: Plan)
    requires InPass(w, k) && w.pass.value.pc.EmptyDeleteReplaced?
    ensures w.pass.value.replaced !in w.attached
  {
  }

  lemma PlanKeepsVolume(w: World, k: Plan)
    requires InPass(w, k) && w.pass.value.pc.EmptyUnmount?
    ensures var p := w.pass.value;
      p.row.Some? ==> !AttachedTo(w, p.row.value, OnDemand(p.source)) && !Available(w, p.row.value)
  {
  }

  lemma PlanHandsOff(w: World, k: Plan)
    requires InPass(w, k) && w.pass.value.pc.Handoff?
    ensures w.pass.value.replaced != StateVolume && w.pass.value.target in w.spotClaims
  {
  }

  lemma PlanUnmountsSource(w: World, k: Plan)
    requires InPass(w, k) && w.pass.value.pc.UnmountSource?
    ensures !UnmountRefused(w, OnDemand(w.pass.value.source), StateVolume)
  {
    NothingRunsOnSource(w, k);
  }

  lemma PlanDetachesSource(w: World, k: Plan)
    requires InPass(w, k) && w.pass.value.pc.DetachSource?
    ensures AttachedTo(w, StateVolume, OnDemand(w.pass.value.source))
  {
  }

  lemma PlanUnmountsReplaced(w: World, k: Plan)
    requires InPass(w, k) && w.pass.value.pc.UnmountReplaced?
    ensures var p := w.pass.value;
      AttachedTo(w, p.replaced, Spot(p.target)) ==> !UnmountRefused(w, Spot(p.target), p.replaced)
  {
    assert RunsOn(w, k.Dst()) ==> Resident(w, k.Dst());
  }

  lemma PlanDetachesReplaced(w: World, k: Plan)
    requires InPass(w, k) && w.pass.value.pc.DetachReplaced?
    ensures AttachedTo(w, w.pass.value.replaced, Spot(w.pass.value.target))
  {
  }

  lemma PlanAttaches(w: World, k: Plan)
    requires InPass(w, k) && w.pass.value.pc.AttachTarget?
    ensures var dst := Spot(w.pass.value.target);
      dst !in w.gone && (AttachedTo(w, StateVolume, dst) || Available(w, StateVolume))
  {
  }

  lemma PlanMounts(w: World, k: Plan)
    requires InPass(w, k) && w.pass.value.pc.MountTarget?
    ensures var dst := Spot(w.pass.value.target); AttachedTo(w, StateVolume, dst) && !Resident(w, dst)
  {
  }

  lemma PlanIsHealthy(w: World, k: Plan)
    requires InPass(w, k) && w.pass.value.pc.CheckHealth?
    ensures var p := w.pass.value;
      Mounts(w, Spot(p.target), StateVolume) && |Entries(w, Spot(p.target))| >= |RunningBefore(p)|
  {
    HealthStep(w, k);
  }

  lemma PlanDeletes(w: World, k: Plan)
    requires InPass(w, k) && w.pass.value.pc.DeleteReplaced?
    ensures w.pass.value.replaced !in w.attached
  {
  }

  lemma PlanCheckpoints(w: World, k: Plan, sid: Sid)
    requires InPass(w, k) && w.pass.value.pc.Checkpoint? && sid in w.pass.value.pc.todo
    ensures (OnDemand(w.pass.value.source), sid) in w.vms + w.parked
  {
    assert sid in w.records && RecordOk(w, k, sid);
  }

  lemma PlanMoves(w: World, k: Plan)
    requires InPass(w, k) && (w.pass.value.pc.Move? || w.pass.value.pc.ResumeAll?)
    ensures var p := w.pass.value;
      p.target == k.target && Mounts(w, Spot(p.target), StateVolume) && p.target in w.spotClaims
          && (p.pc.Move? ==> !Resident(w, Spot(p.target)))
  {
  }
}
