/** Repatriation is re-entrant: interrupted anywhere before a sandbox runs on the Spot host, or
    after all of them do, the next pass picks up what it finds and ends where an uninterrupted
    one would have. */
module Reentrancy {
  import opened Options
  import opened VolumeHandoff

  /** The handoff to complete: from OnDemand(source) to Spot(target), each sandbox ending in the
      state it had before repatriation. */
  datatype Plan = Plan(source: nat, target: nat, states: map<Sid, RecordState>) {
    function Src(): Host { OnDemand(source) }
    function Dst(): Host { Spot(target) }
    function Replaced(): Volume { Fresh(target) }
    predicate Runs(sid: Sid) { sid in states && states[sid] == Running }
  }

  /** There are sandboxes, and none is in the middle of a recovery. */
  predicate GoodPlan(k: Plan) {
    k.states != map[] && forall sid <- k.states :: !InFlight(k.states[sid])
  }

  // ---------- records ----------

  predicate Untouched(k: Plan, r: Record, s: RecordState) {
    r.target == Some(k.Src()) && r.original.None? && r.state == s
  }

  predicate Marked(k: Plan, r: Record, s: RecordState) {
    r.target == Some(k.Src()) && r.original == Some(s) && r.state == Repatriating
  }

  predicate Moved(k: Plan, r: Record, s: RecordState) {
    r.target == Some(k.Dst()) && r.original == Some(s) && r.state == s
  }

  /** A running sandbox whose record has moved runs on the Spot host. */
  predicate RunsIfMoved(w: World, k: Plan, sid: Sid) {
    k.Runs(sid) ==> (k.Dst(), sid) in w.vms
  }

  predicate AllMoved(w: World, k: Plan) {
    w.records.Keys == k.states.Keys
    && forall sid <- w.records :: Moved(k, w.records[sid], k.states[sid]) && RunsIfMoved(w, k, sid)
  }

  // ---------- hosts and volumes ----------

  /** Where the two volumes and the VMs can be.  Once the source is unmounted every sandbox that
      was running has been checkpointed and its record says so. */
  predicate Hosts(w: World, k: Plan) {
    var src, dst := k.Src(), k.Dst();
    && src !in w.gone && dst !in w.gone && k.source in w.standbyClaims
    && StateVolume !in w.deleted
    && (src in w.mounted ==> w.mounted[src] == StateVolume && AttachedTo(w, StateVolume, src))
    && (dst in w.mounted ==> AttachedTo(w, w.mounted[dst], dst) && w.mounted[dst] in {StateVolume, k.Replaced()})
    && (StateVolume in w.attached ==> w.attached[StateVolume] in {src, dst})
    && (k.Replaced() in w.attached ==> w.attached[k.Replaced()] == dst)
    && (AttachedTo(w, StateVolume, dst) ==> k.Replaced() !in w.attached)
    && (k.Replaced() in w.deleted ==> k.Replaced() !in w.attached)
    && (src in w.rows ==> w.rows[src] == StateVolume)
    && (forall t <- w.spotClaims :: t == k.target && w.spotClaims[t] == k.Replaced())
    && (forall x <- w.vms :: (x.0 == src || x.0 == dst) && k.Runs(x.1))
    && w.vms !! w.parked
  }

  /** Each running sandbox not yet flagged is on the source, which still has the volume; flagged
      ones no longer run there. */
  predicate Checkpoints(w: World, k: Plan, sid: Sid) {
    && (sid in w.records && k.Runs(sid) && !w.records[sid].flagged ==>
          k.Src() in w.mounted && (k.Src(), sid) in w.vms + w.parked)
    && (sid in w.records && w.records[sid].flagged ==> (k.Src(), sid) !in w.vms)
  }

  predicate Claimed(w: World, k: Plan) {
    k.target in w.spotClaims
    || (k.Dst() in w.rows && w.rows[k.Dst()] == k.Replaced() && Mounts(w, k.Dst(), k.Replaced())
        && AttachedTo(w, StateVolume, k.Src()))
  }

  predicate WaitingRecord(w: World, k: Plan, sid: Sid)
    requires sid in w.records && sid in k.states
  {
    var r, s := w.records[sid], k.states[sid];
    && Checkpoints(w, k, sid)
    && (Untouched(k, r, s) || Marked(k, r, s) || (Moved(k, r, s) && !k.Runs(sid) && Mounts(w, k.Dst(), StateVolume)))
  }

  /** Between passes: nothing runs on the Spot host yet. */
  predicate Before(w: World, k: Plan) {
    && Hosts(w, k) && Claimed(w, k) && k.Replaced() !in w.deleted && !Resident(w, k.Dst())
    && w.records.Keys == k.states.Keys
    && (exists sid <- w.records :: w.records[sid].target == Some(k.Src()))
    && forall sid <- w.records :: WaitingRecord(w, k, sid)
  }

  /** Between passes: everything has moved, the clean-up may be missing. */
  predicate After(w: World, k: Plan) {
    && Hosts(w, k) && AllMoved(w, k) && Mounts(w, k.Dst(), StateVolume) && k.Src() !in w.mounted
    && (k.target !in w.spotClaims ==> k.Replaced() in w.deleted)
  }

  predicate Goal(w: World, k: Plan) {
    && w.pass.None? && AllMoved(w, k)
    && AttachedTo(w, StateVolume, k.Dst()) && Mounts(w, k.Dst(), StateVolume) && StateVolume !in w.deleted
    && k.Replaced() in w.deleted && k.target !in w.spotClaims && k.Src() in w.gone
  }

  // ---------- inside a pass ----------

  function Rank(pc: Pc): nat {
    match pc
    case ClaimTarget => 0
    case Mark(_) => 1
    case Checkpoint(_) => 2
    case Handoff => 3
    case UnmountSource => 4
    case DetachSource => 5
    case UnmountReplaced => 6
    case DetachReplaced => 7
    case AttachTarget => 8
    case MountTarget => 9
    case Move(_, _) => 10
    case ResumeAll(_) => 11
    case CheckHealth => 12
    case DeleteReplaced => 13
    case ReleaseClaim => 14
    case EmptyClaim => 15
    case EmptyDeleteReplaced(_) => 16
    case EmptyReleaseClaim(_) => 17
    case EmptyUnmount => 18
    case EmptyDetach(_) => 19
    case EmptyDelete(_) => 20
    case Terminate => 21
  }

  /** Where a record of the pass is, by the step the pass is at. */
  predicate RecordAt(w: World, k: Plan, p: Pass, sid: Sid)
    requires sid in w.records && sid in k.states
  {
    var r, s := w.records[sid], k.states[sid];
    match p.pc
    case ClaimTarget => Untouched(k, r, s) || Marked(k, r, s)
    case Mark(todo) => Marked(k, r, s) || (sid in todo && Untouched(k, r, s))
    case Move(todo, toResume) =>
      if sid in todo then Marked(k, r, s)
      else if sid in toResume then k.Runs(sid) && Marked(k, r, s)
      else !k.Runs(sid) && Moved(k, r, s)
    case ResumeAll(todo) =>
      if sid in todo then k.Runs(sid) && Marked(k, r, s) else Moved(k, r, s) && RunsIfMoved(w, k, sid)
    case _ => if Rank(p.pc) <= 9 then Marked(k, r, s) else Moved(k, r, s) && RunsIfMoved(w, k, sid)
  }

  /** Which records still have to be flagged, by the step the pass is at. */
  predicate FlagAt(w: World, k: Plan, p: Pass, sid: Sid)
    requires sid in w.records
  {
    var flagged := w.records[sid].flagged;
    && (Rank(p.pc) <= 1 ==> (flagged <==> sid !in p.unflagged))
    && (p.pc.Checkpoint? ==> (sid in p.pc.todo <==> k.Runs(sid) && !flagged))
    && (Rank(p.pc) >= 3 && k.Runs(sid) ==> flagged)
  }

  /** The volumes, by the step the pass is at. */
  predicate VolumesAt(w: World, k: Plan, pc: Pc) {
    && (pc.DetachSource? ==> AttachedTo(w, StateVolume, k.Src()) && k.Src() !in w.mounted)
    && (Rank(pc) >= 6 ==> !AttachedTo(w, StateVolume, k.Src()))
    && (pc.DetachReplaced? ==> AttachedTo(w, k.Replaced(), k.Dst()) && k.Dst() !in w.mounted)
    && (Rank(pc) >= 8 ==> k.Replaced() !in w.attached)
    && (pc.MountTarget? ==> AttachedTo(w, StateVolume, k.Dst()))
    && (Rank(pc) >= 10 ==> Mounts(w, k.Dst(), StateVolume))
  }

  /** The pass and the hosts, apart from the records. */
  predicate Frame(w: World, k: Plan) {
    && w.pass.Some? && Hosts(w, k)
    && var p := w.pass.value;
    && p.source == k.source && Rank(p.pc) <= 14 && p.originals != map[] && p.originals.Keys <= k.states.Keys
    && (p.pc.ClaimTarget? ==> Claimed(w, k))
    && (!p.pc.ClaimTarget? ==> p.target == k.target && p.replaced == k.Replaced() && k.target in w.spotClaims)
    && (Rank(p.pc) <= 13 ==> k.Replaced() !in w.deleted)
    && (Rank(p.pc) == 14 ==> k.Replaced() in w.deleted)
    && (Rank(p.pc) <= 10 ==> !Resident(w, k.Dst()))
    && VolumesAt(w, k, p.pc)
    && (p.pc.Mark? || p.pc.Checkpoint? || p.pc.Move? || p.pc.ResumeAll? ==> p.pc.todo <= p.originals.Keys)
    && (p.pc.Move? ==> p.pc.toResume <= p.originals.Keys && p.pc.todo !! p.pc.toResume)
  }

  predicate RecordOk(w: World, k: Plan, sid: Sid)
    requires w.pass.Some? && sid in w.records && sid in k.states
  {
    var p := w.pass.value;
    && Checkpoints(w, k, sid)
    && if sid in p.originals
       then p.originals[sid] == k.states[sid] && RecordAt(w, k, p, sid) && FlagAt(w, k, p, sid)
       else Moved(k, w.records[sid], k.states[sid]) && !k.Runs(sid) && Mounts(w, k.Dst(), StateVolume)
  }

  predicate InHandoff(w: World, k: Plan) {
    && Frame(w, k) && w.records.Keys == k.states.Keys
    && forall sid <- w.records :: RecordOk(w, k, sid)
  }

  predicate InCleanup(w: World, k: Plan) {
    && w.pass.Some? && Hosts(w, k) && AllMoved(w, k) && Mounts(w, k.Dst(), StateVolume) && k.Src() !in w.mounted
    && var p := w.pass.value;
    && p.source == k.source && p.originals == map[]
        && p.pc in {EmptyClaim, EmptyDeleteReplaced(k.target), EmptyReleaseClaim(k.target), EmptyUnmount}
    && (p.row.Some? ==> p.row.value == StateVolume)
    && (p.pc.EmptyDeleteReplaced? ==> p.replaced == k.Replaced())
    && (p.pc.EmptyReleaseClaim? || p.pc.EmptyUnmount? || k.target !in w.spotClaims ==> k.Replaced() in w.deleted)
    && (p.pc.EmptyUnmount? ==> k.target !in w.spotClaims)
  }

  predicate AtEnd(w: World, k: Plan) {
    && w.pass.Some? && w.pass.value.source == k.source && w.pass.value.pc.Terminate?
    && Hosts(w, k) && AllMoved(w, k) && Mounts(w, k.Dst(), StateVolume) && k.Src() !in w.mounted
    && k.Replaced() in w.deleted && k.target !in w.spotClaims
  }

  /** A step of the pass itself, its lookups of the session's claim finding the claim. */
  predicate Steady(w: World, a: Action, k: Plan) {
    match a
    case Go => true
    case OnRecord(_) => true
    case SuspendVm(_) => true
    case ResumeVm(sid) => (k.Dst(), sid) !in w.vms
    case UseClaim(t) => t == k.target
    case NewClaim(t) => t == k.target && t !in w.spotClaims
    case NoClaim => k.target !in w.spotClaims
    case _ => false
  }

  // ---------- every step keeps it ----------

  lemma UnmountKeepsHosts(w: World, h: Host, k: Plan)
    requires Hosts(w, k)
    ensures Hosts(Unmounted(w, h), k)
  {
  }

  lemma AttachKeepsHosts(w: World, k: Plan)
    requires Hosts(w, k) && StateVolume !in w.attached && k.Replaced() !in w.attached
    ensures Hosts(w.(attached := w.attached[StateVolume := k.Dst()]), k)
  {
  }

  /** Moving on to a later step is fine where that step asks for nothing more. */
  lemma PcKeepsFrame(w: World, k: Plan, pc: Pc)
    requires Hosts(w, k) && w.pass.Some?
    requires var p := w.pass.value;
      p.source == k.source && p.originals != map[] && p.originals.Keys <= k.states.Keys
      && p.target == k.target && p.replaced == k.Replaced() && k.target in w.spotClaims
    requires 5 <= Rank(pc) <= 9 && VolumesAt(w, k, pc) && k.Replaced() !in w.deleted && !Resident(w, k.Dst())
    ensures Frame(At(w, w.pass.value, pc), k)
  {
  }

  lemma ClaimTargetKeepsFrame(w: World, a: Action, k: Plan)
    requires Frame(w, k) && (w.pass.value.pc.ClaimTarget? || w.pass.value.pc.Mark?) && Steady(w, a, k)
        && HandoffNext(w, w.pass.value, a).Some?
    requires a.OnRecord? || a.SuspendVm? || a.ResumeVm? ==>
               a.sid in w.records && a.sid in k.states && RecordOk(w, k, a.sid)
    ensures Frame(HandoffNext(w, w.pass.value, a).value, k)
  {
  }

  lemma CheckpointKeepsFrame(w: World, a: Action, k: Plan)
    requires Frame(w, k) && w.pass.value.pc.Checkpoint? && Steady(w, a, k) && HandoffNext(w, w.pass.value, a).Some?
    requires a.OnRecord? || a.SuspendVm? || a.ResumeVm? ==>
               a.sid in w.records && a.sid in k.states && RecordOk(w, k, a.sid)
    ensures Frame(HandoffNext(w, w.pass.value, a).value, k)
  {
  }

  lemma HandoffKeepsFrame(w: World, a: Action, k: Plan)
    requires Frame(w, k) && w.pass.value.pc.Handoff? && Steady(w, a, k) && HandoffNext(w, w.pass.value, a).Some?
    ensures Frame(HandoffNext(w, w.pass.value, a).value, k)
  {
  }

  lemma UnmountSourceKeepsFrame(w: World, a: Action, k: Plan)
    requires Frame(w, k) && w.pass.value.pc.UnmountSource? && Steady(w, a, k) && HandoffNext(w, w.pass.value, a).Some?
    ensures Frame(HandoffNext(w, w.pass.value, a).value, k)
  {
    if AttachedTo(w, StateVolume, k.Src()) {
      UnmountKeepsHosts(w, k.Src(), k);
      PcKeepsFrame(Unmounted(w, k.Src()), k, DetachSource);
    } else {
      PcKeepsFrame(w, k, UnmountReplaced);
    }
  }

  lemma DetachSourceKeepsFrame(w: World, a: Action, k: Plan)
    requires Frame(w, k) && w.pass.value.pc.DetachSource? && Steady(w, a, k) && HandoffNext(w, w.pass.value, a).Some?
    ensures Frame(HandoffNext(w, w.pass.value, a).value, k)
  {
  }

  lemma UnmountReplacedKeepsFrame(w: World, a: Action, k: Plan)
    requires Frame(w, k) && w.pass.value.pc.UnmountReplaced? && Steady(w, a, k) && HandoffNext(w, w.pass.value, a).Some?
    ensures Frame(HandoffNext(w, w.pass.value, a).value, k)
  {
    if AttachedTo(w, k.Replaced(), k.Dst()) {
      UnmountKeepsHosts(w, k.Dst(), k);
      PcKeepsFrame(Unmounted(w, k.Dst()), k, DetachReplaced);
    } else {
      PcKeepsFrame(w, k, AttachTarget);
    }
  }

  lemma DetachReplacedKeepsFrame(w: World, a: Action, k: Plan)
    requires Frame(w, k) && w.pass.value.pc.DetachReplaced? && Steady(w, a, k) && HandoffNext(w, w.pass.value, a).Some?
    ensures Frame(HandoffNext(w, w.pass.value, a).value, k)
  {
  }

  lemma AttachTargetKeepsFrame(w: World, a: Action, k: Plan)
    requires Frame(w, k) && w.pass.value.pc.AttachTarget? && Steady(w, a, k) && HandoffNext(w, w.pass.value, a).Some?
    ensures Frame(HandoffNext(w, w.pass.value, a).value, k)
  {
    if AttachedTo(w, StateVolume, k.Dst()) {
      PcKeepsFrame(w, k, MountTarget);
    } else {
      AttachKeepsHosts(w, k);
      PcKeepsFrame(w.(attached := w.attached[StateVolume := k.Dst()]), k, MountTarget);
    }
  }

  lemma MountTargetKeepsFrame(w: World, a: Action, k: Plan)
    requires Frame(w, k) && w.pass.value.pc.MountTarget? && Steady(w, a, k) && HandoffNext(w, w.pass.value, a).Some?
    ensures Frame(HandoffNext(w, w.pass.value, a).value, k)
  {
  }

  lemma MoveKeepsFrame(w: World, a: Action, k: Plan)
    requires Frame(w, k) && w.pass.value.pc.Move? && Steady(w, a, k) && FinishNext(w, w.pass.value, a).Some?
    requires a.OnRecord? || a.SuspendVm? || a.ResumeVm? ==>
               a.sid in w.records && a.sid in k.states && RecordOk(w, k, a.sid)
    ensures Frame(FinishNext(w, w.pass.value, a).value, k)
  {
    var v := FinishNext(w, w.pass.value, a).value;
    assert v.vms == w.vms && v.parked == w.parked && v.attached == w.attached && v.mounted == w.mounted;
  }

  lemma ResumeAllKeepsFrame(w: World, a: Action, k: Plan)
    requires Frame(w, k) && w.pass.value.pc.ResumeAll? && Steady(w, a, k) && FinishNext(w, w.pass.value, a).Some?
    requires a.OnRecord? || a.SuspendVm? || a.ResumeVm? ==>
               a.sid in w.records && a.sid in k.states && RecordOk(w, k, a.sid)
    ensures Frame(FinishNext(w, w.pass.value, a).value, k)
  {
  }

  lemma CheckHealthKeepsFrame(w: World, a: Action, k: Plan)
    requires Frame(w, k) && (w.pass.value.pc.CheckHealth? || w.pass.value.pc.DeleteReplaced?) && Steady(w, a, k)
        && FinishNext(w, w.pass.value, a).Some?
    ensures Frame(FinishNext(w, w.pass.value, a).value, k)
  {
  }

  lemma ClaimTargetKeepsRecord(w: World, a: Action, k: Plan, sid: Sid)
    requires Frame(w, k) && (w.pass.value.pc.ClaimTarget? || w.pass.value.pc.Mark?) && Steady(w, a, k)
        && HandoffNext(w, w.pass.value, a).Some?
    requires sid in w.records && sid in k.states && RecordOk(w, k, sid)
    ensures var v := HandoffNext(w, w.pass.value, a).value; sid in v.records && RecordOk(v, k, sid)
  {
  }

  lemma CheckpointKeepsRecord(w: World, a: Action, k: Plan, sid: Sid)
    requires Frame(w, k) && w.pass.value.pc.Checkpoint? && Steady(w, a, k) && HandoffNext(w, w.pass.value, a).Some?
    requires sid in w.records && sid in k.states && RecordOk(w, k, sid)
    ensures var v := HandoffNext(w, w.pass.value, a).value; sid in v.records && RecordOk(v, k, sid)
  {
  }

  lemma HandoffKeepsRecord(w: World, a: Action, k: Plan, sid: Sid)
    requires Frame(w, k) && (w.pass.value.pc.Handoff? || w.pass.value.pc.UnmountSource?
        || w.pass.value.pc.DetachSource?) && Steady(w, a, k) && HandoffNext(w, w.pass.value, a).Some?
    requires sid in w.records && sid in k.states && RecordOk(w, k, sid)
    ensures var v := HandoffNext(w, w.pass.value, a).value; sid in v.records && RecordOk(v, k, sid)
  {
  }

  lemma UnmountReplacedKeepsRecord(w: World, a: Action, k: Plan, sid: Sid)
    requires Frame(w, k) && (w.pass.value.pc.UnmountReplaced? || w.pass.value.pc.DetachReplaced?) && Steady(w, a, k)
        && HandoffNext(w, w.pass.value, a).Some?
    requires sid in w.records && sid in k.states && RecordOk(w, k, sid)
    ensures var v := HandoffNext(w, w.pass.value, a).value; sid in v.records && RecordOk(v, k, sid)
  {
  }

  lemma AttachTargetKeepsRecord(w: World, a: Action, k: Plan, sid: Sid)
    requires Frame(w, k) && (w.pass.value.pc.AttachTarget? || w.pass.value.pc.MountTarget?) && Steady(w, a, k)
        && HandoffNext(w, w.pass.value, a).Some?
    requires sid in w.records && sid in k.states && RecordOk(w, k, sid)
    ensures var v := HandoffNext(w, w.pass.value, a).value; sid in v.records && RecordOk(v, k, sid)
  {
  }

  lemma MoveKeepsRecord(w: World, a: Action, k: Plan, sid: Sid)
    requires Frame(w, k) && w.pass.value.pc.Move? && Steady(w, a, k) && FinishNext(w, w.pass.value, a).Some?
    requires sid in w.records && sid in k.states && RecordOk(w, k, sid)
    ensures var v := FinishNext(w, w.pass.value, a).value; sid in v.records && RecordOk(v, k, sid)
  {
  }

  lemma ResumeAllKeepsRecord(w: World, a: Action, k: Plan, sid: Sid)
    requires Frame(w, k) && w.pass.value.pc.ResumeAll? && Steady(w, a, k) && FinishNext(w, w.pass.value, a).Some?
    requires sid in w.records && sid in k.states && RecordOk(w, k, sid)
    ensures var v := FinishNext(w, w.pass.value, a).value; sid in v.records && RecordOk(v, k, sid)
  {
  }

  lemma CheckHealthKeepsRecord(w: World, a: Action, k: Plan, sid: Sid)
    requires Frame(w, k) && (w.pass.value.pc.CheckHealth? || w.pass.value.pc.DeleteReplaced?) && Steady(w, a, k)
        && FinishNext(w, w.pass.value, a).Some?
    requires sid in w.records && sid in k.states && RecordOk(w, k, sid)
    ensures var v := FinishNext(w, w.pass.value, a).value; sid in v.records && RecordOk(v, k, sid)
  {
  }
}
