/** What every step of VolumeHandoff keeps: one live copy of each sandbox, and the state volume
    kept from deletion by the records the fence can see. */
module HandoffSafety {
  import opened Options
  import opened VolumeHandoff

  /** Only attached volumes are mounted, only on the host they are attached to. */
  predicate MountsAttached(w: World) {
    forall h <- w.mounted :: AttachedTo(w, w.mounted[h], h)
  }

  /** A VMM of the session runs only where the state volume is mounted. */
  predicate VmsOnVolume(w: World) {
    forall x <- w.vms :: Mounts(w, x.0, StateVolume)
  }

  predicate LostHostsEmpty(w: World) {
    forall v <- w.attached :: w.attached[v] !in w.gone
  }

  predicate DeletedDetached(w: World) {
    forall v <- w.deleted :: v !in w.attached
  }

  /** A record that left the recovery host did so for a Spot host that has the volume mounted,
      unless that host has since been lost. */
  predicate MovedOnVolume(w: World) {
    forall sid <- w.records ::
      var t := w.records[sid].target;
      t.Some? && t.value.Spot? && t.value !in w.gone ==> Mounts(w, t.value, StateVolume)
  }

  /** From the identity check on, the claim's volume is not the state volume. */
  predicate PastIdentityCheck(pc: Pc) {
    pc.UnmountSource? || pc.DetachSource? || pc.UnmountReplaced? || pc.DetachReplaced? || pc.AttachTarget?
    || pc.MountTarget? || pc.Move? || pc.ResumeAll? || pc.CheckHealth? || pc.DeleteReplaced? || pc.ReleaseClaim?
  }

  predicate VolumeOnTarget(pc: Pc) {
    pc.Move? || pc.ResumeAll? || pc.CheckHealth? || pc.DeleteReplaced? || pc.ReleaseClaim?
  }

  /** What the pass in progress relies on. */
  predicate PassSound(w: World, p: Pass) {
    var src, dst := OnDemand(p.source), Spot(p.target);
    && (forall sid <- w.records :: TargetIs(w, sid, src) ==> sid in p.originals)
    && (IsEmptyPc(p.pc) ==> p.originals == map[])
    && (p.pc.EmptyDetach? ==> src !in w.mounted)
    && (PastIdentityCheck(p.pc) ==> p.replaced != StateVolume)
    && (p.pc.DetachSource? ==> src !in w.mounted)
    && (p.pc.DetachReplaced? ==> !Mounts(w, dst, p.replaced) && (dst in w.gone || AttachedTo(w, p.replaced, dst)))
    && (VolumeOnTarget(p.pc) && dst !in w.gone ==> Mounts(w, dst, StateVolume))
  }

  predicate WorldSound(w: World) {
    MountsAttached(w) && VmsOnVolume(w) && LostHostsEmpty(w) && DeletedDetached(w) && MovedOnVolume(w)
  }

  predicate Inv(w: World) {
    && WorldSound(w)
    && (w.pass.Some? ==> PassSound(w, w.pass.value))
  }

  lemma InitialInv(w: World)
    requires Initial(w)
    ensures Inv(w)
  {
  }

  lemma NodesKeepInv(w: World, a: Action)
    requires Inv(w) && EnvironmentNext(w, a).Some? && (a.SpotJoins? || a.Heartbeat?)
    ensures Inv(EnvironmentNext(w, a).value)
  {
  }

  lemma LossKeepsInv(w: World, a: Action)
    requires Inv(w) && EnvironmentNext(w, a).Some? && a.HostLost?
    ensures Inv(EnvironmentNext(w, a).value)
  {
  }

  lemma CheckpointsKeepInv(w: World, a: Action)
    requires Inv(w) && EnvironmentNext(w, a).Some? && (a.CheckpointOrigin? || a.Destroy?)
    ensures Inv(EnvironmentNext(w, a).value)
  {
  }

  lemma UsersKeepInv(w: World, a: Action)
    requires Inv(w) && EnvironmentNext(w, a).Some? && (a.UserSuspend? || a.UserResume?)
    ensures Inv(EnvironmentNext(w, a).value)
  {
  }

  lemma RecoveryKeepsInv(w: World, a: Action)
    requires Inv(w) && RecoveryNext(w, a).Some?
    ensures Inv(RecoveryNext(w, a).value)
  {
  }

  lemma StartKeepsInv(w: World, n: nat)
    requires Inv(w) && Start(w, n).Some?
    ensures Inv(Start(w, n).value)
  {
  }

  // ---------- the effects a pass has on the world ----------

  /** Pass bookkeeping, claims, and record fields other than the target do not matter. */
  lemma SameHosts(w: World, v: World)
    requires WorldSound(w)
    requires v.attached == w.attached && v.mounted == w.mounted && v.vms <= w.vms
    requires v.gone == w.gone && v.deleted == w.deleted
    requires forall sid <- v.records :: sid in w.records && v.records[sid].target == w.records[sid].target
    ensures WorldSound(v)
  {
  }

  lemma PassAside(w: World, pass: Option<Pass>)
    requires WorldSound(w)
    ensures WorldSound(w.(pass := pass))
  {
  }

  lemma UnmountKeepsSound(w: World, h: Host)
    requires WorldSound(w) && !RunsOn(w, h)
    requires h.Spot? ==> h in w.gone || !Mounts(w, h, StateVolume)
    ensures WorldSound(Unmounted(w, h)) && h !in Unmounted(w, h).mounted
  {
  }

  lemma DetachKeepsSound(w: World, v: Volume, h: Host)
    requires WorldSound(w) && (v in w.attached ==> w.attached[v] == h) && !Mounts(w, h, v)
    ensures WorldSound(w.(attached := w.attached - {v}))
  {
  }

  lemma AttachKeepsSound(w: World, v: Volume, h: Host)
    requires WorldSound(w) && Available(w, v) && h !in w.gone
    ensures WorldSound(w.(attached := w.attached[v := h]))
  {
  }

  lemma MountKeepsSound(w: World, h: Host)
    requires WorldSound(w) && AttachedTo(w, StateVolume, h)
    ensures WorldSound(w.(mounted := w.mounted[h := StateVolume]))
  {
  }

  lemma ResumeKeepsSound(w: World, h: Host, sid: Sid)
    requires WorldSound(w) && Mounts(w, h, StateVolume)
    ensures WorldSound(w.(vms := w.vms + {(h, sid)}))
  {
  }

  lemma RetargetKeepsSound(w: World, sid: Sid, r: Record, h: Host)
    requires WorldSound(w) && r.target == Some(h) && (Mounts(w, h, StateVolume) || h in w.gone)
    ensures WorldSound(Put(w, sid, r))
  {
  }

  lemma DeleteKeepsSound(w: World, v: Volume)
    requires WorldSound(w) && v !in w.attached
    ensures WorldSound(w.(deleted := w.deleted + {v}))
  {
  }

  lemma LoseKeepsSound(w: World, h: Host)
    requires WorldSound(w)
    ensures WorldSound(Lose(w, h))
  {
  }

  // ---------- the pass, step by step ----------

  lemma EmptyClaimKeepsInv(w: World, a: Action)
    requires Inv(w) && w.pass.Some? && w.pass.value.pc.EmptyClaim? && EmptyNext(w, w.pass.value, a).Some?
    ensures Inv(EmptyNext(w, w.pass.value, a).value)
  {
  }

  lemma EmptyDeleteReplacedKeepsInv(w: World, a: Action)
    requires Inv(w) && w.pass.Some? && w.pass.value.pc.EmptyDeleteReplaced? && EmptyNext(w, w.pass.value, a).Some?
    ensures Inv(EmptyNext(w, w.pass.value, a).value)
  {
    var p := w.pass.value;
    DeleteKeepsSound(w, p.replaced);
    PassAside(w.(deleted := w.deleted + {p.replaced}), EmptyNext(w, p, a).value.pass);
  }

  lemma EmptyReleaseClaimKeepsInv(w: World, a: Action)
    requires Inv(w) && w.pass.Some? && w.pass.value.pc.EmptyReleaseClaim? && EmptyNext(w, w.pass.value, a).Some?
    ensures Inv(EmptyNext(w, w.pass.value, a).value)
  {
  }

  lemma EmptyUnmountKeepsInv(w: World, a: Action)
    requires Inv(w) && w.pass.Some? && w.pass.value.pc.EmptyUnmount? && EmptyNext(w, w.pass.value, a).Some?
    ensures Inv(EmptyNext(w, w.pass.value, a).value)
  {
    var p := w.pass.value;
    if p.row.Some? && AttachedTo(w, p.row.value, OnDemand(p.source)) {
      EmptyUnmountsVolume(w, a);
    } else {
      var v := EmptyNext(w, p, a).value;
      assert v == w.(pass := v.pass) && (v.pass.value.pc == Terminate || v.pass.value.pc == EmptyDelete(p.row.value));
      PassAside(w, v.pass);
    }
  }

  lemma EmptyUnmountsVolume(w: World, a: Action)
    requires Inv(w) && w.pass.Some? && w.pass.value.pc.EmptyUnmount? && EmptyNext(w, w.pass.value, a).Some?
    requires var p := w.pass.value; p.row.Some? && AttachedTo(w, p.row.value, OnDemand(p.source))
    ensures Inv(EmptyNext(w, w.pass.value, a).value)
  {
    var p := w.pass.value;
    UnmountKeepsSound(w, OnDemand(p.source));
    SameHosts(Unmounted(w, OnDemand(p.source)), EmptyNext(w, p, a).value);
  }

  lemma EmptyDetachKeepsInv(w: World, a: Action)
    requires Inv(w) && w.pass.Some? && w.pass.value.pc.EmptyDetach? && EmptyNext(w, w.pass.value, a).Some?
    ensures Inv(EmptyNext(w, w.pass.value, a).value)
  {
    var p := w.pass.value;
    DetachKeepsSound(w, p.pc.volume, OnDemand(p.source));
    PassAside(w.(attached := w.attached - {p.pc.volume}), EmptyNext(w, p, a).value.pass);
  }

  lemma EmptyDeleteKeepsInv(w: World, a: Action)
    requires Inv(w) && w.pass.Some? && w.pass.value.pc.EmptyDelete? && EmptyNext(w, w.pass.value, a).Some?
    ensures Inv(EmptyNext(w, w.pass.value, a).value)
  {
    var p := w.pass.value;
    DeleteKeepsSound(w, p.pc.volume);
    PassAside(w.(deleted := w.deleted + {p.pc.volume}), EmptyNext(w, p, a).value.pass);
  }

  lemma ClaimTargetKeepsInv(w: World, a: Action)
    requires Inv(w) && w.pass.Some? && w.pass.value.pc.ClaimTarget? && HandoffNext(w, w.pass.value, a).Some?
    ensures Inv(HandoffNext(w, w.pass.value, a).value)
  {
  }

  lemma MarkKeepsInv(w: World, a: Action)
    requires Inv(w) && w.pass.Some? && w.pass.value.pc.Mark? && HandoffNext(w, w.pass.value, a).Some?
    ensures Inv(HandoffNext(w, w.pass.value, a).value)
  {
    SameHosts(w, HandoffNext(w, w.pass.value, a).value);
  }

  lemma CheckpointKeepsInv(w: World, a: Action)
    requires Inv(w) && w.pass.Some? && w.pass.value.pc.Checkpoint? && HandoffNext(w, w.pass.value, a).Some?
    ensures Inv(HandoffNext(w, w.pass.value, a).value)
  {
    SameHosts(w, HandoffNext(w, w.pass.value, a).value);
  }

  lemma HandoffKeepsInv(w: World, a: Action)
    requires Inv(w) && w.pass.Some? && w.pass.value.pc.Handoff? && HandoffNext(w, w.pass.value, a).Some?
    ensures Inv(HandoffNext(w, w.pass.value, a).value)
  {
  }

  lemma UnmountSourceKeepsInv(w: World, a: Action)
    requires Inv(w) && w.pass.Some? && w.pass.value.pc.UnmountSource? && HandoffNext(w, w.pass.value, a).Some?
    ensures Inv(HandoffNext(w, w.pass.value, a).value)
  {
    var p := w.pass.value;
    var v := HandoffNext(w, p, a).value;
    if AttachedTo(w, StateVolume, OnDemand(p.source)) {
      UnmountKeepsSound(w, OnDemand(p.source));
      SameHosts(Unmounted(w, OnDemand(p.source)), v);
    } else {
      SameHosts(w, v);
    }
  }

  lemma DetachSourceKeepsInv(w: World, a: Action)
    requires Inv(w) && w.pass.Some? && w.pass.value.pc.DetachSource? && HandoffNext(w, w.pass.value, a).Some?
    ensures Inv(HandoffNext(w, w.pass.value, a).value)
  {
  }

  lemma UnmountReplacedKeepsInv(w: World, a: Action)
    requires Inv(w) && w.pass.Some? && w.pass.value.pc.UnmountReplaced? && HandoffNext(w, w.pass.value, a).Some?
    ensures Inv(HandoffNext(w, w.pass.value, a).value)
  {
    var p := w.pass.value;
    if AttachedTo(w, p.replaced, Spot(p.target)) {
      UnmountsReplaced(w, a);
    } else {
      PassAside(w, HandoffNext(w, p, a).value.pass);
    }
  }

  lemma UnmountsReplaced(w: World, a: Action)
    requires Inv(w) && w.pass.Some? && w.pass.value.pc.UnmountReplaced? && HandoffNext(w, w.pass.value, a).Some?
    requires var p := w.pass.value; AttachedTo(w, p.replaced, Spot(p.target))
    ensures Inv(HandoffNext(w, w.pass.value, a).value)
  {
    var p := w.pass.value;
    UnmountKeepsSound(w, Spot(p.target));
    SameHosts(Unmounted(w, Spot(p.target)), HandoffNext(w, p, a).value);
  }

  lemma DetachReplacedKeepsInv(w: World, a: Action)
    requires Inv(w) && w.pass.Some? && w.pass.value.pc.DetachReplaced? && HandoffNext(w, w.pass.value, a).Some?
    ensures Inv(HandoffNext(w, w.pass.value, a).value)
  {
  }

  lemma AttachTargetKeepsInv(w: World, a: Action)
    requires Inv(w) && w.pass.Some? && w.pass.value.pc.AttachTarget? && HandoffNext(w, w.pass.value, a).Some?
    ensures Inv(HandoffNext(w, w.pass.value, a).value)
  {
    var p := w.pass.value;
    var v := HandoffNext(w, p, a).value;
    if AttachedTo(w, StateVolume, Spot(p.target)) {
      SameHosts(w, v);
    } else {
      AttachKeepsSound(w, StateVolume, Spot(p.target));
      SameHosts(w.(attached := w.attached[StateVolume := Spot(p.target)]), v);
    }
  }

  lemma MountTargetKeepsInv(w: World, a: Action)
    requires Inv(w) && w.pass.Some? && w.pass.value.pc.MountTarget? && HandoffNext(w, w.pass.value, a).Some?
    ensures Inv(HandoffNext(w, w.pass.value, a).value)
  {
    var p := w.pass.value;
    MountKeepsSound(w, Spot(p.target));
    PassAside(w.(mounted := w.mounted[Spot(p.target) := StateVolume]), HandoffNext(w, p, a).value.pass);
  }

  lemma MoveKeepsInv(w: World, a: Action)
    requires Inv(w) && w.pass.Some? && w.pass.value.pc.Move? && FinishNext(w, w.pass.value, a).Some?
    ensures Inv(FinishNext(w, w.pass.value, a).value)
  {
    var v := FinishNext(w, w.pass.value, a).value;
    if v.records == w.records {
      PassAside(w, v.pass);
    } else {
      var r := v.records[a.sid];
      RetargetKeepsSound(w, a.sid, r, Spot(w.pass.value.target));
      PassAside(Put(w, a.sid, r), v.pass);
    }
  }

  lemma ResumeAllKeepsInv(w: World, a: Action)
    requires Inv(w) && w.pass.Some? && w.pass.value.pc.ResumeAll? && FinishNext(w, w.pass.value, a).Some?
    ensures Inv(FinishNext(w, w.pass.value, a).value)
  {
    var v := FinishNext(w, w.pass.value, a).value;
    var dst := Spot(w.pass.value.target);
    if w.pass.value.pc.todo == {} {
      PassAside(w, v.pass);
    } else if a.ResumeVm? {
      ResumeKeepsSound(w, dst, a.sid);
      SameHosts(w.(vms := w.vms + {(dst, a.sid)}), v);
    } else {
      RetargetKeepsSound(w, a.sid, v.records[a.sid], dst);
      PassAside(Put(w, a.sid, v.records[a.sid]), v.pass);
    }
  }

  lemma CheckHealthKeepsInv(w: World, a: Action)
    requires Inv(w) && w.pass.Some? && w.pass.value.pc.CheckHealth? && FinishNext(w, w.pass.value, a).Some?
    ensures Inv(FinishNext(w, w.pass.value, a).value)
  {
  }

  lemma DeleteReplacedKeepsInv(w: World, a: Action)
    requires Inv(w) && w.pass.Some? && w.pass.value.pc.DeleteReplaced? && FinishNext(w, w.pass.value, a).Some?
    ensures Inv(FinishNext(w, w.pass.value, a).value)
  {
    var p := w.pass.value;
    DeleteKeepsSound(w, p.replaced);
    PassAside(w.(deleted := w.deleted + {p.replaced}), FinishNext(w, p, a).value.pass);
  }

  lemma ReleaseClaimKeepsInv(w: World, a: Action)
    requires Inv(w) && w.pass.Some? && w.pass.value.pc.ReleaseClaim? && FinishNext(w, w.pass.value, a).Some?
    ensures Inv(FinishNext(w, w.pass.value, a).value)
  {
  }

  lemma TerminateKeepsInv(w: World, a: Action)
    requires Inv(w) && w.pass.Some? && w.pass.value.pc.Terminate? && FinishNext(w, w.pass.value, a).Some?
    ensures Inv(FinishNext(w, w.pass.value, a).value)
  {
    var src := OnDemand(w.pass.value.source);
    LoseKeepsSound(w, src);
    PassAside(Lose(w, src), None);
  }

  lemma EmptyKeepsInv(w: World, a: Action)
    requires Inv(w) && w.pass.Some? && EmptyNext(w, w.pass.value, a).Some?
    ensures Inv(EmptyNext(w, w.pass.value, a).value)
  {
    match w.pass.value.pc
    case EmptyClaim => EmptyClaimKeepsInv(w, a);
    case EmptyDeleteReplaced(_) => EmptyDeleteReplacedKeepsInv(w, a);
    case EmptyReleaseClaim(_) => EmptyReleaseClaimKeepsInv(w, a);
    case EmptyUnmount => EmptyUnmountKeepsInv(w, a);
    case EmptyDetach(_) => EmptyDetachKeepsInv(w, a);
    case EmptyDelete(_) => EmptyDeleteKeepsInv(w, a);
  }

  lemma HandingOverKeepsInv(w: World, a: Action)
    requires Inv(w) && w.pass.Some? && HandoffNext(w, w.pass.value, a).Some?
    ensures Inv(HandoffNext(w, w.pass.value, a).value)
  {
    match w.pass.value.pc
    case ClaimTarget => ClaimTargetKeepsInv(w, a);
    case Mark(_) => MarkKeepsInv(w, a);
    case Checkpoint(_) => CheckpointKeepsInv(w, a);
    case Handoff => HandoffKeepsInv(w, a);
    case UnmountSource => UnmountSourceKeepsInv(w, a);
    case DetachSource => DetachSourceKeepsInv(w, a);
    case UnmountReplaced => UnmountReplacedKeepsInv(w, a);
    case DetachReplaced => DetachReplacedKeepsInv(w, a);
    case AttachTarget => AttachTargetKeepsInv(w, a);
    case MountTarget => MountTargetKeepsInv(w, a);
  }

  lemma FinishKeepsInv(w: World, a: Action)
    requires Inv(w) && w.pass.Some? && FinishNext(w, w.pass.value, a).Some?
    ensures Inv(FinishNext(w, w.pass.value, a).value)
  {
    match w.pass.value.pc
    case Move(_, _) => MoveKeepsInv(w, a);
    case ResumeAll(_) => ResumeAllKeepsInv(w, a);
    case CheckHealth => CheckHealthKeepsInv(w, a);
    case DeleteReplaced => DeleteReplacedKeepsInv(w, a);
    case ReleaseClaim => ReleaseClaimKeepsInv(w, a);
    case Terminate => TerminateKeepsInv(w, a);
  }

  lemma PassKeepsInv(w: World, a: Action)
    requires Inv(w) && PassNext(w, a).Some?
    ensures Inv(PassNext(w, a).value)
  {
    if EmptyNext(w, w.pass.value, a).Some? {
      EmptyKeepsInv(w, a);
    } else if HandoffNext(w, w.pass.value, a).Some? {
      HandingOverKeepsInv(w, a);
    } else {
      FinishKeepsInv(w, a);
    }
  }

  lemma EnvironmentKeepsInv(w: World, a: Action)
    requires Inv(w) && EnvironmentNext(w, a).Some?
    ensures Inv(EnvironmentNext(w, a).value)
  {
    match a
    case SpotJoins(_) => NodesKeepInv(w, a);
    case Heartbeat(_) => NodesKeepInv(w, a);
    case HostLost(_) => LossKeepsInv(w, a);
    case UserSuspend(_) => UsersKeepInv(w, a);
    case UserResume(_) => UsersKeepInv(w, a);
    case _ => CheckpointsKeepInv(w, a);
  }

  lemma NextKeepsInv(w: World, a: Action)
    requires Inv(w) && Next(w, a).Some?
    ensures Inv(Next(w, a).value)
  {
    if a.StartPass? {
      StartKeepsInv(w, a.n);
    } else if a.Interrupt? {
      PassAside(w, None);
    } else if EnvironmentNext(w, a).Some? {
      EnvironmentKeepsInv(w, a);
    } else if RecoveryNext(w, a).Some? {
      RecoveryKeepsInv(w, a);
    } else {
      PassKeepsInv(w, a);
    }
  }

  lemma {:induction false} ReachableInv(w0: World, actions: seq<Action>, w: World)
    requires Inv(w0) && Reachable(w0, actions, w)
    ensures Inv(w)
    decreases |actions|
  {
    if actions != [] {
      NextKeepsInv(w0, actions[0]);
      ReachableInv(Next(w0, actions[0]).value, actions[1..], w);
    }
  }

  // ---------- one live copy ----------

  /** Over all interleavings of recovery, repatriation, crashes and host losses, a sandbox has at
      most one running VM, and it runs where the state volume is attached and mounted. */
  lemma SingleLiveCopy(w0: World, actions: seq<Action>, w: World, sid: Sid, h1: Host, h2: Host)
    requires Initial(w0) && Reachable(w0, actions, w)
    requires (h1, sid) in w.vms && (h2, sid) in w.vms
    ensures h1 == h2 && AttachedTo(w, StateVolume, h1) && Mounts(w, h1, StateVolume) && h1 !in w.gone
  {
    InitialInv(w0);
    ReachableInv(w0, actions, w);
    assert Mounts(w, (h1, sid).0, StateVolume) && Mounts(w, (h2, sid).0, StateVolume);
  }

  // ---------- what the fence protects ----------

  /** Volumes are deleted by three steps of the pass, each time one that is not attached. */
  predicate DeletesLike(w: World, v: World) {
    v.deleted == w.deleted
    || (w.pass.Some? &&
        var p := w.pass.value;
        if p.pc.EmptyDeleteReplaced? || p.pc.DeleteReplaced?
        then v.deleted == w.deleted + {p.replaced} && p.replaced !in w.attached
        else p.pc.EmptyDelete? && v.deleted == w.deleted + {p.pc.volume} && p.pc.volume !in w.attached)
  }

  lemma OthersDeleteNothing(w: World, a: Action)
    ensures EnvironmentNext(w, a).Some? ==> EnvironmentNext(w, a).value.deleted == w.deleted
    ensures RecoveryNext(w, a).Some? ==> RecoveryNext(w, a).value.deleted == w.deleted
  {
  }

  lemma EmptyDeletes(w: World, p: Pass, a: Action)
    requires w.pass == Some(p) && EmptyNext(w, p, a).Some?
    ensures DeletesLike(w, EmptyNext(w, p, a).value)
  {
  }

  lemma FinishDeletes(w: World, p: Pass, a: Action)
    requires w.pass == Some(p) && FinishNext(w, p, a).Some?
    ensures DeletesLike(w, FinishNext(w, p, a).value)
  {
  }

  lemma PassDeletes(w: World, a: Action)
    requires PassNext(w, a).Some?
    ensures DeletesLike(w, PassNext(w, a).value)
  {
    var p := w.pass.value;
    if EmptyNext(w, p, a).Some? {
      EmptyDeletes(w, p, a);
    } else if HandoffNext(w, p, a).None? {
      FinishDeletes(w, p, a);
    }
  }

  lemma OnlyPassDeletes(w: World, a: Action)
    requires Next(w, a).Some?
    ensures DeletesLike(w, Next(w, a).value)
  {
    OthersDeleteNothing(w, a);
    if !a.StartPass? && !a.Interrupt? && EnvironmentNext(w, a).None? && RecoveryNext(w, a).None? {
      PassDeletes(w, a);
    }
  }

  /** Whenever a step deletes the state volume it is the empty-host branch that does, no record is
      targeted at the host being reclaimed, and every record that had moved to a Spot host had
      moved to one that is gone. */
  lemma DeletionFence(w0: World, actions: seq<Action>, w: World, a: Action)
    requires Initial(w0) && Reachable(w0, actions, w) && Next(w, a).Some?
    ensures StateVolume !in w.deleted && StateVolume in Next(w, a).value.deleted ==>
              && w.pass.Some? && IsEmptyPc(w.pass.value.pc)
              && forall sid <- w.records ::
                   var t := w.records[sid].target;
                   t != Some(OnDemand(w.pass.value.source)) && (t.Some? && t.value.Spot? ==> t.value in w.gone)
  {
    InitialInv(w0);
    ReachableInv(w0, actions, w);
    OnlyPassDeletes(w, a);
    if StateVolume !in w.deleted && StateVolume in Next(w, a).value.deleted {
      FenceHolds(w);
    }
  }

  lemma FenceHolds(w: World)
    requires Inv(w) && w.pass.Some? && StateVolume !in w.attached
    ensures forall sid <- w.records ::
              var t := w.records[sid].target;
              (IsEmptyPc(w.pass.value.pc) ==> t != Some(OnDemand(w.pass.value.source)))
              && (t.Some? && t.value.Spot? ==> t.value in w.gone)
  {
    forall sid | sid in w.records && IsEmptyPc(w.pass.value.pc)
      ensures w.records[sid].target != Some(OnDemand(w.pass.value.source))
    {
      assert !TargetIs(w, sid, OnDemand(w.pass.value.source));
    }
  }
}
