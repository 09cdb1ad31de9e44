/** Spot recovery and repatriation of one interruption session as a transition system: one state
    volume, the sandboxes on it, the hosts it travels between.  Every record write, node call and
    EC2 call is a step of its own; the pass in progress can be interrupted between any two, hosts
    can be lost at any time, and node rows hold whatever volume the node last reported. */
module VolumeHandoff {
  import opened Options

  type Sid = nat

  /** The interrupted Spot host, the On-Demand recovery hosts, the Spot hosts to return to. */
  datatype Host = Origin | OnDemand(od: nat) | Spot(sp: nat)

  /** The session's state volume, and the empty volume each Spot host was born with. */
  datatype Volume = StateVolume | Fresh(of: nat)

  datatype RecordState =
    Running | Suspended | Checkpointed | Attaching | Recovering | RecoveryFailed | Repatriating

  /** `target` is recovery_target_instance_id, `original` repatriation_original_state,
      `flagged` repatriation_checkpointed. */
  datatype Record = Record(state: RecordState, target: Option<Host>, original: Option<RecordState>, flagged: bool)

  /** Where a repatriation pass is; the sets are what its current loop still has to do. */
  datatype Pc =
    | EmptyClaim
    | EmptyDeleteReplaced(claim: nat)
    | EmptyReleaseClaim(claim: nat)
    | EmptyUnmount
    | EmptyDetach(volume: Volume)
    | EmptyDelete(volume: Volume)
    | ClaimTarget
    | Mark(todo: set<Sid>)
    | Checkpoint(todo: set<Sid>)
    | Handoff
    | UnmountSource
    | DetachSource
    | UnmountReplaced
    | DetachReplaced
    | AttachTarget
    | MountTarget
    | Move(todo: set<Sid>, toResume: set<Sid>)
    | ResumeAll(todo: set<Sid>)
    | CheckHealth
    | DeleteReplaced
    | ReleaseClaim
    | Terminate

  predicate IsEmptyPc(pc: Pc) {
    pc.EmptyClaim? || pc.EmptyDeleteReplaced? || pc.EmptyReleaseClaim? || pc.EmptyUnmount?
    || pc.EmptyDetach? || pc.EmptyDelete?
  }

  /** Local variables of a pass over OnDemand(source): the state_volume_id of the row it was
      started from, the records it holds leases for with the original state each had then, the
      claimed Spot host and the volume its claim says will be replaced. */
  datatype Pass = Pass(
    source: nat, row: Option<Volume>, originals: map<Sid, RecordState>, unflagged: set<Sid>,
    target: nat, replaced: Volume, pc: Pc)

  datatype World = World(
    records: map<Sid, Record>,
    attached: map<Volume, Host>,
    deleted: set<Volume>,
    mounted: map<Host, Volume>,
    vms: set<(Host, Sid)>,
    parked: set<(Host, Sid)>,
    rows: map<Host, Volume>,
    standbyClaims: set<nat>,
    spotClaims: map<nat, Volume>,
    gone: set<Host>,
    pass: Option<Pass>)

  datatype Action =
    // nodes, users, EC2 on their own
    | SpotJoins(n: nat)
    | Heartbeat(h: Host)
    | HostLost(h: Host)
    | CheckpointOrigin(sid: Sid)
    | UserSuspend(sid: Sid)
    | UserResume(sid: Sid)
    | Destroy(sid: Sid)
    // _recover_session
    | ClaimStandby(n: nat)
    | TargetRecord(n: nat, sid: Sid)
    | AttachStandby(n: nat)
    | MountStandby(n: nat)
    | RecoverVm(n: nat, sid: Sid)
    | RecoverRecord(n: nat, sid: Sid)
    | RecoverFailed(sid: Sid)
    // _repatriate_host
    | StartPass(n: nat)
    | Interrupt
    | UseClaim(t: nat)
    | NewClaim(t: nat)
    | NoClaim
    | OnRecord(sid: Sid)
    | SuspendVm(sid: Sid)
    | ResumeVm(sid: Sid)
    | Go

  // ---------- small pieces ----------

  function Lose(w: World, h: Host): World {
    w.(gone := w.gone + {h},
       mounted := w.mounted - {h},
       vms := (set x | x in w.vms && x.0 != h),
       parked := (set x | x in w.parked && x.0 != h),
       attached := map v | v in w.attached && w.attached[v] != h :: w.attached[v])
  }

  predicate Mounts(w: World, h: Host, v: Volume) {
    h in w.mounted && w.mounted[h] == v
  }

  predicate AttachedTo(w: World, v: Volume, h: Host) {
    v in w.attached && w.attached[v] == h
  }

  /** EC2 state "available": neither attached nor deleted. */
  predicate Available(w: World, v: Volume) {
    v !in w.attached && v !in w.deleted
  }

  predicate Resident(w: World, h: Host) {
    exists x <- w.vms + w.parked :: x.0 == h
  }

  /** The node agent's table of sandboxes, running or suspended. */
  function Entries(w: World, h: Host): set<Sid> {
    set x | x in w.vms + w.parked && x.0 == h :: x.1
  }

  predicate RunsOn(w: World, h: Host) {
    exists x <- w.vms :: x.0 == h
  }

  /** op_recovery_unmount refuses while VMs run, or when another volume is mounted. */
  predicate UnmountRefused(w: World, h: Host, v: Volume) {
    RunsOn(w, h) || (h in w.mounted && w.mounted[h] != v)
  }

  /** Suspended entries leave the agent's table with the volume; nothing happens when none is mounted. */
  function Unmounted(w: World, h: Host): World {
    if h in w.mounted
    then w.(mounted := w.mounted - {h}, parked := (set x | x in w.parked && x.0 != h))
    else w
  }

  predicate TargetIs(w: World, sid: Sid, h: Host) {
    sid in w.records && w.records[sid].target == Some(h)
  }

  function OriginalOf(r: Record): RecordState {
    if r.original.Some? then r.original.value else r.state
  }

  predicate InFlight(s: RecordState) {
    s == Checkpointed || s == Attaching || s == Recovering
  }

  /** Not under the pass's leases. */
  predicate Free(w: World, sid: Sid) {
    w.pass.None? || sid !in w.pass.value.originals
  }

  /** The sandboxes the target must report before the handoff counts as complete. */
  function RunningBefore(p: Pass): set<Sid> {
    set sid | sid in p.originals && p.originals[sid] == Running
  }

  function Put(w: World, sid: Sid, r: Record): (v: World)
    ensures v.records.Keys == w.records.Keys + {sid}
  {
    w.(records := w.records[sid := r])
  }

  function At(w: World, p: Pass, pc: Pc): World {
    w.(pass := Some(p.(pc := pc)))
  }

  // ---------- steps outside the passes ----------

  function EnvironmentNext(w: World, a: Action): Option<World> {
    match a
    case SpotJoins(n) =>
      if Spot(n) !in w.mounted && Spot(n) !in w.gone && Available(w, Fresh(n))
      then Some(w.(mounted := w.mounted[Spot(n) := Fresh(n)], attached := w.attached[Fresh(n) := Spot(n)]))
      else None
    case Heartbeat(h) =>
      if h in w.gone then None
      else if h in w.mounted then Some(w.(rows := w.rows[h := w.mounted[h]]))
      else Some(w.(rows := w.rows - {h}))
    case HostLost(h) => Some(Lose(w, h))
    case CheckpointOrigin(sid) =>
      if (Origin, sid) in w.vms && sid in w.records && w.records[sid].target.None?
      then Some(Put(w, sid, w.records[sid].(state := Checkpointed)).(vms := w.vms - {(Origin, sid)}))
      else None
    case UserSuspend(sid) =>
      if Free(w, sid) && sid in w.records && w.records[sid].state == Running && w.records[sid].target.Some?
         && (w.records[sid].target.value, sid) in w.vms
      then
        var x := (w.records[sid].target.value, sid);
        Some(Put(w, sid, w.records[sid].(state := Suspended)).(vms := w.vms - {x}, parked := w.parked + {x}))
      else None
    case UserResume(sid) =>
      if Free(w, sid) && sid in w.records && w.records[sid].state == Suspended && w.records[sid].target.Some?
         && Mounts(w, w.records[sid].target.value, StateVolume)
      then
        var x := (w.records[sid].target.value, sid);
        Some(Put(w, sid, w.records[sid].(state := Running)).(vms := w.vms + {x}, parked := w.parked - {x}))
      else None
    case Destroy(sid) =>
      if Free(w, sid)
      then Some(w.(records := w.records - {sid},
                   vms := (set x | x in w.vms && x.1 != sid), parked := (set x | x in w.parked && x.1 != sid)))
      else None
    case _ => None
  }

  /** The recovery pass runs in the same loop as repatriation, never beside it.  A step may follow
      any earlier one: an interrupted recovery starts over and finds what it left. */
  function RecoveryNext(w: World, a: Action): Option<World> {
    if w.pass.Some? then None
    else match a
      case ClaimStandby(n) =>
        if OnDemand(n) !in w.gone && OnDemand(n) !in w.rows
        then Some(w.(standbyClaims := w.standbyClaims + {n})) else None
      case TargetRecord(n, sid) =>
        if n in w.standbyClaims && sid in w.records && InFlight(w.records[sid].state)
        then Some(Put(w, sid, w.records[sid].(state := Attaching, target := Some(OnDemand(n))))) else None
      case AttachStandby(n) =>
        if n in w.standbyClaims && OnDemand(n) !in w.gone && Available(w, StateVolume)
           && exists sid <- w.records :: TargetIs(w, sid, OnDemand(n)) && w.records[sid].state == Attaching
        then Some(w.(attached := w.attached[StateVolume := OnDemand(n)])) else None
      case MountStandby(n) =>
        if AttachedTo(w, StateVolume, OnDemand(n)) && !Resident(w, OnDemand(n))
        then Some(w.(mounted := w.mounted[OnDemand(n) := StateVolume])) else None
      case RecoverVm(n, sid) =>
        if TargetIs(w, sid, OnDemand(n)) && InFlight(w.records[sid].state) && Mounts(w, OnDemand(n), StateVolume)
        then Some(Put(w, sid, w.records[sid].(state := Recovering)).(vms := w.vms + {(OnDemand(n), sid)})) else None
      case RecoverRecord(n, sid) =>
        if TargetIs(w, sid, OnDemand(n)) && w.records[sid].state == Recovering && (OnDemand(n), sid) in w.vms
        then Some(Put(w, sid, w.records[sid].(state := Running))) else None
      case RecoverFailed(sid) =>
        if sid in w.records && InFlight(w.records[sid].state)
        then Some(Put(w, sid, w.records[sid].(state := RecoveryFailed))) else None
      case _ => None
  }

  // ---------- steps of a repatriation pass ----------

  /** The records targeted at the host are read consistently and leased; none may be in flight. */
  function Start(w: World, n: nat): Option<World> {
    var mine := set sid | sid in w.records && w.records[sid].target == Some(OnDemand(n));
    if w.pass.None? && n in w.standbyClaims && forall sid <- mine :: !InFlight(w.records[sid].state)
    then
      var originals := map sid | sid in mine :: OriginalOf(w.records[sid]);
      var unflagged := set sid | sid in mine && !w.records[sid].flagged;
      var row := if OnDemand(n) in w.rows then Some(w.rows[OnDemand(n)]) else None;
      Some(w.(pass := Some(Pass(n, row, originals, unflagged, 0, StateVolume,
                                if mine == {} then EmptyClaim else ClaimTarget))))
    else None
  }

  /** No record is targeted at the host any more: reclaim its volume, then the host. */
  function EmptyNext(w: World, p: Pass, a: Action): (r: Option<World>)
    ensures r.Some? ==> r.value.records == w.records && r.value.rows == w.rows && r.value.pass.Some?
    ensures r.Some? ==> IsEmptyPc(p.pc) && (IsEmptyPc(r.value.pass.value.pc) || r.value.pass.value.pc.Terminate?)
    ensures r.Some? ==> r.value.pass.value.row == p.row
  {
    var src := OnDemand(p.source);
    match p.pc
    case EmptyClaim =>
      if a.UseClaim? && a.t in w.spotClaims
      then Some(w.(pass := Some(p.(target := a.t, replaced := w.spotClaims[a.t], pc := EmptyDeleteReplaced(a.t)))))
      else if a.NoClaim? then Some(At(w, p, EmptyUnmount))
      else None
    case EmptyDeleteReplaced(t) =>
      if a.Go? && p.replaced !in w.attached
      then Some(At(w, p, EmptyReleaseClaim(t)).(deleted := w.deleted + {p.replaced})) else None
    case EmptyReleaseClaim(t) =>
      if a.Go? then Some(At(w, p, EmptyUnmount).(spotClaims := w.spotClaims - {t})) else None
    case EmptyUnmount =>
      if !a.Go? then None
      else if p.row.None? then Some(At(w, p, Terminate))
      else if AttachedTo(w, p.row.value, src) then
        if UnmountRefused(w, src, p.row.value) then None
        else Some(At(Unmounted(w, src), p, EmptyDetach(p.row.value)))
      else if Available(w, p.row.value) then Some(At(w, p, EmptyDelete(p.row.value)))
      else Some(At(w, p, Terminate))
    case EmptyDetach(v) =>
      if a.Go? && (v in w.attached ==> w.attached[v] == src)
      then Some(At(w, p, EmptyDelete(v)).(attached := w.attached - {v})) else None
    case EmptyDelete(v) =>
      if a.Go? && v !in w.attached
      then Some(At(w, p, Terminate).(deleted := w.deleted + {v})) else None
    case _ => None
  }

  /** Hand the volume over: each unmount, detach, attach and mount is skipped where it is done already. */
  function VolumesNext(w: World, p: Pass, a: Action): (r: Option<World>)
    ensures r.Some? ==> r.value.records == w.records && r.value.deleted == w.deleted
    ensures r.Some? ==> r.value.pass.Some? && !IsEmptyPc(r.value.pass.value.pc)
  {
    var src, dst := OnDemand(p.source), Spot(p.target);
    match p.pc
    case UnmountSource =>
      if !a.Go? then None
      else if AttachedTo(w, StateVolume, src) then
        if UnmountRefused(w, src, StateVolume) then None else Some(At(Unmounted(w, src), p, DetachSource))
      else Some(At(w, p, UnmountReplaced))
    case DetachSource =>
      if a.Go? && (StateVolume in w.attached ==> w.attached[StateVolume] == src)
      then Some(At(w, p, UnmountReplaced).(attached := w.attached - {StateVolume})) else None
    case UnmountReplaced =>
      if !a.Go? then None
      else if AttachedTo(w, p.replaced, dst) then
        if UnmountRefused(w, dst, p.replaced) then None
        else Some(At(Unmounted(w, dst), p, DetachReplaced))
      else Some(At(w, p, AttachTarget))
    case DetachReplaced =>
      if a.Go? && (p.replaced in w.attached ==> w.attached[p.replaced] == dst)
      then Some(At(w, p, AttachTarget).(attached := w.attached - {p.replaced})) else None
    case AttachTarget =>
      if !a.Go? || dst in w.gone then None
      else if AttachedTo(w, StateVolume, dst) then Some(At(w, p, MountTarget))
      else if Available(w, StateVolume)
      then Some(At(w, p, MountTarget).(attached := w.attached[StateVolume := dst]))
      else None
    case MountTarget =>
      if a.Go? && AttachedTo(w, StateVolume, dst) && !Resident(w, dst)
      then Some(At(w, p, Move(p.originals.Keys, {})).(mounted := w.mounted[dst := StateVolume])) else None
    case _ => None
  }

  /** Claim a Spot host, take a last checkpoint of every running sandbox, then hand the volume over. */
  function HandoffNext(w: World, p: Pass, a: Action): (r: Option<World>)
    ensures r.Some? ==> r.value.records.Keys == w.records.Keys && r.value.deleted == w.deleted
    ensures r.Some? && w.pass == Some(p) ==> r.value.pass.Some? && !IsEmptyPc(r.value.pass.value.pc)
  {
    var src, dst := OnDemand(p.source), Spot(p.target);
    match p.pc
    case ClaimTarget =>
      if a.UseClaim? && a.t in w.spotClaims
      then Some(w.(pass := Some(p.(target := a.t, replaced := w.spotClaims[a.t], pc := Mark(p.originals.Keys)))))
      else if a.NewClaim? && Spot(a.t) in w.rows then
        var v := w.rows[Spot(a.t)];
        Some(w.(spotClaims := w.spotClaims[a.t := v],
                pass := Some(p.(target := a.t, replaced := v, pc := Mark(p.originals.Keys)))))
      else None
    case Mark(todo) =>
      if todo == {} then
        if a.Go? then
          Some(At(w, p, Checkpoint(set sid | sid in p.unflagged && sid in p.originals && p.originals[sid] == Running)))
        else None
      else if a.OnRecord? && a.sid in todo && a.sid in w.records && a.sid in p.originals then
        Some(At(Put(w, a.sid, w.records[a.sid].(state := Repatriating, original := Some(p.originals[a.sid]))),
                p, Mark(todo - {a.sid})))
      else None
    case Checkpoint(todo) =>
      if todo == {} then
        if a.Go? then Some(At(w, p, Handoff)) else None
      else if a.SuspendVm? && a.sid in todo && (src, a.sid) in w.vms then
        Some(w.(vms := w.vms - {(src, a.sid)}, parked := w.parked + {(src, a.sid)}))
      else if a.OnRecord? && a.sid in todo && (src, a.sid) in w.parked && a.sid in w.records then
        Some(At(Put(w, a.sid, w.records[a.sid].(state := Repatriating, flagged := true)),
                p, Checkpoint(todo - {a.sid})))
      else None
    case Handoff =>
      if a.Go? && p.replaced != StateVolume && p.target in w.spotClaims
      then Some(At(w, p, UnmountSource)) else None
    case _ => VolumesNext(w, p, a)
  }

  /** The volume is on the Spot host: move the records, resume the running ones, clean up. */
  function FinishNext(w: World, p: Pass, a: Action): (r: Option<World>)
    ensures r.Some? ==> r.value.records.Keys == w.records.Keys
    ensures r.Some? && w.pass == Some(p) && r.value.pass.Some? ==> !IsEmptyPc(r.value.pass.value.pc)
  {
    var src, dst := OnDemand(p.source), Spot(p.target);
    match p.pc
    case Move(todo, toResume) =>
      if todo == {} then
        if a.Go? && (toResume == {} || p.target in w.spotClaims) then Some(At(w, p, ResumeAll(toResume))) else None
      else if a.OnRecord? && a.sid in todo && a.sid in w.records then
        var r := w.records[a.sid];
        if r.original.None? || r.original.value == Running
        then Some(At(w, p, Move(todo - {a.sid}, toResume + {a.sid})))
        else Some(At(Put(w, a.sid, r.(state := r.original.value, target := Some(dst))),
                     p, Move(todo - {a.sid}, toResume)))
      else None
    case ResumeAll(todo) =>
      if todo == {} then
        if a.Go? then Some(At(w, p, CheckHealth)) else None
      else if a.ResumeVm? && a.sid in todo && Mounts(w, dst, StateVolume) then
        Some(w.(vms := w.vms + {(dst, a.sid)}, parked := w.parked - {(dst, a.sid)}))
      else if a.OnRecord? && a.sid in todo && (dst, a.sid) in w.vms && a.sid in w.records then
        Some(At(Put(w, a.sid, w.records[a.sid].(state := Running, target := Some(dst))),
                p, ResumeAll(todo - {a.sid})))
      else None
    case CheckHealth =>
      if a.Go? && Mounts(w, dst, StateVolume)
         && |Entries(w, dst)| >= |RunningBefore(p)|
      then Some(At(w, p, DeleteReplaced)) else None
    case DeleteReplaced =>
      if a.Go? && p.replaced !in w.attached
      then Some(At(w, p, ReleaseClaim).(deleted := w.deleted + {p.replaced})) else None
    case ReleaseClaim =>
      if a.Go? then Some(At(w, p, Terminate).(spotClaims := w.spotClaims - {p.target})) else None
    case Terminate =>
      if a.Go? then Some(Lose(w, src).(pass := None)) else None
    case _ => None
  }

  function PassNext(w: World, a: Action): Option<World> {
    if w.pass.None? then None
    else
      var p := w.pass.value;
      var r := EmptyNext(w, p, a);
      if r.Some? then r
      else
        var q := HandoffNext(w, p, a);
        if q.Some? then q else FinishNext(w, p, a)
  }

  function Next(w: World, a: Action): Option<World> {
    match a
    case StartPass(n) => Start(w, n)
    case Interrupt => Some(w.(pass := None))
    case _ =>
      var e := EnvironmentNext(w, a);
      if e.Some? then e
      else
        var r := RecoveryNext(w, a);
        if r.Some? then r else PassNext(w, a)
  }

  predicate Initial(w: World) {
    && w.attached == map[StateVolume := Origin] && w.mounted == map[Origin := StateVolume]
    && w.vms == (set sid | sid in w.records :: (Origin, sid))
    && (forall sid <- w.records :: w.records[sid] == Record(Running, None, None, false))
    && w.deleted == {} && w.parked == {} && w.rows == map[] && w.standbyClaims == {} && w.spotClaims == map[]
    && w.gone == {} && w.pass.None?
  }

  predicate Reachable(w0: World, actions: seq<Action>, w: World)
    decreases |actions|
  {
    if actions == [] then w == w0
    else Next(w0, actions[0]).Some? && Reachable(Next(w0, actions[0]).value, actions[1..], w)
  }
}
