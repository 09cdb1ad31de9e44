/** The repatriation pass as the code runs it: its own lists and lookups, the calls to the table, to
    EC2 and to the nodes in their order, any of which may fail or lose its answer.  Whatever fails,
    every execution is a run of VolumeHandoff, so what holds of those runs holds of the code; and an
    execution that reports success has reached the goal of the handoff. */
module RepatriationPass {
  import opened Options
  import opened Sequences
  import opened VolumeHandoff
  import opened Reentrancy
  import opened ReentrantRuns
  import opened RepatriationGoal
  import opened RepatriationRuns
  import opened PassRuns
  import opened PassSteps

  // ---------- hosts no record is targeted at ----------

  function RowOf(rows: map<Host, Volume>, h: Host): Option<Volume> {
    if h in rows then Some(rows[h]) else None
  }

  /** The volume in the host's row is attached to it and cannot be unmounted: VMs run there, or another
      volume is mounted. */
  predicate RowStuck(
    attached: map<Volume, Host>, mounted: map<Host, Volume>, vms: set<(Host, Sid)>, h: Host, row: Option<Volume>)
  {
    && row.Some? && row.value in attached && attached[row.value] == h
    && ((exists x <- vms :: x.0 == h) || (h in mounted && mounted[h] != row.value))
  }

  /** The volume in the host's row, unless it is attached to another host. */
  function RowVolume(attached: map<Volume, Host>, h: Host, row: Option<Volume>): set<Volume> {
    if row.Some? && (row.value in attached ==> attached[row.value] == h) then {row.value} else {}
  }

  /** A claim, if there is one, is given back and the volume it replaced deleted. */
  predicate Settled(
    claims: map<nat, Volume>, deleted: set<Volume>, claimsLeft: map<nat, Volume>, deletedNow: set<Volume>)
  {
    if claims == map[] then claimsLeft == map[] && deletedNow == deleted
    else exists t <- claims :: claimsLeft == claims - {t} && deletedNow == deleted + {claims[t]}
  }

  /** The Spot host has the state volume mounted and as many sandboxes as were running. */
  predicate IsHealthy(
    mounted: map<Host, Volume>, sandboxes: set<(Host, Sid)>, target: nat, found: seq<Sid>, snapshot: map<Sid, Record>)
    requires forall sid <- found :: sid in snapshot
  {
    && Spot(target) in mounted && mounted[Spot(target)] == StateVolume
    && |set x | x in sandboxes && x.0 == Spot(target) :: x.1|
       >= |set sid | sid in found && OriginalOf(snapshot[sid]) == Running|
  }

  /** A request to the host for each of these that runs there, in their order. */
  function Requests(h: Host, sids: seq<Sid>, vms: set<(Host, Sid)>): seq<(Host, Sid)> {
    if sids == [] then [] else (if (h, sids[0]) in vms then [(h, sids[0])] else []) + Requests(h, sids[1..], vms)
  }

  lemma RequestsStep(h: Host, sids: seq<Sid>, i: nat, vms: set<(Host, Sid)>)
    requires i < |sids|
    ensures Requests(h, sids[i..], vms)
         == (if (h, sids[i]) in vms then [(h, sids[i])] else []) + Requests(h, sids[i + 1..], vms)
  {
    assert sids[i..][1..] == sids[i + 1..];
  }

  function Each(h: Host, sids: seq<Sid>): seq<(Host, Sid)> {
    if sids == [] then [] else [(h, sids[0])] + Each(h, sids[1..])
  }

  lemma EachStep(h: Host, sids: seq<Sid>, i: nat)
    requires i < |sids|
    ensures Each(h, sids[i..]) == [(h, sids[i])] + Each(h, sids[i + 1..])
  {
    assert sids[i..][1..] == sids[i + 1..];
  }

  /** What becomes of one sandbox does not matter to the others. */
  lemma {:induction false} RequestsFrame(h: Host, sids: seq<Sid>, sid: Sid, before: set<(Host, Sid)>,
      after: set<(Host, Sid)>)
    requires sid !in sids && before - {(h, sid)} <= after <= before
    ensures Requests(h, sids, after) == Requests(h, sids, before)
  {
    if sids != [] {
      RequestsFrame(h, sids[1..], sid, before, after);
    }
  }

  class Coordinator {
    // The table, EC2 and the nodes.
    var records: map<Sid, Record>
    var attached: map<Volume, Host>
    var deleted: set<Volume>
    var mounted: map<Host, Volume>
    var vms: set<(Host, Sid)>
    var parked: set<(Host, Sid)>
    var rows: map<Host, Volume>
    var standbyClaims: set<nat>
    var spotClaims: map<nat, Volume>
    var gone: set<Host>

    /** No call fails or loses its answer. */
    const reliable: bool

    // The suspend and resume requests sent so far, whatever became of them.
    ghost var asked: seq<(Host, Sid)>

    // The run this execution is, where the pass is, and the handoff meant, with its first own step.
    ghost var start: World
    ghost var steps: Steps
    ghost var pass: Option<Pass>
    ghost var plan: Option<Plan>
    ghost var entered: nat

    ghost function Now(): World
      reads this
    {
      World(records, attached, deleted, mounted, vms, parked, rows, standbyClaims, spotClaims, gone, pass)
    }

    constructor (world: World, reliable: bool)
      requires world.pass.None?
      ensures Now() == world && this.reliable == reliable
    {
      records, attached, deleted, mounted := world.records, world.attached, world.deleted, world.mounted;
      vms, parked, rows := world.vms, world.parked, world.rows;
      standbyClaims, spotClaims, gone := world.standbyClaims, world.spotClaims, world.gone;
      this.reliable := reliable;
      start, steps, pass, plan, entered, asked := world, [], None, None, 0, [];
    }

    // ---------- calls ----------

    method Fails() returns (fails: bool)
      ensures reliable ==> !fails
    {
      fails := *;
      if reliable {
        fails := false;
      }
    }

    /** A call takes effect or not; it succeeds when it did and the answer arrives. */
    method ForceUpdate(sid: Sid, r: Record) returns (ok: bool, ghost took: bool)
      modifies this`records
      ensures ok ==> took
      ensures reliable ==> ok
      ensures Now() == if took then Put(old(Now()), sid, r) else old(Now())
    {
      ok, took := false, false;
      var lost := Fails();
      if !lost {
        records, took := records[sid := r], true;
        lost := Fails();
        ok := !lost;
      }
    }

    method SuspendVmOn(h: Host, sid: Sid) returns (ok: bool, ghost took: bool)
      modifies this`vms, this`parked, this`asked
      ensures asked == old(asked) + [(h, sid)]
      ensures ok ==> took
      ensures took ==> (h, sid) in old(vms)
      ensures reliable && (h, sid) in old(vms) ==> ok
      ensures Now() == if took then old(Now()).(vms := old(vms) - {(h, sid)}, parked := old(parked) + {(h, sid)})
          else old(Now())
    {
      ok, took, asked := false, false, asked + [(h, sid)];
      var lost := Fails();
      if !lost && (h, sid) in vms {
        vms, parked, took := vms - {(h, sid)}, parked + {(h, sid)}, true;
        lost := Fails();
        ok := !lost;
      }
    }

    method ResumeVmOn(h: Host, sid: Sid) returns (ok: bool, ghost took: bool)
      modifies this`vms, this`parked, this`asked
      ensures asked == old(asked) + [(h, sid)]
      ensures ok ==> took
      ensures took ==> Mounts(old(Now()), h, StateVolume)
      ensures reliable && Mounts(old(Now()), h, StateVolume) ==> ok
      ensures Now() == if took then old(Now()).(vms := old(vms) + {(h, sid)}, parked := old(parked) - {(h, sid)})
          else old(Now())
    {
      ok, took, asked := false, false, asked + [(h, sid)];
      var lost := Fails();
      if !lost && h in mounted && mounted[h] == StateVolume {
        vms, parked, took := vms + {(h, sid)}, parked - {(h, sid)}, true;
        lost := Fails();
        ok := !lost;
      }
    }

    /** The agent refuses while VMs run or when another volume is mounted. */
    method Unmount(h: Host, v: Volume) returns (ok: bool, ghost took: bool)
      modifies this`mounted, this`parked
      ensures ok ==> took
      ensures took ==> !UnmountRefused(old(Now()), h, v)
      ensures reliable && !UnmountRefused(old(Now()), h, v) ==> ok
      ensures Now() == if took then Unmounted(old(Now()), h) else old(Now())
    {
      ok, took := false, false;
      var runs := exists x <- vms :: x.0 == h;
      var lost := Fails();
      if !lost && !runs && (h in mounted ==> mounted[h] == v) {
        took := true;
        if h in mounted {
          mounted, parked := mounted - {h}, set x | x in parked && x.0 != h;
        }
        lost := Fails();
        ok := !lost;
      }
    }

    /** Waits for "available", which a volume attached elsewhere does not become. */
    method Detach(v: Volume, h: Host) returns (ok: bool, ghost took: bool)
      modifies this`attached
      ensures ok ==> took
      ensures took ==> v in old(attached) ==> old(attached)[v] == h
      ensures reliable && (v in old(attached) ==> old(attached)[v] == h) ==> ok
      ensures Now() == if took then old(Now()).(attached := old(attached) - {v}) else old(Now())
    {
      ok, took := false, false;
      var lost := Fails();
      if !lost && (v in attached ==> attached[v] == h) {
        attached, took := attached - {v}, true;
        lost := Fails();
        ok := !lost;
      }
    }

    method Attach(v: Volume, h: Host) returns (ok: bool, ghost took: bool)
      modifies this`attached
      ensures ok ==> took
      ensures took ==> Available(old(Now()), v) && h !in gone
      ensures reliable && Available(old(Now()), v) && h !in gone ==> ok
      ensures Now() == if took then old(Now()).(attached := old(attached)[v := h]) else old(Now())
    {
      ok, took := false, false;
      var lost := Fails();
      if !lost && v !in attached && v !in deleted && h !in gone {
        attached, took := attached[v := h], true;
        lost := Fails();
        ok := !lost;
      }
    }

    method Mount(h: Host, v: Volume) returns (ok: bool, ghost took: bool)
      modifies this`mounted
      ensures ok ==> took
      ensures took ==> AttachedTo(old(Now()), v, h) && !Resident(old(Now()), h)
      ensures reliable && AttachedTo(old(Now()), v, h) && !Resident(old(Now()), h) ==> ok
      ensures Now() == if took then old(Now()).(mounted := old(mounted)[h := v]) else old(Now())
    {
      ok, took := false, false;
      var resident := exists x <- vms + parked :: x.0 == h;
      var lost := Fails();
      if !lost && v in attached && attached[v] == h && !resident {
        mounted, took := mounted[h := v], true;
        lost := Fails();
        ok := !lost;
      }
    }

    method Delete(v: Volume) returns (ok: bool, ghost took: bool)
      modifies this`deleted
      ensures ok ==> took
      ensures took ==> v !in attached
      ensures reliable && v !in attached ==> ok
      ensures Now() == if took then old(Now()).(deleted := old(deleted) + {v}) else old(Now())
    {
      ok, took := false, false;
      var lost := Fails();
      if !lost && v !in attached {
        deleted, took := deleted + {v}, true;
        lost := Fails();
        ok := !lost;
      }
    }

    method ReleaseClaimOn(t: nat) returns (ok: bool, ghost took: bool)
      modifies this`spotClaims
      ensures ok ==> took
      ensures reliable ==> ok
      ensures Now() == if took then old(Now()).(spotClaims := old(spotClaims) - {t}) else old(Now())
    {
      ok, took := false, false;
      var lost := Fails();
      if !lost {
        spotClaims, took := spotClaims - {t}, true;
        lost := Fails();
        ok := !lost;
      }
    }

    method TerminateHost(h: Host) returns (ok: bool, ghost took: bool)
      modifies this`gone, this`mounted, this`vms, this`parked, this`attached
      ensures ok ==> took
      ensures reliable ==> ok
      ensures Now() == if took then Lose(old(Now()), h) else old(Now())
    {
      ok, took := false, false;
      var lost := Fails();
      if !lost {
        took := true;
        gone, mounted := gone + {h}, mounted - {h};
        vms, parked := set x | x in vms && x.0 != h, set x | x in parked && x.0 != h;
        attached := map v | v in attached && attached[v] != h :: attached[v];
        lost := Fails();
        ok := !lost;
      }
    }

    // ---------- keeping track ----------

    ghost predicate Underway(s: World, k: Option<Plan>, n: nat)
      reads this
    {
      Ran(start, steps, Now(), plan, entered) && pass.Some? && start == s && plan == k && entered == n
    }

    /** The calls since `before` amount to one step of the pass, or to none. */
    ghost method Track(before: World, took: bool, a: Action, next: Option<Pass>)
      requires Ran(start, steps, before, plan, entered) && before.pass == pass && pass.Some?
      requires if took then Next(before, a) == Some(Now().(pass := next)) else Now() == before
      requires took && plan.Some? ==> Steady(before, a, plan.value)
      modifies this`steps, this`pass
      ensures Ran(start, steps, Now(), plan, entered) && pass == if took then next else old(pass)
    {
      if took {
        RanOn(start, steps, before, plan, entered, a, Now().(pass := next));
        steps, pass := steps + [(a, Now().(pass := next))], next;
      }
    }

    lemma InHandNow()
      requires Underway(start, plan, entered) && plan.Some?
      ensures InPass(Now(), plan.value)
    {
      assert OnCourse(start, steps, |steps|, plan.value);
    }

    // ---------- marking and checkpointing ----------

    method MarkRecord(sid: Sid, original: RecordState) returns (ok: bool)
      requires Underway(start, plan, entered) && pass.value.pc.Mark? && sid in pass.value.pc.todo
      requires sid in records && sid in pass.value.originals && pass.value.originals[sid] == original
      modifies this`records, this`steps, this`pass
      ensures Underway(old(start), old(plan), old(entered)) && (reliable ==> ok)
      ensures ok ==> records == old(records)[sid := WithMark(old(records)[sid], original)]
      ensures ok ==> pass == Some(old(pass.value).(pc := Mark(old(pass.value.pc.todo) - {sid})))
      ensures records.Keys == old(records.Keys)
    {
      ghost var before, p := Now(), pass.value;
      Marks(before, p, sid);
      ghost var took;
      ok, took := ForceUpdate(sid, WithMark(records[sid], original));
      Track(before, took, OnRecord(sid), Some(p.(pc := Mark(p.pc.todo - {sid}))));
    }

    /** Every record is marked with the state to come back to. */
    method MarkRecords(found: seq<Sid>, snapshot: map<Sid, Record>) returns (ok: bool)
      requires Underway(start, plan, entered) && pass.value.pc == Mark(Rest(found, 0))
          && Held(pass.value.originals, pass.value.unflagged, found, snapshot)
      requires forall sid <- found :: sid in records
      modifies this`records, this`steps, this`pass
      ensures Underway(old(start), old(plan), old(entered)) && (reliable ==> ok)
      ensures ok ==> pass == Some(old(pass.value).(pc := Checkpoint(ToCheckpoint(old(pass.value)))))
      ensures records.Keys == old(records.Keys)
    {
      ghost var p := pass.value;
      for i := 0 to |found|
        invariant Underway(old(start), old(plan), old(entered))
        invariant pass == Some(p.(pc := Mark(Rest(found, i)))) && records.Keys == old(records.Keys)
      {
        RestStep(found, i);
        ok := MarkRecord(found[i], OriginalOf(snapshot[found[i]]));
        if !ok {
          return false;
        }
      }
      ok := true;
      MarksDone(Now(), pass.value);
      Track(Now(), true, Go, Some(p.(pc := Checkpoint(ToCheckpoint(p)))));
    }

    method SuspendSandbox(source: nat, sid: Sid) returns (ok: bool)
      requires Underway(start, plan, entered) && pass.value.source == source
      requires pass.value.pc.Checkpoint? && sid in pass.value.pc.todo && (OnDemand(source), sid) in vms
      modifies this`vms, this`parked, this`asked, this`steps, this`pass
      ensures Underway(old(start), old(plan), old(entered)) && pass == old(pass) && (reliable ==> ok)
      ensures ok ==> (OnDemand(source), sid) !in vms && (OnDemand(source), sid) in parked
      ensures asked == old(asked) + [(OnDemand(source), sid)] && old(vms) - {(OnDemand(source), sid)} <= vms <= old(vms)
    {
      ghost var before := Now();
      Suspends(before, pass.value, sid);
      ghost var took;
      ok, took := SuspendVmOn(OnDemand(source), sid);
      Track(before, took, SuspendVm(sid), pass);
    }

    method FlagRecord(source: nat, sid: Sid) returns (ok: bool)
      requires Underway(start, plan, entered) && pass.value.source == source && sid in records
      requires pass.value.pc.Checkpoint? && sid in pass.value.pc.todo && (OnDemand(source), sid) in parked
      modifies this`records, this`steps, this`pass
      ensures Underway(old(start), old(plan), old(entered)) && (reliable ==> ok)
      ensures pass == Some(old(pass.value).(pc := Checkpoint(old(pass.value.pc.todo) - {sid})))
          || (!ok && pass == old(pass))
      ensures ok ==> records == old(records)[sid := old(records)[sid].(state := Repatriating, flagged := true)]
      ensures records.Keys == old(records.Keys)
    {
      ghost var before, p := Now(), pass.value;
      Flags(before, p, sid);
      ghost var took;
      ok, took := ForceUpdate(sid, records[sid].(state := Repatriating, flagged := true));
      Track(before, took, OnRecord(sid), Some(p.(pc := Checkpoint(p.pc.todo - {sid}))));
    }

    lemma RunsOrIsSuspended(sid: Sid)
      requires Underway(start, plan, entered) && plan.Some? && pass.value.pc.Checkpoint? && sid in pass.value.pc.todo
      ensures (OnDemand(pass.value.source), sid) in vms + parked
    {
      InHandNow();
      PlanCheckpoints(Now(), plan.value, sid);
    }

    /** A running sandbox is suspended, a suspended one needs nothing, any other runtime is an error. */
    method CheckpointRecord(source: nat, sid: Sid) returns (ok: bool)
      requires Underway(start, plan, entered) && pass.value.source == source && sid in records
      requires pass.value.pc.Checkpoint? && sid in pass.value.pc.todo
      modifies this`records, this`vms, this`parked, this`asked, this`steps, this`pass
      ensures Underway(old(start), old(plan), old(entered))
      ensures reliable && plan.Some? ==> ok
      ensures pass == Some(old(pass.value).(pc := Checkpoint(old(pass.value.pc.todo) - {sid})))
          || (!ok && pass == old(pass))
      ensures ok ==> records == old(records)[sid := old(records)[sid].(state := Repatriating, flagged := true)]
      ensures records.Keys == old(records.Keys)
      ensures old(vms) - {(OnDemand(source), sid)} <= vms <= old(vms)
      ensures asked == old(asked) + if (OnDemand(source), sid) in old(vms) then [(OnDemand(source), sid)] else []
    {
      if plan.Some? { RunsOrIsSuspended(sid); }
      if (OnDemand(source), sid) in vms {
        ok := SuspendSandbox(source, sid);
        if !ok {
          return false;
        }
      } else if (OnDemand(source), sid) !in parked {
        return false;
      }
      ok := FlagRecord(source, sid);
    }

    method CheckpointNext(source: nat, running: seq<Sid>, i: nat) returns (ok: bool)
      requires i < |running| && Distinct(running)
      requires Underway(start, plan, entered) && pass.value.source == source && running[i] in records
      requires pass.value.pc.Checkpoint? && running[i] in pass.value.pc.todo
      modifies this`records, this`vms, this`parked, this`asked, this`steps, this`pass
      ensures Underway(old(start), old(plan), old(entered)) && (reliable && plan.Some? ==> ok)
      ensures pass == Some(old(pass.value).(pc := Checkpoint(old(pass.value.pc.todo) - {running[i]})))
          || (!ok && pass == old(pass))
      ensures records.Keys == old(records.Keys)
      ensures asked + Requests(OnDemand(source), running[i + 1..], vms)
           == old(asked) + Requests(OnDemand(source), running[i..], old(vms))
    {
      ghost var before := vms;
      RequestsStep(OnDemand(source), running, i, vms);
      ok := CheckpointRecord(source, running[i]);
      RequestsFrame(OnDemand(source), running[i + 1..], running[i], before, vms);
    }

    /** One after the other; one that fails does not stop the others. */
    method CheckpointEach(source: nat, running: seq<Sid>) returns (ok: bool)
      requires Underway(start, plan, entered) && pass.value.source == source && Distinct(running)
      requires pass.value.pc == Checkpoint(Rest(running, 0)) && forall sid <- running :: sid in records
      modifies this`records, this`vms, this`parked, this`asked, this`steps, this`pass
      ensures Underway(old(start), old(plan), old(entered)) && (reliable && plan.Some? ==> ok)
      ensures ok ==> pass == Some(old(pass.value).(pc := Checkpoint({})))
      ensures records.Keys == old(records.Keys)
      ensures asked == old(asked) + Requests(OnDemand(source), running, old(vms))
    {
      ghost var p := pass.value;
      ok := true;
      assert running[0..] == running;
      for i := 0 to |running|
        invariant Underway(old(start), old(plan), old(entered))
        invariant pass.value == p.(pc := pass.value.pc) && pass.value.pc.Checkpoint?
            && records.Keys == old(records.Keys)
        invariant Rest(running, i) <= pass.value.pc.todo && (ok ==> pass.value.pc.todo == Rest(running, i))
        invariant reliable && plan.Some? ==> ok
        invariant asked + Requests(OnDemand(source), running[i..], vms)
               == old(asked) + Requests(OnDemand(source), running, old(vms))
      {
        RestStep(running, i);
        var done := CheckpointNext(source, running, i);
        ok := ok && done;
      }
      assert Rest(running, |running|) == {};
    }

    /** Every running sandbox not yet flagged is checkpointed: each that runs on the source is asked to
        suspend, whatever becomes of the others. */
    method CheckpointRunning(source: nat, found: seq<Sid>, snapshot: map<Sid, Record>) returns (ok: bool)
      requires Underway(start, plan, entered) && pass.value.source == source
          && Held(pass.value.originals, pass.value.unflagged, found, snapshot)
      requires pass.value.pc == Checkpoint(ToCheckpoint(pass.value)) && forall sid <- found :: sid in records
      modifies this`records, this`vms, this`parked, this`asked, this`steps, this`pass
      ensures Underway(old(start), old(plan), old(entered))
      ensures reliable && plan.Some? ==> ok
      ensures ok ==> pass == Some(old(pass.value).(pc := Handoff))
      ensures records.Keys == old(records.Keys)
      ensures asked == old(asked) + Requests(OnDemand(source), ToRun(found, snapshot), old(vms))
    {
      ghost var p := pass.value;
      var running := ToRun(found, snapshot);
      ToRunIsToCheckpoint(p, found, snapshot);
      ok := CheckpointEach(source, running);
      if ok {
        FlagsDone(Now(), pass.value);
        Track(Now(), true, Go, Some(p.(pc := Handoff)));
      }
    }

    // ---------- handing the volume over ----------

    lemma SourceLetsGo()
      requires Underway(start, plan, entered) && plan.Some? && pass.value.pc.UnmountSource?
      ensures !UnmountRefused(Now(), OnDemand(pass.value.source), StateVolume)
    {
      InHandNow();
      PlanUnmountsSource(Now(), plan.value);
    }

    method UnmountFromSource(source: nat) returns (ok: bool)
      requires Underway(start, plan, entered) && pass.value.source == source && pass.value.pc == UnmountSource
      requires AttachedTo(Now(), StateVolume, OnDemand(source))
      modifies this`mounted, this`parked, this`steps, this`pass
      ensures Underway(old(start), old(plan), old(entered)) && (reliable && plan.Some? ==> ok)
      ensures ok ==> pass == Some(old(pass.value).(pc := DetachSource))
    {
      ghost var before, p := Now(), pass.value;
      if plan.Some? { SourceLetsGo(); }
      UnmountsSource(before, p);
      ghost var took;
      ok, took := Unmount(OnDemand(source), StateVolume);
      Track(before, took, Go, Some(p.(pc := DetachSource)));
    }

    lemma SourceDetaches()
      requires Underway(start, plan, entered) && plan.Some? && pass.value.pc.DetachSource?
      ensures AttachedTo(Now(), StateVolume, OnDemand(pass.value.source))
    {
      InHandNow();
      PlanDetachesSource(Now(), plan.value);
    }

    method DetachFromSource(source: nat) returns (ok: bool)
      requires Underway(start, plan, entered) && pass.value.source == source && pass.value.pc == DetachSource
      modifies this`attached, this`steps, this`pass
      ensures Underway(old(start), old(plan), old(entered)) && (reliable && plan.Some? ==> ok)
      ensures ok ==> pass == Some(old(pass.value).(pc := UnmountReplaced))
    {
      ghost var before, p := Now(), pass.value;
      if plan.Some? { SourceDetaches(); }
      ghost var took;
      ok, took := Detach(StateVolume, OnDemand(source));
      if took { DetachesSource(before, p); }
      Track(before, took, Go, Some(p.(pc := UnmountReplaced)));
    }

    /** The source lets go of the state volume, if it still has it. */
    method LeaveSource(source: nat) returns (ok: bool)
      requires Underway(start, plan, entered) && pass.value.source == source && pass.value.pc == UnmountSource
      modifies this`attached, this`mounted, this`parked, this`steps, this`pass
      ensures Underway(old(start), old(plan), old(entered)) && (reliable && plan.Some? ==> ok)
      ensures ok ==> pass == Some(old(pass.value).(pc := UnmountReplaced))
    {
      ghost var p := pass.value;
      var attachment := StateVolume in attached && attached[StateVolume] == OnDemand(source);
      var lost := Fails();
      if lost {
        return false;
      }
      if attachment {
        ok := UnmountFromSource(source);
        if ok {
          ok := DetachFromSource(source);
        }
      } else {
        UnmountsSource(Now(), p);
        Track(Now(), true, Go, Some(p.(pc := UnmountReplaced)));
        ok := true;
      }
    }

    lemma TargetLetsGo()
      requires Underway(start, plan, entered) && plan.Some? && pass.value.pc.UnmountReplaced?
      ensures var p := pass.value;
        AttachedTo(Now(), p.replaced, Spot(p.target)) ==> !UnmountRefused(Now(), Spot(p.target), p.replaced)
    {
      InHandNow();
      PlanUnmountsReplaced(Now(), plan.value);
    }

    method UnmountFromTarget(target: nat, replaced: Volume) returns (ok: bool)
      requires Underway(start, plan, entered) && pass.value.target == target && pass.value.replaced == replaced
      requires pass.value.pc == UnmountReplaced && AttachedTo(Now(), replaced, Spot(target))
      modifies this`mounted, this`parked, this`steps, this`pass
      ensures Underway(old(start), old(plan), old(entered)) && (reliable && plan.Some? ==> ok)
      ensures ok ==> pass == Some(old(pass.value).(pc := DetachReplaced))
    {
      ghost var before, p := Now(), pass.value;
      if plan.Some? { TargetLetsGo(); }
      UnmountsReplaced(before, p);
      ghost var took;
      ok, took := Unmount(Spot(target), replaced);
      Track(before, took, Go, Some(p.(pc := DetachReplaced)));
    }

    lemma TargetDetaches()
      requires Underway(start, plan, entered) && plan.Some? && pass.value.pc.DetachReplaced?
      ensures AttachedTo(Now(), pass.value.replaced, Spot(pass.value.target))
    {
      InHandNow();
      PlanDetachesReplaced(Now(), plan.value);
    }

    method DetachFromTarget(target: nat, replaced: Volume) returns (ok: bool)
      requires Underway(start, plan, entered) && pass.value.target == target && pass.value.replaced == replaced
      requires pass.value.pc == DetachReplaced
      modifies this`attached, this`steps, this`pass
      ensures Underway(old(start), old(plan), old(entered)) && (reliable && plan.Some? ==> ok)
      ensures ok ==> pass == Some(old(pass.value).(pc := AttachTarget))
    {
      ghost var before, p := Now(), pass.value;
      if plan.Some? { TargetDetaches(); }
      ghost var took;
      ok, took := Detach(replaced, Spot(target));
      if took { DetachesReplaced(before, p); }
      Track(before, took, Go, Some(p.(pc := AttachTarget)));
    }

    /** The Spot host lets go of the volume it was born with. */
    method LeaveReplaced(target: nat, replaced: Volume) returns (ok: bool)
      requires Underway(start, plan, entered) && pass.value.target == target && pass.value.replaced == replaced
      requires pass.value.pc == UnmountReplaced
      modifies this`attached, this`mounted, this`parked, this`steps, this`pass
      ensures Underway(old(start), old(plan), old(entered)) && (reliable && plan.Some? ==> ok)
      ensures ok ==> pass == Some(old(pass.value).(pc := AttachTarget))
    {
      ghost var p := pass.value;
      var attachment := replaced in attached && attached[replaced] == Spot(target);
      var lost := Fails();
      if lost {
        return false;
      }
      if attachment {
        ok := UnmountFromTarget(target, replaced);
        if ok {
          ok := DetachFromTarget(target, replaced);
        }
      } else {
        UnmountsReplaced(Now(), p);
        Track(Now(), true, Go, Some(p.(pc := AttachTarget)));
        ok := true;
      }
    }

    lemma TargetAttaches()
      requires Underway(start, plan, entered) && plan.Some? && pass.value.pc.AttachTarget?
      ensures var dst := Spot(pass.value.target);
        dst !in gone && (AttachedTo(Now(), StateVolume, dst) || Available(Now(), StateVolume))
    {
      InHandNow();
      PlanAttaches(Now(), plan.value);
    }

    method AttachToTarget(target: nat) returns (ok: bool)
      requires Underway(start, plan, entered) && pass.value.target == target && pass.value.pc == AttachTarget
      modifies this`attached, this`steps, this`pass
      ensures Underway(old(start), old(plan), old(entered))
      ensures reliable && Available(old(Now()), StateVolume) && Spot(target) !in gone ==> ok
      ensures ok ==> pass == Some(old(pass.value).(pc := MountTarget))
    {
      ghost var before, p := Now(), pass.value;
      ghost var took;
      ok, took := Attach(StateVolume, Spot(target));
      if took { Attaches(before, p); }
      Track(before, took, Go, Some(p.(pc := MountTarget)));
    }

    ghost method FoundAttached(target: nat)
      requires Underway(start, plan, entered) && pass.value.target == target && pass.value.pc == AttachTarget
      requires AttachedTo(Now(), StateVolume, Spot(target)) && Spot(target) !in gone
      modifies this`steps, this`pass
      ensures Underway(old(start), old(plan), old(entered)) && pass == Some(old(pass.value).(pc := MountTarget))
    {
      FindsAttached(Now(), pass.value);
      Track(Now(), true, Go, Some(pass.value.(pc := MountTarget)));
    }

    /** The state volume is attached to the Spot host unless it is already; a volume that is not
        available is an error, and so is a host that is gone. */
    method EnterTarget(target: nat) returns (ok: bool)
      requires Underway(start, plan, entered) && pass.value.target == target && pass.value.pc == AttachTarget
      modifies this`attached, this`steps, this`pass
      ensures Underway(old(start), old(plan), old(entered)) && (reliable && plan.Some? ==> ok)
      ensures ok ==> pass == Some(old(pass.value).(pc := MountTarget))
    {
      if plan.Some? { TargetAttaches(); }
      var attachment := StateVolume in attached && attached[StateVolume] == Spot(target);
      var lost := Fails();
      if lost || Spot(target) in gone {
        return false;
      }
      if attachment {
        FoundAttached(target);
        ok := true;
      } else {
        ok := AttachToTarget(target);
      }
    }

    lemma TargetMounts()
      requires Underway(start, plan, entered) && plan.Some? && pass.value.pc.MountTarget?
      ensures var dst := Spot(pass.value.target); AttachedTo(Now(), StateVolume, dst) && !Resident(Now(), dst)
    {
      InHandNow();
      PlanMounts(Now(), plan.value);
    }

    method MountOnTarget(target: nat) returns (ok: bool)
      requires Underway(start, plan, entered) && pass.value.target == target && pass.value.pc == MountTarget
      modifies this`mounted, this`steps, this`pass
      ensures Underway(old(start), old(plan), old(entered)) && (reliable && plan.Some? ==> ok)
      ensures ok ==> pass == Some(old(pass.value).(pc := Move(old(pass.value).originals.Keys, {})))
    {
      ghost var before, p := Now(), pass.value;
      if plan.Some? { TargetMounts(); }
      ghost var took;
      ok, took := Mount(Spot(target), StateVolume);
      if took { Mounting(before, p); }
      Track(before, took, Go, Some(p.(pc := Move(p.originals.Keys, {}))));
    }

    lemma IdentitiesDiffer()
      requires Underway(start, plan, entered) && plan.Some? && pass.value.pc.Handoff?
      ensures pass.value.replaced != StateVolume && pass.value.target in spotClaims
    {
      InHandNow();
      PlanHandsOff(Now(), plan.value);
    }

    /** Refused when both volumes are one, or the claim is lost. */
    method CheckHandoff(target: nat, replaced: Volume) returns (ok: bool)
      requires Underway(start, plan, entered) && pass.value.target == target && pass.value.replaced == replaced
      requires pass.value.pc == Handoff
      modifies this`steps, this`pass
      ensures Underway(old(start), old(plan), old(entered)) && (reliable && plan.Some? ==> ok)
      ensures ok <==> pass == Some(old(pass.value).(pc := UnmountSource))
      ensures ok ==> replaced != StateVolume && target in spotClaims
    {
      ghost var p := pass.value;
      if plan.Some? { IdentitiesDiffer(); }
      var lost := Fails();
      if replaced == StateVolume || target !in spotClaims || lost {
        return false;
      }
      ChecksIdentity(Now(), p);
      Track(Now(), true, Go, Some(p.(pc := UnmountSource)));
      ok := true;
    }

    /** The source lets go of the state volume, the target of the one it was born with, and the state
        volume is attached and mounted there. */
    method HandOver(source: nat, target: nat, replaced: Volume) returns (ok: bool)
      requires Underway(start, plan, entered) && pass.value.source == source && pass.value.pc == Handoff
      requires pass.value.target == target && pass.value.replaced == replaced
      modifies this`attached, this`mounted, this`parked, this`steps, this`pass
      ensures Underway(old(start), old(plan), old(entered)) && (reliable && plan.Some? ==> ok)
      ensures ok ==> pass == Some(old(pass.value).(pc := Move(old(pass.value).originals.Keys, {})))
    {
      ok := CheckHandoff(target, replaced);
      if ok { ok := LeaveSource(source); }
      if ok { ok := LeaveReplaced(target, replaced); }
      if ok { ok := EnterTarget(target); }
      if ok { ok := MountOnTarget(target); }
    }

    // ---------- moving the records, resuming, cleaning up ----------

    /** Nothing to write now: the record waits for its resume. */
    ghost method LeaveForResume(sid: Sid)
      requires Underway(start, plan, entered) && pass.value.pc.Move? && sid in pass.value.pc.todo && sid in records
      requires records[sid].original.None? || records[sid].original.value == Running
      modifies this`steps, this`pass
      ensures Underway(old(start), old(plan), old(entered))
      ensures var pc := old(pass.value.pc);
        pass == Some(old(pass.value).(pc := Move(pc.todo - {sid}, pc.toResume + {sid})))
    {
      ghost var pc := pass.value.pc;
      PassSteps.Waits(Now(), pass.value, sid);
      Track(Now(), true, OnRecord(sid), Some(pass.value.(pc := Move(pc.todo - {sid}, pc.toResume + {sid}))));
    }

    method MoveRecord(target: nat, sid: Sid) returns (ok: bool)
      requires Underway(start, plan, entered) && pass.value.target == target
      requires pass.value.pc.Move? && sid in pass.value.pc.todo && sid in records
      requires records[sid].original.Some? && records[sid].original.value != Running
      modifies this`records, this`steps, this`pass
      ensures Underway(old(start), old(plan), old(entered)) && (reliable ==> ok)
      ensures ok ==> records == old(records)[sid :=
                old(records)[sid].(state := old(records)[sid].original.value, target := Some(Spot(target)))]
      ensures var pc := old(pass.value.pc);
        ok ==> pass == Some(old(pass.value).(pc := Move(pc.todo - {sid}, pc.toResume)))
      ensures records.Keys == old(records.Keys)
    {
      ghost var before, p := Now(), pass.value;
      PassSteps.Moves(before, p, sid);
      ghost var took;
      ok, took := ForceUpdate(sid, records[sid].(state := records[sid].original.value, target := Some(Spot(target))));
      Track(before, took, OnRecord(sid), Some(p.(pc := Move(p.pc.todo - {sid}, p.pc.toResume))));
    }

    /** Records that were not running move; the others are listed for their resume. */
    method MoveRecords(target: nat, found: seq<Sid>) returns (ok: bool, running: seq<Sid>)
      requires Underway(start, plan, entered) && pass.value.target == target
      requires pass.value.pc == Move(Rest(found, 0), {}) && Distinct(found) && forall sid <- found :: sid in records
      modifies this`records, this`steps, this`pass
      ensures Underway(old(start), old(plan), old(entered)) && (reliable ==> ok)
      ensures ok ==> Distinct(running) && pass == Some(old(pass.value).(pc := Move({}, Rest(running, 0))))
      ensures records.Keys == old(records.Keys) && forall sid <- running :: sid in records
    {
      ghost var p := pass.value;
      running := [];
      assert Rest([], 0) == {};
      for i := 0 to |found|
        invariant Underway(old(start), old(plan), old(entered)) && records.Keys == old(records.Keys)
        invariant pass == Some(p.(pc := Move(Rest(found, i), Rest(running, 0))))
        invariant Distinct(running) && (forall sid <- running :: sid in records) && Rest(running, 0) !! Rest(found, i)
      {
        var sid := found[i];
        RestStep(found, i);
        var record := records[sid];
        if record.original.None? || record.original.value == Running {
          LeaveForResume(sid);
          RestSnoc(running, sid);
          running := running + [sid];
        } else {
          ok := MoveRecord(target, sid);
          if !ok {
            return false, running;
          }
        }
      }
      ok := true;
    }

    lemma TargetHasVolume()
      requires Underway(start, plan, entered) && plan.Some? && (pass.value.pc.Move? || pass.value.pc.ResumeAll?)
      ensures Mounts(Now(), Spot(pass.value.target), StateVolume) && pass.value.target in spotClaims
      ensures pass.value.target == plan.value.target
      ensures pass.value.pc.Move? ==> !Resident(Now(), Spot(pass.value.target))
    {
      InHandNow();
      PlanMoves(Now(), plan.value);
    }

    method ResumeSandbox(target: nat, sid: Sid) returns (ok: bool)
      requires Underway(start, plan, entered) && pass.value.target == target
      requires pass.value.pc.ResumeAll? && sid in pass.value.pc.todo
      requires plan.Some? ==> (Spot(target), sid) !in vms
      modifies this`vms, this`parked, this`asked, this`steps, this`pass
      ensures Underway(old(start), old(plan), old(entered)) && (reliable && plan.Some? ==> ok)
      ensures pass == old(pass) && vms <= old(vms) + {(Spot(target), sid)}
      ensures ok ==> (Spot(target), sid) in vms
      ensures asked == old(asked) + [(Spot(target), sid)]
    {
      ghost var before, p := Now(), pass.value;
      if plan.Some? { TargetHasVolume(); }
      ghost var took;
      ok, took := ResumeVmOn(Spot(target), sid);
      if took { PassSteps.Resumes(before, p, sid); }
      Track(before, took, ResumeVm(sid), pass);
    }

    method LandRecord(target: nat, sid: Sid) returns (ok: bool)
      requires Underway(start, plan, entered) && pass.value.target == target && sid in records
      requires pass.value.pc.ResumeAll? && sid in pass.value.pc.todo && (Spot(target), sid) in vms
      modifies this`records, this`steps, this`pass
      ensures Underway(old(start), old(plan), old(entered)) && (reliable ==> ok)
      ensures pass == Some(old(pass.value).(pc := ResumeAll(old(pass.value.pc.todo) - {sid})))
          || (!ok && pass == old(pass))
      ensures ok ==> records == old(records)[sid := old(records)[sid].(state := Running, target := Some(Spot(target)))]
      ensures records.Keys == old(records.Keys)
    {
      ghost var before, p := Now(), pass.value;
      Lands(before, p, sid);
      ghost var took;
      ok, took := ForceUpdate(sid, records[sid].(state := Running, target := Some(Spot(target))));
      Track(before, took, OnRecord(sid), Some(p.(pc := ResumeAll(p.pc.todo - {sid}))));
    }

    method ResumeRecord(target: nat, sid: Sid) returns (ok: bool)
      requires Underway(start, plan, entered) && pass.value.target == target && sid in records
      requires pass.value.pc.ResumeAll? && sid in pass.value.pc.todo
      requires plan.Some? ==> (Spot(target), sid) !in vms
      modifies this`records, this`vms, this`parked, this`asked, this`steps, this`pass
      ensures Underway(old(start), old(plan), old(entered)) && (reliable && plan.Some? ==> ok)
      ensures pass == Some(old(pass.value).(pc := ResumeAll(old(pass.value.pc.todo) - {sid})))
          || (!ok && pass == old(pass))
      ensures records.Keys == old(records.Keys) && vms <= old(vms) + {(Spot(target), sid)}
      ensures ok ==> (Spot(target), sid) in vms && sid in old(records)
      ensures ok ==> records == old(records)[sid := old(records)[sid].(state := Running, target := Some(Spot(target)))]
      ensures asked == old(asked) + [(Spot(target), sid)]
    {
      ok := ResumeSandbox(target, sid);
      if ok {
        ok := LandRecord(target, sid);
      }
    }

    ghost method BeginResumes(running: seq<Sid>)
      requires Underway(start, plan, entered) && pass.value.pc == Move({}, Rest(running, 0))
      requires running == [] || pass.value.target in spotClaims
      modifies this`steps, this`pass
      ensures Underway(old(start), old(plan), old(entered))
      ensures pass == Some(old(pass.value).(pc := ResumeAll(Rest(running, 0))))
    {
      if running == [] { assert Rest(running, 0) == {}; }
      PassSteps.MovesDone(Now(), pass.value);
      Track(Now(), true, Go, Some(pass.value.(pc := ResumeAll(Rest(running, 0)))));
    }

    method ResumeNext(target: nat, running: seq<Sid>, i: nat) returns (ok: bool)
      requires i < |running| && Distinct(running)
      requires Underway(start, plan, entered) && pass.value.target == target && running[i] in records
      requires pass.value.pc.ResumeAll? && running[i] in pass.value.pc.todo
      requires plan.Some? ==> forall sid <- running[i..] :: (Spot(target), sid) !in vms
      modifies this`records, this`vms, this`parked, this`asked, this`steps, this`pass
      ensures Underway(old(start), old(plan), old(entered)) && (reliable && plan.Some? ==> ok)
      ensures pass == Some(old(pass.value).(pc := ResumeAll(old(pass.value.pc.todo) - {running[i]})))
          || (!ok && pass == old(pass))
      ensures records.Keys == old(records.Keys)
      ensures plan.Some? ==> forall sid <- running[i + 1..] :: (Spot(target), sid) !in vms
      ensures asked + Each(Spot(target), running[i + 1..]) == old(asked) + Each(Spot(target), running[i..])
    {
      EachStep(Spot(target), running, i);
      assert running[i..] == [running[i]] + running[i + 1..];
      ok := ResumeRecord(target, running[i]);
    }

    /** One after the other; one that fails does not stop the others. */
    method ResumeEach(target: nat, running: seq<Sid>) returns (ok: bool)
      requires Underway(start, plan, entered) && pass.value.target == target && Distinct(running)
      requires pass.value.pc == ResumeAll(Rest(running, 0)) && forall sid <- running :: sid in records
      requires plan.Some? ==> forall sid <- running :: (Spot(target), sid) !in vms
      modifies this`records, this`vms, this`parked, this`asked, this`steps, this`pass
      ensures Underway(old(start), old(plan), old(entered)) && (reliable && plan.Some? ==> ok)
      ensures ok ==> pass == Some(old(pass.value).(pc := ResumeAll({})))
      ensures asked == old(asked) + Each(Spot(target), running)
    {
      ghost var p := pass.value;
      ok := true;
      assert running[0..] == running;
      for i := 0 to |running|
        invariant Underway(old(start), old(plan), old(entered))
        invariant pass.value == p.(pc := pass.value.pc) && pass.value.pc.ResumeAll? && records.Keys == old(records.Keys)
        invariant Rest(running, i) <= pass.value.pc.todo && (ok ==> pass.value.pc.todo == Rest(running, i))
        invariant plan.Some? ==> forall sid <- running[i..] :: (Spot(target), sid) !in vms
        invariant reliable && plan.Some? ==> ok
        invariant asked + Each(Spot(target), running[i..]) == old(asked) + Each(Spot(target), running)
      {
        RestStep(running, i);
        var done := ResumeNext(target, running, i);
        ok := ok && done;
      }
      assert Rest(running, |running|) == {};
    }

    ghost method EndResumes()
      requires Underway(start, plan, entered) && pass.value.pc == ResumeAll({})
      modifies this`steps, this`pass
      ensures Underway(old(start), old(plan), old(entered)) && pass == Some(old(pass.value).(pc := CheckHealth))
    {
      ResumesDone(Now(), pass.value);
      Track(Now(), true, Go, Some(pass.value.(pc := CheckHealth)));
    }

    /** The running records resume on the Spot host: each is asked for, whatever becomes of the others. */
    method ResumeRunning(target: nat, running: seq<Sid>) returns (ok: bool)
      requires Underway(start, plan, entered) && pass.value.target == target && Distinct(running)
      requires pass.value.pc == ResumeAll(Rest(running, 0)) && forall sid <- running :: sid in records
      requires plan.Some? ==> forall sid <- running :: (Spot(target), sid) !in vms
      modifies this`records, this`vms, this`parked, this`asked, this`steps, this`pass
      ensures Underway(old(start), old(plan), old(entered)) && (reliable && plan.Some? ==> ok)
      ensures ok ==> pass == Some(old(pass.value).(pc := CheckHealth))
      ensures asked == old(asked) + Each(Spot(target), running)
    {
      ok := ResumeEach(target, running);
      if ok { EndResumes(); }
    }

    lemma TargetIsHealthy()
      requires Underway(start, plan, entered) && plan.Some? && pass.value.pc.CheckHealth?
      ensures var p := pass.value;
        Mounts(Now(), Spot(p.target), StateVolume) && |Entries(Now(), Spot(p.target))| >= |RunningBefore(p)|
    {
      InHandNow();
      PlanIsHealthy(Now(), plan.value);
    }

    /** The Spot host must report the state volume and as many sandboxes as were running. */
    method CheckTarget(target: nat, found: seq<Sid>, snapshot: map<Sid, Record>) returns (ok: bool)
      requires Underway(start, plan, entered) && pass.value.target == target && pass.value.pc == CheckHealth
      requires Held(pass.value.originals, pass.value.unflagged, found, snapshot)
          && forall sid <- found :: sid in snapshot
      modifies this`steps, this`pass
      ensures Underway(old(start), old(plan), old(entered)) && (reliable && plan.Some? ==> ok)
      ensures ok ==> pass == Some(old(pass.value).(pc := DeleteReplaced)) && Mounts(Now(), Spot(target), StateVolume)
      ensures if IsHealthy(mounted, vms + parked, target, found, snapshot) then reliable ==> ok else !ok
    {
      ghost var p := pass.value;
      if plan.Some? { TargetIsHealthy(); }
      var expected := set sid | sid in found && OriginalOf(snapshot[sid]) == Running;
      ExpectedRunning(p, found, snapshot);
      var reported := set x | x in vms + parked && x.0 == Spot(target) :: x.1;
      assert reported == Entries(Now(), Spot(target));
      var lost := Fails();
      if lost || !(Spot(target) in mounted && mounted[Spot(target)] == StateVolume) || |reported| < |expected| {
        return false;
      }
      PassSteps.ChecksHealth(Now(), p);
      Track(Now(), true, Go, Some(p.(pc := DeleteReplaced)));
      ok := true;
    }

    lemma ReplacedIsDetached()
      requires Underway(start, plan, entered) && plan.Some? && pass.value.pc.DeleteReplaced?
      ensures pass.value.replaced !in attached
    {
      InHandNow();
      PlanDeletes(Now(), plan.value);
    }

    method DeleteOld(replaced: Volume) returns (ok: bool)
      requires Underway(start, plan, entered) && pass.value.replaced == replaced && pass.value.pc == DeleteReplaced
      modifies this`deleted, this`steps, this`pass
      ensures Underway(old(start), old(plan), old(entered)) && (reliable && replaced !in attached ==> ok)
      ensures ok ==> pass == Some(old(pass.value).(pc := ReleaseClaim)) && replaced in deleted
    {
      ghost var before, p := Now(), pass.value;
      ghost var took;
      ok, took := Delete(replaced);
      if took { DeletesReplaced(before, p); }
      Track(before, took, Go, Some(p.(pc := ReleaseClaim)));
    }

    method GiveClaimBack(target: nat) returns (ok: bool)
      requires Underway(start, plan, entered) && pass.value.target == target && pass.value.pc == ReleaseClaim
      modifies this`spotClaims, this`steps, this`pass
      ensures Underway(old(start), old(plan), old(entered)) && (reliable && plan.Some? ==> ok)
      ensures ok ==> pass == Some(old(pass.value).(pc := Terminate)) && target !in spotClaims
    {
      ghost var before, p := Now(), pass.value;
      ghost var took;
      ok, took := ReleaseClaimOn(target);
      Releases(before, p);
      Track(before, took, Go, Some(p.(pc := Terminate)));
    }

    /** The last step: it ends the pass even when its answer is lost. */
    method TerminateSource(source: nat) returns (ok: bool)
      requires Underway(start, plan, entered) && pass.value.source == source && pass.value.pc == Terminate
      modifies this`gone, this`mounted, this`vms, this`parked, this`attached, this`steps, this`pass
      ensures Ran(start, steps, Now(), plan, entered) && start == old(start) && plan == old(plan)
          && entered == old(entered)
      ensures (ok ==> pass.None? && OnDemand(source) in gone) && (reliable ==> ok)
    {
      ghost var before, p := Now(), pass.value;
      PassSteps.Terminates(before, p);
      ghost var took;
      ok, took := TerminateHost(OnDemand(source));
      Track(before, took, Go, None);
    }

    method LetGo(source: nat, target: nat) returns (ok: bool)
      requires Underway(start, plan, entered) && pass.value.source == source && pass.value.target == target
      requires pass.value.pc == ReleaseClaim
      modifies this`gone, this`mounted, this`vms, this`parked, this`attached, this`spotClaims, this`steps, this`pass
      ensures Ran(start, steps, Now(), plan, entered) && start == old(start) && plan == old(plan)
          && entered == old(entered)
      ensures (ok ==> pass.None?) && (reliable && plan.Some? ==> ok)
      ensures ok ==> target !in spotClaims && OnDemand(source) in gone
    {
      ok := GiveClaimBack(target);
      if ok { ok := TerminateSource(source); }
    }

    method CleanUp(source: nat, target: nat, replaced: Volume) returns (ok: bool)
      requires Underway(start, plan, entered) && pass.value.source == source && pass.value.target == target
      requires pass.value.replaced == replaced && pass.value.pc == DeleteReplaced
      modifies this`gone, this`mounted, this`vms, this`parked, this`attached, this`deleted, this`spotClaims,
          this`steps, this`pass
      ensures Ran(start, steps, Now(), plan, entered) && start == old(start) && plan == old(plan)
          && entered == old(entered)
      ensures (ok ==> pass.None?) && (reliable && plan.Some? ==> ok)
      ensures ok ==> replaced in deleted && target !in spotClaims && OnDemand(source) in gone
    {
      if plan.Some? { ReplacedIsDetached(); }
      ok := DeleteOld(replaced);
      if ok { ok := LetGo(source, target); }
    }

    /** Health check, then the replaced volume, the claim and the On-Demand host go. */
    method FinishUp(source: nat, target: nat, replaced: Volume, found: seq<Sid>, snapshot: map<Sid, Record>)
      returns (ok: bool)
      requires Underway(start, plan, entered) && pass.value.source == source && pass.value.target == target
      requires pass.value.replaced == replaced && pass.value.pc == CheckHealth
          && Held(pass.value.originals, pass.value.unflagged, found, snapshot)
      modifies this`gone, this`mounted, this`vms, this`parked, this`attached, this`deleted, this`spotClaims,
          this`steps, this`pass
      ensures Ran(start, steps, Now(), plan, entered) && start == old(start) && plan == old(plan)
          && entered == old(entered)
      ensures (ok ==> pass.None?) && (reliable && plan.Some? ==> ok)
      ensures !old(IsHealthy(mounted, vms + parked, target, found, snapshot)) ==>
                !ok && deleted == old(deleted) && gone == old(gone) && spotClaims == old(spotClaims)
      ensures ok ==> replaced in deleted && target !in spotClaims && OnDemand(source) in gone
    {
      ok := CheckTarget(target, found, snapshot);
      if ok { ok := CleanUp(source, target, replaced); }
    }

    // ---------- a host no record is targeted at any more ----------

    lemma ClaimIsForTarget()
      requires Underway(start, plan, entered) && plan.Some? && (pass.value.pc.ClaimTarget? || pass.value.pc.EmptyClaim?)
      ensures forall t <- spotClaims :: t == plan.value.target
      ensures pass.value.pc.ClaimTarget? && spotClaims == map[] ==> Spot(plan.value.target) in rows
    {
      InHandNow();
      PlanClaims(Now(), plan.value);
    }

    /** The session's claim, if it has one. */
    method GetClaim() returns (claim: Option<nat>)
      ensures claim.None? <==> spotClaims == map[]
      ensures claim.Some? ==> claim.value in spotClaims
    {
      if spotClaims == map[] {
        return None;
      }
      assert spotClaims.Keys != {};
      var t :| t in spotClaims.Keys;
      claim := Some(t);
    }

    ghost method FoundClaim(claim: Option<nat>)
      requires Underway(start, plan, entered) && pass.value.pc == EmptyClaim
      requires (claim.None? <==> spotClaims == map[]) && (claim.Some? ==> claim.value in spotClaims)
      modifies this`steps, this`pass
      ensures Underway(old(start), old(plan), old(entered))
      ensures pass == Some(if claim.None? then old(pass.value).(pc := EmptyUnmount)
                           else old(pass.value).(target := claim.value, replaced := spotClaims[claim.value],
                               pc := EmptyDeleteReplaced(claim.value)))
    {
      ghost var p := pass.value;
      if plan.Some? { ClaimIsForTarget(); }
      if claim.None? {
        EmptyHasNoClaim(Now(), p);
        Track(Now(), true, NoClaim, Some(p.(pc := EmptyUnmount)));
      } else {
        ghost var t := claim.value;
        EmptyClaims(Now(), p, t);
        Track(Now(), true, UseClaim(t), Some(p.(target := t, replaced := spotClaims[t], pc := EmptyDeleteReplaced(t))));
      }
    }

    lemma ReplacedIsFree()
      requires Underway(start, plan, entered) && plan.Some? && pass.value.pc.EmptyDeleteReplaced?
      ensures pass.value.replaced !in attached
    {
      InHandNow();
      PlanDeletesReplaced(Now(), plan.value);
    }

    method DeleteClaimed(t: nat, replaced: Volume) returns (ok: bool)
      requires Underway(start, plan, entered) && pass.value.replaced == replaced
          && pass.value.pc == EmptyDeleteReplaced(t)
      modifies this`deleted, this`steps, this`pass
      ensures Underway(old(start), old(plan), old(entered)) && (reliable && replaced !in attached ==> ok)
      ensures ok ==> pass == Some(old(pass.value).(pc := EmptyReleaseClaim(t)))
      ensures ok ==> deleted == old(deleted) + {replaced}
    {
      ghost var before, p := Now(), pass.value;
      ghost var took;
      ok, took := Delete(replaced);
      if took { EmptyDeletesReplaced(before, p); }
      Track(before, took, Go, Some(p.(pc := EmptyReleaseClaim(t))));
    }

    method ReleaseClaimed(t: nat) returns (ok: bool)
      requires Underway(start, plan, entered) && pass.value.pc == EmptyReleaseClaim(t)
      modifies this`spotClaims, this`steps, this`pass
      ensures Underway(old(start), old(plan), old(entered)) && (reliable ==> ok)
      ensures ok ==> pass == Some(old(pass.value).(pc := EmptyUnmount)) && spotClaims == old(spotClaims) - {t}
    {
      ghost var before, p := Now(), pass.value;
      ghost var took;
      ok, took := ReleaseClaimOn(t);
      EmptyReleases(before, p);
      Track(before, took, Go, Some(p.(pc := EmptyUnmount)));
    }

    method SettleFound(t: nat, replaced: Volume) returns (ok: bool)
      requires Underway(start, plan, entered) && pass.value.replaced == replaced
          && pass.value.pc == EmptyDeleteReplaced(t)
      modifies this`deleted, this`spotClaims, this`steps, this`pass
      ensures Underway(old(start), old(plan), old(entered)) && (reliable && replaced !in attached ==> ok)
      ensures ok ==> pass == Some(old(pass.value).(pc := EmptyUnmount))
      ensures ok ==> spotClaims == old(spotClaims) - {t} && deleted == old(deleted) + {replaced}
    {
      ok := DeleteClaimed(t, replaced);
      if ok { ok := ReleaseClaimed(t); }
    }

    method FindClaim() returns (ok: bool, claim: Option<nat>)
      requires Underway(start, plan, entered) && pass.value.pc == EmptyClaim
      modifies this`steps, this`pass
      ensures Underway(old(start), old(plan), old(entered)) && (reliable ==> ok)
      ensures pass.value.source == old(pass.value.source) && pass.value.row == old(pass.value.row)
      ensures (claim.Some? ==> claim.value in spotClaims) && (ok && claim.None? ==> spotClaims == map[])
      ensures ok ==> pass.value.pc == if claim.None? then EmptyUnmount else EmptyDeleteReplaced(claim.value)
      ensures ok && claim.Some? ==> pass.value.replaced == spotClaims[claim.value]
      ensures ok && claim.Some? && plan.Some? ==> spotClaims[claim.value] !in attached
    {
      ok, claim := false, None;
      var lost := Fails();
      if lost {
        return;
      }
      claim := GetClaim();
      FoundClaim(claim);
      if claim.Some? && plan.Some? { ReplacedIsFree(); }
      ok := true;
    }

    /** The claim's replaced volume is deleted, then the claim given back. */
    method SettleClaim() returns (ok: bool)
      requires Underway(start, plan, entered) && pass.value.pc == EmptyClaim
      modifies this`deleted, this`spotClaims, this`steps, this`pass
      ensures Underway(old(start), old(plan), old(entered)) && (reliable && plan.Some? ==> ok)
      ensures ok ==>
                pass.value.pc == EmptyUnmount && pass.value.source == old(pass.value.source)
                && pass.value.row == old(pass.value.row)
      ensures reliable && (forall t <- old(spotClaims) :: old(spotClaims)[t] !in attached) ==> ok
      ensures ok ==> Settled(old(spotClaims), old(deleted), spotClaims, deleted)
    {
      var claim;
      ok, claim := FindClaim();
      if ok && claim.Some? {
        ok := SettleFound(claim.value, spotClaims[claim.value]);
      }
    }

    method UnmountRow(source: nat, v: Volume) returns (ok: bool)
      requires Underway(start, plan, entered) && pass.value.source == source && pass.value.row == Some(v)
      requires pass.value.pc == EmptyUnmount && AttachedTo(Now(), v, OnDemand(source))
      modifies this`mounted, this`parked, this`steps, this`pass
      ensures Underway(old(start), old(plan), old(entered))
      ensures ok ==> pass == Some(old(pass.value).(pc := EmptyDetach(v)))
      ensures if RowStuck(attached, old(mounted), vms, OnDemand(source), Some(v)) then !ok else reliable ==> ok
    {
      ghost var before, p := Now(), pass.value;
      ghost var took;
      ok, took := Unmount(OnDemand(source), v);
      if took { EmptyUnmounts(before, p); }
      Track(before, took, Go, Some(p.(pc := EmptyDetach(v))));
    }

    method DetachRow(source: nat, v: Volume) returns (ok: bool)
      requires Underway(start, plan, entered) && pass.value.source == source && pass.value.pc == EmptyDetach(v)
      modifies this`attached, this`steps, this`pass
      ensures Underway(old(start), old(plan), old(entered))
      ensures ok ==> pass == Some(old(pass.value).(pc := EmptyDelete(v))) && v !in attached
      ensures reliable && AttachedTo(old(Now()), v, OnDemand(source)) ==> ok
    {
      ghost var before, p := Now(), pass.value;
      ghost var took;
      ok, took := Detach(v, OnDemand(source));
      if took { EmptyDetaches(before, p); }
      Track(before, took, Go, Some(p.(pc := EmptyDelete(v))));
    }

    method DeleteRow(v: Volume) returns (ok: bool)
      requires Underway(start, plan, entered) && pass.value.pc == EmptyDelete(v)
      modifies this`deleted, this`steps, this`pass
      ensures Underway(old(start), old(plan), old(entered)) && (reliable && v !in attached ==> ok)
      ensures ok ==> pass == Some(old(pass.value).(pc := Terminate)) && deleted == old(deleted) + {v}
    {
      ghost var before, p := Now(), pass.value;
      ghost var took;
      ok, took := Delete(v);
      if took { EmptyDeletes(before, p); }
      Track(before, took, Go, Some(p.(pc := Terminate)));
    }

    ghost method SkipUnmount(source: nat)
      requires Underway(start, plan, entered) && pass.value.source == source && pass.value.pc == EmptyUnmount
      requires pass.value.row.Some? ==> !AttachedTo(Now(), pass.value.row.value, OnDemand(source))
      modifies this`steps, this`pass
      ensures Underway(old(start), old(plan), old(entered))
      ensures var row := old(pass.value).row;
        pass == Some(old(pass.value).(
                       pc := if row.Some? && Available(Now(), row.value) then EmptyDelete(row.value) else Terminate))
    {
      ghost var p := pass.value;
      EmptySkips(Now(), p);
      Track(Now(), true, Go,
            Some(p.(pc := if p.row.Some? && Available(Now(), p.row.value)
                          then EmptyDelete(p.row.value) else Terminate)));
    }

    lemma VolumeMovedOn()
      requires Underway(start, plan, entered) && plan.Some? && pass.value.pc.EmptyUnmount?
      ensures var p := pass.value;
        p.row.Some? ==> !AttachedTo(Now(), p.row.value, OnDemand(p.source)) && !Available(Now(), p.row.value)
    {
      InHandNow();
      PlanKeepsVolume(Now(), plan.value);
    }

    method DetachAndDelete(source: nat, v: Volume) returns (ok: bool)
      requires Underway(start, plan, entered) && pass.value.source == source && pass.value.pc == EmptyDetach(v)
      modifies this`deleted, this`attached, this`steps, this`pass
      ensures Underway(old(start), old(plan), old(entered))
      ensures ok ==> pass == Some(old(pass.value).(pc := Terminate)) && deleted == old(deleted) + {v}
      ensures reliable && AttachedTo(old(Now()), v, OnDemand(source)) ==> ok
    {
      ok := DetachRow(source, v);
      if ok { ok := DeleteRow(v); }
    }

    method ReclaimAttached(source: nat, v: Volume) returns (ok: bool)
      requires Underway(start, plan, entered) && pass.value.source == source && pass.value.row == Some(v)
      requires pass.value.pc == EmptyUnmount && AttachedTo(Now(), v, OnDemand(source))
      modifies this`deleted, this`attached, this`mounted, this`parked, this`steps, this`pass
      ensures Underway(old(start), old(plan), old(entered))
      ensures ok ==> pass == Some(old(pass.value).(pc := Terminate)) && deleted == old(deleted) + {v}
      ensures if RowStuck(old(attached), old(mounted), vms, OnDemand(source), Some(v)) then !ok else reliable ==> ok
    {
      ok := UnmountRow(source, v);
      if ok { ok := DetachAndDelete(source, v); }
    }

    /** The volume in the host's row is unmounted, detached and deleted where it is attached to the
        host, deleted where it is available, and left alone otherwise. */
    method ReclaimVolume(source: nat, row: Option<Volume>) returns (ok: bool)
      requires Underway(start, plan, entered) && pass.value.source == source && pass.value.row == row
      requires pass.value.pc == EmptyUnmount
      modifies this`deleted, this`attached, this`mounted, this`parked, this`steps, this`pass
      ensures Underway(old(start), old(plan), old(entered)) && (reliable && plan.Some? ==> ok)
      ensures ok ==> pass == Some(old(pass.value).(pc := Terminate))
      ensures if RowStuck(old(attached), old(mounted), vms, OnDemand(source), row) then !ok else reliable ==> ok
      ensures ok ==> deleted == old(deleted) + RowVolume(old(attached), OnDemand(source), row)
    {
      if plan.Some? { VolumeMovedOn(); }
      var lost := Fails();
      if lost {
        return false;
      }
      if row.Some? && row.value in attached && attached[row.value] == OnDemand(source) {
        ok := ReclaimAttached(source, row.value);
      } else {
        var available := row.Some? && row.value !in attached && row.value !in deleted;
        SkipUnmount(source);
        ok := true;
        if available {
          ok := DeleteRow(row.value);
        }
      }
    }

    method GiveUpVolumes(source: nat, row: Option<Volume>) returns (ok: bool)
      requires Underway(start, plan, entered) && pass.value.source == source && pass.value.row == row
      requires pass.value.pc == EmptyClaim
      modifies this`mounted, this`parked, this`attached, this`deleted, this`spotClaims, this`steps, this`pass
      ensures Underway(old(start), old(plan), old(entered)) && (reliable && plan.Some? ==> ok)
      ensures ok ==> pass.value.source == source && pass.value.pc == Terminate
      ensures RowStuck(old(attached), old(mounted), vms, OnDemand(source), row) ==> !ok
      ensures reliable && (forall t <- old(spotClaims) :: old(spotClaims)[t] !in old(attached)) ==>
                ok || RowStuck(old(attached), old(mounted), vms, OnDemand(source), row)
      ensures ok ==> exists others: set<Volume> ::
                Settled(old(spotClaims), old(deleted), spotClaims, others)
                && deleted == others + RowVolume(old(attached), OnDemand(source), row)
    {
      ok := SettleClaim();
      if ok { ok := ReclaimVolume(source, row); }
    }

    /** Of an empty host: it is reclaimed, volume and all, exactly where nothing there is in the way,
        unless a call fails. */
    twostate predicate ReclaimsOrRefuses(source: nat, row: Option<Volume>, done: bool)
      reads this
    {
      var h := OnDemand(source);
      && (RowStuck(old(attached), old(mounted), old(vms), h, row) ==> !done)
      && (reliable && (forall t <- old(spotClaims) :: old(spotClaims)[t] !in old(attached)) ==>
            done || RowStuck(old(attached), old(mounted), old(vms), h, row))
      && (done ==> h in gone && exists others: set<Volume> ::
                     Settled(old(spotClaims), old(deleted), spotClaims, others)
                     && deleted == others + RowVolume(old(attached), h, row))
    }

    /** No record is targeted at the host: settle the claim, reclaim the volume, end the host. */
    method ReclaimEmpty(source: nat, row: Option<Volume>) returns (ok: bool)
      requires Underway(start, plan, entered) && pass.value.source == source && pass.value.row == row
      requires pass.value.pc == EmptyClaim
      modifies this`gone, this`mounted, this`vms, this`parked, this`attached, this`deleted, this`spotClaims,
          this`steps, this`pass
      ensures Ran(start, steps, Now(), plan, entered) && start == old(start) && plan == old(plan)
          && entered == old(entered)
      ensures (ok ==> pass.None?) && (reliable && plan.Some? ==> ok)
      ensures ReclaimsOrRefuses(source, row, ok)
    {
      ok := GiveUpVolumes(source, row);
      if ok { ok := TerminateSource(source); }
    }

    // ---------- the whole pass ----------

    /** The records targeted at the host, read consistently. */
    method FindRecords(source: nat) returns (found: seq<Sid>)
      ensures Distinct(found)
      ensures forall sid :: sid in found <==> sid in records && records[sid].target == Some(OnDemand(source))
    {
      found := [];
      var todo := records.Keys;
      while todo != {}
        invariant todo <= records.Keys && Distinct(found)
        invariant forall sid :: sid in found <==>
                    sid in records && sid !in todo && records[sid].target == Some(OnDemand(source))
        decreases |todo|
      {
        var sid :| sid in todo;
        todo := todo - {sid};
        if records[sid].target == Some(OnDemand(source)) {
          found := found + [sid];
        }
      }
    }

    /** The conditional write that claims a Spot host for the session, with the volume it reports. */
    method ClaimTargetOn(t: nat) returns (ok: bool, ghost took: bool)
      modifies this`spotClaims
      ensures ok ==> took
      ensures took ==> Spot(t) in rows
      ensures reliable && Spot(t) in rows ==> ok
      ensures Now() == if took then old(Now()).(spotClaims := old(spotClaims)[t := rows[Spot(t)]]) else old(Now())
    {
      ok, took := false, false;
      var lost := Fails();
      if !lost && Spot(t) in rows {
        spotClaims, took := spotClaims[t := rows[Spot(t)]], true;
        lost := Fails();
        ok := !lost;
      }
    }

    method ClaimNew(t: nat) returns (ok: bool)
      requires Underway(start, plan, entered) && pass.value.pc == ClaimTarget
      requires plan.Some? ==> t == plan.value.target && t !in spotClaims
      modifies this`spotClaims, this`steps, this`pass
      ensures Underway(old(start), old(plan), old(entered)) && (reliable && Spot(t) in rows ==> ok)
      ensures ok ==> t in spotClaims && Spot(t) in rows && spotClaims[t] == rows[Spot(t)]
      ensures ok ==> pass == Some(old(pass.value).(target := t, replaced := spotClaims[t],
          pc := Mark(old(pass.value).originals.Keys)))
    {
      ghost var before, p := Now(), pass.value;
      ghost var took;
      ok, took := ClaimTargetOn(t);
      if took {
        ClaimsNew(before, p, t);
        Track(before, took, NewClaim(t), Some(p.(target := t, replaced := rows[Spot(t)],
            pc := Mark(p.originals.Keys))));
      }
    }

    ghost method KeepClaim(t: nat)
      requires Underway(start, plan, entered) && pass.value.pc == ClaimTarget && t in spotClaims
      modifies this`steps, this`pass
      ensures Underway(old(start), old(plan), old(entered))
      ensures pass == Some(old(pass.value).(target := t, replaced := spotClaims[t],
          pc := Mark(old(pass.value).originals.Keys)))
    {
      ghost var p := pass.value;
      if plan.Some? { ClaimIsForTarget(); }
      PassSteps.Claims(Now(), p, t);
      Track(Now(), true, UseClaim(t), Some(p.(target := t, replaced := spotClaims[t], pc := Mark(p.originals.Keys))));
    }

    /** The session's claim, or a new one on the candidate. */
    method ClaimSpotHost(candidate: Option<nat>) returns (ok: bool, target: nat, replaced: Volume)
      requires Underway(start, plan, entered) && pass.value.pc == ClaimTarget
      requires plan.Some? ==> candidate == Some(plan.value.target)
      modifies this`spotClaims, this`steps, this`pass
      ensures Underway(old(start), old(plan), old(entered)) && (reliable && plan.Some? ==> ok)
      ensures ok ==> pass == Some(old(pass.value).(target := target, replaced := replaced,
          pc := Mark(old(pass.value).originals.Keys)))
    {
      ok, target, replaced := false, 0, StateVolume;
      var lost := Fails();
      if lost {
        return;
      }
      if plan.Some? { ClaimIsForTarget(); }
      var claim := GetClaim();
      if claim.Some? {
        KeepClaim(claim.value);
        return true, claim.value, spotClaims[claim.value];
      }
      if candidate.Some? {
        target := candidate.value;
        ok := ClaimNew(target);
        if ok {
          replaced := spotClaims[target];
        }
      }
    }

    lemma NothingOnTarget(running: seq<Sid>)
      requires Underway(start, plan, entered) && plan.Some? && pass.value.pc.Move?
      ensures forall sid <- running :: (Spot(pass.value.target), sid) !in vms
    {
      TargetHasVolume();
      forall sid | sid in running ensures (Spot(pass.value.target), sid) !in vms {
        if (Spot(pass.value.target), sid) in vms { RunsMeansResident(Now(), Spot(pass.value.target), sid); }
      }
    }

    /** From the move of the records to the last resume. */
    method MoveAndResume(target: nat, found: seq<Sid>) returns (ok: bool)
      requires Underway(start, plan, entered) && pass.value.target == target
      requires pass.value.pc == Move(Rest(found, 0), {}) && Distinct(found) && forall sid <- found :: sid in records
      modifies this`records, this`vms, this`parked, this`asked, this`steps, this`pass
      ensures Underway(old(start), old(plan), old(entered)) && (reliable && plan.Some? ==> ok)
      ensures ok ==> pass == Some(old(pass.value).(pc := CheckHealth))
    {
      var running;
      ok, running := MoveRecords(target, found);
      if !ok {
        return;
      }
      if plan.Some? { TargetHasVolume(); NothingOnTarget(running); }
      var lost := Fails();
      if running != [] && (target !in spotClaims || lost) {
        return false;
      }
      BeginResumes(running);
      ok := ResumeRunning(target, running);
    }

    /** Claim a Spot host, mark the records, checkpoint the running ones. */
    method Prepare(source: nat, candidate: Option<nat>, found: seq<Sid>, snapshot: map<Sid, Record>)
      returns (ok: bool, target: nat, replaced: Volume)
      requires Underway(start, plan, entered) && pass.value.source == source && pass.value.pc == ClaimTarget
      requires Held(pass.value.originals, pass.value.unflagged, found, snapshot)
          && forall sid <- found :: sid in records
      requires plan.Some? ==> candidate == Some(plan.value.target)
      modifies this`records, this`vms, this`parked, this`asked, this`spotClaims, this`steps, this`pass
      ensures Underway(old(start), old(plan), old(entered)) && (reliable && plan.Some? ==> ok)
      ensures records.Keys == old(records.Keys)
      ensures ok ==> pass == Some(old(pass.value).(target := target, replaced := replaced, pc := Handoff))
    {
      ok, target, replaced := ClaimSpotHost(candidate);
      if ok { ok := MarkRecords(found, snapshot); }
      if ok { ok := CheckpointRunning(source, found, snapshot); }
    }

    /** The volume, then the records and the running sandboxes go to the Spot host. */
    method Transfer(source: nat, target: nat, replaced: Volume, found: seq<Sid>) returns (ok: bool)
      requires Underway(start, plan, entered) && pass.value.source == source && pass.value.pc == Handoff
      requires pass.value.target == target && pass.value.replaced == replaced
      requires Distinct(found) && pass.value.originals.Keys == Rest(found, 0) && forall sid <- found :: sid in records
      modifies this`records, this`vms, this`parked, this`asked, this`attached, this`mounted, this`steps, this`pass
      ensures Underway(old(start), old(plan), old(entered)) && (reliable && plan.Some? ==> ok)
      ensures ok ==> pass == Some(old(pass.value).(pc := CheckHealth))
    {
      ok := HandOver(source, target, replaced);
      if ok { ok := MoveAndResume(target, found); }
    }

    /** The records are there: prepare, hand the volume over, resume, clean up. */
    method HandOff(source: nat, candidate: Option<nat>, found: seq<Sid>, snapshot: map<Sid, Record>) returns (ok: bool)
      requires Underway(start, plan, entered) && pass.value.source == source && pass.value.pc == ClaimTarget
      requires Held(pass.value.originals, pass.value.unflagged, found, snapshot)
          && forall sid <- found :: sid in records
      requires plan.Some? ==> candidate == Some(plan.value.target)
      modifies this
      ensures Ran(start, steps, Now(), plan, entered) && start == old(start) && plan == old(plan)
          && entered == old(entered)
      ensures (ok ==> pass.None?) && (reliable && plan.Some? ==> ok)
    {
      var target, replaced;
      ok, target, replaced := Prepare(source, candidate, found, snapshot);
      if ok { ok := Transfer(source, target, replaced, found); }
      if ok { ok := FinishUp(source, target, replaced, found, snapshot); }
    }

    ghost method Begin(source: nat, k: Option<Plan>)
      requires pass.None? && source in standbyClaims
      requires forall sid <- records :: records[sid].target == Some(OnDemand(source)) ==> !InFlight(records[sid].state)
      requires k.Some? ==> Startable(Now(), source, k.value)
      modifies this`start, this`steps, this`pass, this`plan, this`entered
      ensures Underway(old(Now()), k, 1) && pass == Some(FirstPass(old(Now()), source))
    {
      ghost var w := Now();
      ghost var v := w.(pass := Some(FirstPass(w, source)));
      BeginsRun(w, source, k, v);
      start, steps, pass, plan, entered := w, [(StartPass(source), v)], v.pass, k, 1;
      assert Now() == v;
    }

    /** Whatever is left of the pass is cut off; what it did stays a run. */
    ghost method Stop()
      requires Ran(start, steps, Now(), plan, entered)
      modifies this`steps, this`pass, this`plan
      ensures pass.None? && start == old(start) && Reachable(start, Actions(steps), Now())
      ensures old(pass).None? ==> Now() == old(Now())
    {
      plan := None;
      if pass.Some? {
        RanOn(start, steps, Now(), None, entered, Interrupt, Now().(pass := None));
        steps, pass := steps + [(Interrupt, Now().(pass := None))], None;
      }
      RanIsReachable(start, steps, Now(), 0);
      assert Actions(steps)[0..] == Actions(steps);
    }

    /** From the start of the pass to its end, or to the call that failed. */
    method RunPass(source: nat, candidate: Option<nat>, row: Option<Volume>, found: seq<Sid>,
                   snapshot: map<Sid, Record>)
      returns (done: bool)
      requires Underway(start, plan, entered) && pass.value.source == source && pass.value.row == row
      requires pass.value.pc == if found == [] then EmptyClaim else ClaimTarget
      requires Held(pass.value.originals, pass.value.unflagged, found, snapshot)
          && forall sid <- found :: sid in records
      requires plan.Some? ==> candidate == Some(plan.value.target)
      modifies this
      ensures Ran(start, steps, Now(), plan, entered) && start == old(start) && plan == old(plan)
      ensures (done ==> pass.None?) && (done && plan.Some? ==> Goal(Now(), plan.value))
          && (reliable && plan.Some? ==> done)
      ensures found == [] ==> ReclaimsOrRefuses(source, row, done)
    {
      if found == [] {
        done := ReclaimEmpty(source, row);
      } else {
        done := HandOff(source, candidate, found, snapshot);
      }
      if done && plan.Some? { EndsAtGoalNow(); }
    }

    lemma EndsAtGoalNow()
      requires Ran(start, steps, Now(), plan, entered) && plan.Some? && pass.None?
      ensures Goal(Now(), plan.value)
    {
      assert OnCourse(start, steps, |steps|, plan.value);
    }

    /** What the pass starts with: the host's row, the records and the state each is held for. */
    method StartPassOver(source: nat, found: seq<Sid>, ghost k: Option<Plan>) returns (row: Option<Volume>)
      requires pass.None? && source in standbyClaims && Distinct(found)
      requires forall sid :: sid in found <==> sid in records && records[sid].target == Some(OnDemand(source))
      requires forall sid <- found :: !InFlight(records[sid].state)
      requires k.Some? ==> Startable(Now(), source, k.value)
      modifies this`start, this`steps, this`pass, this`plan, this`entered
      ensures Underway(old(Now()), k, 1) && pass.value.source == source && pass.value.row == row
      ensures pass.value.pc == if found == [] then EmptyClaim else ClaimTarget
      ensures Held(pass.value.originals, pass.value.unflagged, found, records)
      ensures row == RowOf(rows, OnDemand(source))
    {
      row := if OnDemand(source) in rows then Some(rows[OnDemand(source)]) else None;
      FirstPassHolds(Now(), source, found);
      Begin(source, k);
    }

    method StartAndRun(source: nat, candidate: Option<nat>, found: seq<Sid>, ghost k: Option<Plan>)
      returns (done: bool)
      requires pass.None? && source in standbyClaims && Distinct(found)
      requires forall sid :: sid in found <==> sid in records && records[sid].target == Some(OnDemand(source))
      requires forall sid <- found :: !InFlight(records[sid].state)
      requires k.Some? ==> Startable(Now(), source, k.value) && candidate == Some(k.value.target)
      modifies this
      ensures Ran(start, steps, Now(), plan, entered) && start == old(Now()) && plan == k
      ensures (done ==> pass.None?) && (done && k.Some? ==> Goal(Now(), k.value)) && (reliable && k.Some? ==> done)
      ensures found == [] && source in old(standbyClaims) ==>
                ReclaimsOrRefuses(source, RowOf(old(rows), OnDemand(source)), done)
    {
      var snapshot := records;
      var row := StartPassOver(source, found, k);
      done := RunPass(source, candidate, row, found, snapshot);
    }

    /** A host that is not the session's, or has a record in flight, has to wait. */
    method TryPass(source: nat, candidate: Option<nat>, found: seq<Sid>, ghost k: Option<Plan>) returns (done: bool)
      requires pass.None? && start == Now() && steps == [] && plan.None? && entered == 0 && Distinct(found)
      requires forall sid :: sid in found <==> sid in records && records[sid].target == Some(OnDemand(source))
      requires k.Some? ==> Startable(Now(), source, k.value) && candidate == Some(k.value.target)
      modifies this
      ensures Ran(start, steps, Now(), plan, entered) && start == old(start)
      ensures k.Some? && done ==> pass.None? && Goal(Now(), k.value)
      ensures k.Some? && reliable ==> done
      ensures done ==> pass.None?
      ensures found == [] && source in old(standbyClaims) ==>
                ReclaimsOrRefuses(source, RowOf(old(rows), OnDemand(source)), done)
    {
      if k.Some? { StartableHost(Now(), source, k.value); }
      if source !in standbyClaims || exists sid <- found :: InFlight(records[sid].state) {
        return false;
      }
      done := StartAndRun(source, candidate, found, k);
    }

    /** One pass over a recovery host.  Whichever calls fail, what it does is a run of the protocol
        with the pass started and, unless it completed, interrupted.  Over a handoff it can start on,
        it reports success only at the goal, and it does so when no call fails; a host no record is
        targeted at it reclaims exactly where nothing is in the way. */
    method RepatriateHost(source: nat, candidate: Option<nat>, ghost k: Option<Plan>) returns (done: bool)
      requires pass.None?
      requires k.Some? ==> Startable(Now(), source, k.value) && candidate == Some(k.value.target)
      modifies this
      ensures pass.None? && start == old(Now()) && Reachable(old(Now()), Actions(steps), Now())
      ensures k.Some? && done ==> Goal(Now(), k.value)
      ensures k.Some? && reliable ==> done
      ensures source in old(standbyClaims)
              && (forall sid <- old(records) :: old(records)[sid].target != Some(OnDemand(source))) ==>
                ReclaimsOrRefuses(source, RowOf(old(rows), OnDemand(source)), done)
    {
      start, steps, plan, entered := Now(), [], None, 0;
      var found := FindRecords(source);
      done := TryPass(source, candidate, found, k);
      assert found != [] ==> found[0] in found;
      Stop();
    }
  }
}
