/** An execution of a pass as a run of VolumeHandoff, and the lists a pass works through. */
module PassRuns {
  import opened Options
  import opened Sequences
  import opened VolumeHandoff
  import opened Reentrancy
  import opened ReentrantRuns
  import opened RepatriationRuns
  import opened PassSteps

  // ---------- an execution as a run ----------

  /** The steps taken so far, each with the world it led to. */
  type Steps = seq<(Action, World)>

  function WorldAt(start: World, steps: Steps, i: nat): World
    requires i <= |steps|
  {
    if i == 0 then start else steps[i - 1].1
  }

  predicate Legal(start: World, steps: Steps, i: nat)
    requires i < |steps|
  {
    Next(WorldAt(start, steps, i), steps[i].0) == Some(steps[i].1)
  }

  /** Where the theorems about the handoff say a pass over it stays, until it ends at the goal. */
  predicate OnCourse(start: World, steps: Steps, i: nat, k: Plan)
    requires i <= |steps|
  {
    var w := WorldAt(start, steps, i);
    if w.pass.Some? then InPass(w, k) else Goal(w, k)
  }

  /** A run from `start` to `w`; if a handoff is meant, a pass over it from step `entered` on. */
  predicate Ran(start: World, steps: Steps, w: World, plan: Option<Plan>, entered: nat) {
    && WorldAt(start, steps, |steps|) == w && entered <= |steps|
    && (forall i :: 0 <= i < |steps| ==> Legal(start, steps, i))
    && (plan.Some? ==> forall i :: entered <= i <= |steps| ==> OnCourse(start, steps, i, plan.value))
  }

  function Actions(steps: Steps): seq<Action> {
    seq(|steps|, i requires 0 <= i < |steps| => steps[i].0)
  }

  lemma RanOn(start: World, steps: Steps, w: World, plan: Option<Plan>, entered: nat, a: Action, v: World)
    requires Ran(start, steps, w, plan, entered) && Next(w, a) == Some(v) && w.pass.Some?
    requires plan.Some? ==> Steady(w, a, plan.value)
    ensures Ran(start, steps + [(a, v)], v, plan, entered)
  {
    var more := steps + [(a, v)];
    forall i | 0 <= i < |more| ensures Legal(start, more, i) {
      assert i < |steps| ==> Legal(start, steps, i);
    }
    if plan.Some? {
      StaysOnCourse(start, steps, w, plan.value, entered, a, v);
      forall i | entered <= i <= |more| ensures OnCourse(start, more, i, plan.value) {
        assert i <= |steps| ==>
            OnCourse(start, steps, i, plan.value) && WorldAt(start, more, i) == WorldAt(start, steps, i);
      }
    }
  }

  lemma StaysOnCourse(start: World, steps: Steps, w: World, k: Plan, entered: nat, a: Action, v: World)
    requires Ran(start, steps, w, Some(k), entered) && Next(w, a) == Some(v) && w.pass.Some? && Steady(w, a, k)
    ensures OnCourse(start, steps + [(a, v)], |steps| + 1, k)
  {
    assert OnCourse(start, steps, |steps|, k);
    StepKeeps(w, a, k);
  }

  lemma ReachableFrom(w: World, a: Action, u: World, rest: seq<Action>, v: World)
    requires Next(w, a) == Some(u) && Reachable(u, rest, v)
    ensures Reachable(w, [a] + rest, v)
  {
    assert ([a] + rest)[1..] == rest;
  }

  lemma {:induction false} RanIsReachable(start: World, steps: Steps, w: World, i: nat)
    requires Ran(start, steps, w, None, 0) && i <= |steps|
    ensures Reachable(WorldAt(start, steps, i), Actions(steps)[i..], w)
    decreases |steps| - i
  {
    if i < |steps| {
      assert Legal(start, steps, i);
      RanIsReachable(start, steps, w, i + 1);
      ReachableFrom(WorldAt(start, steps, i), steps[i].0, WorldAt(start, steps, i + 1), Actions(steps)[i + 1..], w);
      assert Actions(steps)[i..] == [steps[i].0] + Actions(steps)[i + 1..];
    }
  }

  // ---------- lists of records ----------

  /** What is left of a list from its i-th entry on. */
  function Rest(found: seq<Sid>, i: nat): set<Sid>
    requires i <= |found|
  {
    set sid | sid in found[i..]
  }

  lemma RestStep(found: seq<Sid>, i: nat)
    requires Distinct(found) && i < |found|
    ensures found[i] in Rest(found, i) && Rest(found, i) - {found[i]} == Rest(found, i + 1)
  {
    assert found[i..] == [found[i]] + found[i + 1..];
  }

  /** The records as first read, against what the pass holds them for. */
  ghost predicate Held(
    originals: map<Sid, RecordState>, unflagged: set<Sid>, found: seq<Sid>, snapshot: map<Sid, Record>)
  {
    && Distinct(found) && originals.Keys == Rest(found, 0)
    && forall sid <- found ::
         sid in snapshot && sid in originals && originals[sid] == OriginalOf(snapshot[sid])
         && (sid in unflagged <==> !snapshot[sid].flagged)
  }

  function WithMark(r: Record, original: RecordState): Record {
    r.(state := Repatriating, original := Some(original))
  }

  predicate NeedsCheckpoint(r: Record) {
    OriginalOf(r) == Running && !r.flagged
  }

  /** The running records not yet checkpointed, in the order of the list. */
  function ToRun(found: seq<Sid>, snapshot: map<Sid, Record>): (running: seq<Sid>)
    requires forall sid <- found :: sid in snapshot
    ensures forall sid :: sid in running <==> sid in found && NeedsCheckpoint(snapshot[sid])
  {
    if found == [] then []
    else (if NeedsCheckpoint(snapshot[found[0]]) then [found[0]] else []) + ToRun(found[1..], snapshot)
  }

  lemma {:induction false} ToRunDistinct(found: seq<Sid>, snapshot: map<Sid, Record>)
    requires Distinct(found) && forall sid <- found :: sid in snapshot
    ensures Distinct(ToRun(found, snapshot))
    decreases |found|
  {
    if found != [] {
      ToRunDistinct(found[1..], snapshot);
      assert found[0] !in found[1..];
    }
  }

  lemma ToRunIsToCheckpoint(p: Pass, found: seq<Sid>, snapshot: map<Sid, Record>)
    requires Held(p.originals, p.unflagged, found, snapshot)
    ensures Distinct(ToRun(found, snapshot)) && ToCheckpoint(p) == Rest(ToRun(found, snapshot), 0)
  {
    ToRunDistinct(found, snapshot);
    var running := ToRun(found, snapshot);
    assert running[0..] == running && found[0..] == found;
    assert forall sid :: sid in p.originals <==> sid in Rest(found, 0);
  }

  lemma ExpectedRunning(p: Pass, found: seq<Sid>, snapshot: map<Sid, Record>)
    requires Held(p.originals, p.unflagged, found, snapshot)
    ensures RunningBefore(p) == set sid | sid in found && OriginalOf(snapshot[sid]) == Running
  {
    assert found[0..] == found;
    assert forall sid :: sid in p.originals <==> sid in Rest(found, 0);
  }

  lemma FirstPassHolds(w: World, n: nat, found: seq<Sid>)
    requires Distinct(found)
    requires forall sid :: sid in found <==> sid in w.records && w.records[sid].target == Some(OnDemand(n))
    ensures var p := FirstPass(w, n); Held(p.originals, p.unflagged, found, w.records)
    ensures FirstPass(w, n).pc == if found == [] then EmptyClaim else ClaimTarget
  {
    assert found[0..] == found;
    var originals := FirstPass(w, n).originals;
    assert forall sid :: sid in originals <==> sid in found;
    if found != [] { assert found[0] in originals; }
  }

  lemma RunsMeansResident(w: World, h: Host, sid: Sid)
    requires (h, sid) in w.vms
    ensures Resident(w, h)
  {
    var x := (h, sid);
    assert x in w.vms + w.parked && x.0 == h;
  }

  /** The handoff meant is one a pass over the host can start on. */
  predicate Startable(w: World, source: nat, k: Plan) {
    GoodPlan(k) && source == k.source && w.pass.None? && (Before(w, k) || After(w, k))
  }

  lemma FirstStepRan(w: World, a: Action, v: World, plan: Option<Plan>)
    requires Next(w, a) == Some(v) && v.pass.Some? && (plan.Some? ==> InPass(v, plan.value))
    ensures Ran(w, [(a, v)], v, plan, 1)
  {
    assert Legal(w, [(a, v)], 0);
    assert plan.Some? ==> OnCourse(w, [(a, v)], 1, plan.value);
  }

  lemma BeginsOnCourse(w: World, source: nat, k: Plan)
    requires Startable(w, source, k)
    requires source in w.standbyClaims
    requires forall sid <- w.records :: w.records[sid].target == Some(OnDemand(source)) ==>
        !InFlight(w.records[sid].state)
    ensures InPass(w.(pass := Some(FirstPass(w, source))), k)
  {
    Begins(w, source);
    StartEntersPass(w, k);
  }

  lemma BeginsRun(w: World, source: nat, k: Option<Plan>, v: World)
    requires w.pass.None? && source in w.standbyClaims && v == w.(pass := Some(FirstPass(w, source)))
    requires forall sid <- w.records :: w.records[sid].target == Some(OnDemand(source)) ==>
        !InFlight(w.records[sid].state)
    requires k.Some? ==> Startable(w, source, k.value)
    ensures Ran(w, [(StartPass(source), v)], v, k, 1)
  {
    Begins(w, source);
    if k.Some? { BeginsOnCourse(w, source, k.value); }
    FirstStepRan(w, StartPass(source), v, k);
  }

  lemma StartableHost(w: World, source: nat, k: Plan)
    requires Startable(w, source, k)
    ensures source in w.standbyClaims
    ensures forall sid <- w.records :: w.records[sid].target == Some(OnDemand(source)) ==>
        !InFlight(w.records[sid].state)
  {
    StartEntersPass(w, k);
    var mine := set sid | sid in w.records && w.records[sid].target == Some(OnDemand(source));
    forall sid | sid in w.records && w.records[sid].target == Some(OnDemand(source))
      ensures !InFlight(w.records[sid].state)
    {
      assert sid in mine;
    }
  }

  lemma RestSnoc(running: seq<Sid>, sid: Sid)
    requires Distinct(running) && sid !in Rest(running, 0)
    ensures Distinct(running + [sid]) && Rest(running + [sid], 0) == Rest(running, 0) + {sid}
  {
    assert running[0..] == running && (running + [sid])[0..] == running + [sid];
  }
}
