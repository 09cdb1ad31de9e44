/** Per-sandbox operation leases as conditional writes on one table item each, and the lease set a
    repatriation pass holds.  A caller reads the clock before its write takes effect: `now` is what
    it read, `at` when the write happens. */
module Leases {
  import opened Options

  type LeaseId = nat

  datatype Lease = Lease(id: LeaseId, expires: int)

  /** A table item, or its absence. */
  datatype Row = Absent | Present(lease: Option<Lease>)

  // ---------- conditional writes ----------

  /** The item exists and carries no lease, or one that had expired when the caller looked. */
  predicate CanAcquire(row: Row, now: int) {
    row.Present? && (row.lease.None? || row.lease.value.expires < now)
  }

  predicate HeldBy(row: Row, id: LeaseId) {
    row.Present? && row.lease.Some? && row.lease.value.id == id
  }

  function Acquired(row: Row, id: LeaseId, now: int, duration: nat): Row {
    if CanAcquire(row, now) then Present(Some(Lease(id, now + duration))) else row
  }

  /** Renewal asks only who holds the lease, not whether it has expired. */
  function Renewed(row: Row, id: LeaseId, now: int, duration: nat): Row {
    if HeldBy(row, id) then Present(Some(Lease(id, now + duration))) else row
  }

  function Released(row: Row, id: LeaseId): Row {
    if HeldBy(row, id) then Present(None) else row
  }

  // ---------- runs on one item ----------

  datatype Action =
    | Create
    | Delete
    | Acquire(id: LeaseId, now: int, duration: nat)
    | Renew(id: LeaseId, now: int, duration: nat)
    | Release(id: LeaseId)

  /** From its acquisition until the expiry it was last granted, or until its owner released it or
      its item was deleted before that.  Another acquisition does not shorten it. */
  datatype Hold = Hold(id: LeaseId, from: int, until: int)

  /** The row, when its lease was acquired, the holds already over, and the time of the last write. */
  datatype History = History(row: Row, since: int, past: seq<Hold>, clock: int)

  predicate IsHeld(h: History) {
    h.row.Present? && h.row.lease.Some?
  }

  function Current(h: History): Hold
    requires IsHeld(h)
  {
    Hold(h.row.lease.value.id, h.since, h.row.lease.value.expires)
  }

  function AllHolds(h: History): seq<Hold> {
    if IsHeld(h) then h.past + [Current(h)] else h.past
  }

  /** The holds once the current one is released, or goes with its item. */
  function Ended(h: History, at: int): seq<Hold> {
    if !IsHeld(h) then h.past
    else h.past + [Current(h).(until := if Current(h).until < at then Current(h).until else at)]
  }

  /** Writes happen in the order of one clock, no earlier than the readings they carry; lease ids
      are never reused. */
  predicate Enabled(h: History, a: Action, at: int) {
    && h.clock <= at
    && (a.Acquire? || a.Renew? ==> a.now <= at)
    && (a.Acquire? ==> forall i :: 0 <= i < |AllHolds(h)| ==> AllHolds(h)[i].id != a.id)
  }

  function Next(h: History, a: Action, at: int): History {
    match a
    case Create => if h.row.Present? then h.(clock := at) else h.(row := Present(None), clock := at)
    case Delete => History(Absent, h.since, Ended(h, at), at)
    case Acquire(id, now, duration) =>
      if CanAcquire(h.row, now)
      then History(Acquired(h.row, id, now, duration), at, AllHolds(h), at) else h.(clock := at)
    case Renew(id, now, duration) => h.(row := Renewed(h.row, id, now, duration), clock := at)
    case Release(id) =>
      if HeldBy(h.row, id) then History(Released(h.row, id), h.since, Ended(h, at), at) else h.(clock := at)
  }

  predicate Run(h: History, steps: seq<(Action, int)>, g: History)
    decreases |steps|
  {
    if steps == [] then g == h
    else Enabled(h, steps[0].0, steps[0].1) && Run(Next(h, steps[0].0, steps[0].1), steps[1..], g)
  }

  predicate Initial(h: History) {
    h.past == [] && !IsHeld(h)
  }

  // ---------- holds do not overlap ----------

  predicate Disjoint(holds: seq<Hold>) {
    forall i, j :: 0 <= i < j < |holds| ==> holds[i].until <= holds[j].from && holds[i].id != holds[j].id
  }

  predicate Inv(h: History) {
    && Disjoint(AllHolds(h))
    && (forall i :: 0 <= i < |h.past| ==> h.past[i].until <= h.clock)
    && (IsHeld(h) ==> h.since <= h.clock)
  }

  /** Ending the current hold leaves every hold over by now. */
  lemma EndedIsOver(h: History, at: int)
    requires Inv(h) && h.clock <= at
    ensures Disjoint(Ended(h, at)) && |Ended(h, at)| == |AllHolds(h)|
    ensures forall i :: 0 <= i < |Ended(h, at)| ==> Ended(h, at)[i].until <= at
  {
    var ended, all := Ended(h, at), AllHolds(h);
    assert forall i :: 0 <= i < |ended| ==>
      ended[i].id == all[i].id && ended[i].from == all[i].from && ended[i].until <= all[i].until
          && ended[i].until <= at;
  }

  /** The lease taken over had expired: its hold, as granted, was over before this write. */
  lemma AcquireKeepsInv(h: History, a: Action, at: int)
    requires Inv(h) && Enabled(h, a, at) && a.Acquire? && CanAcquire(h.row, a.now)
    ensures Inv(Next(h, a, at))
  {
    var all := AllHolds(h);
    assert AllHolds(Next(h, a, at)) == all + [Hold(a.id, at, a.now + a.duration)];
    forall i | 0 <= i < |all| ensures all[i].until <= at && all[i].id != a.id {
    }
  }

  lemma RenewKeepsInv(h: History, a: Action, at: int)
    requires Inv(h) && Enabled(h, a, at) && a.Renew? && HeldBy(h.row, a.id)
    ensures Inv(Next(h, a, at))
  {
    var all, after := AllHolds(h), AllHolds(Next(h, a, at));
    assert |after| == |all| && after[..|h.past|] == all[..|h.past|] && after[|h.past|].from == all[|h.past|].from;
    forall i, j | 0 <= i < j < |after| ensures after[i].until <= after[j].from && after[i].id != after[j].id {
      assert after[i] == all[i] && after[j].from == all[j].from && after[j].id == all[j].id;
    }
  }

  lemma NextKeepsInv(h: History, a: Action, at: int)
    requires Inv(h) && Enabled(h, a, at)
    ensures Inv(Next(h, a, at))
  {
    EndedIsOver(h, at);
    if a.Acquire? && CanAcquire(h.row, a.now) {
      AcquireKeepsInv(h, a, at);
    } else if a.Renew? && HeldBy(h.row, a.id) {
      RenewKeepsInv(h, a, at);
    }
  }

  lemma {:induction false} RunKeepsInv(h: History, steps: seq<(Action, int)>, g: History)
    requires Inv(h) && Run(h, steps, g)
    ensures Inv(g)
    decreases |steps|
  {
    if steps != [] {
      NextKeepsInv(h, steps[0].0, steps[0].1);
      RunKeepsInv(Next(h, steps[0].0, steps[0].1), steps[1..], g);
    }
  }

  /** Over all runs of acquire, renew, release, deletion and re-creation, the holds of an item
      follow one another without overlap, each under its own id. */
  lemma HoldsNeverOverlap(h: History, steps: seq<(Action, int)>, g: History)
    requires Initial(h) && Run(h, steps, g)
    ensures Disjoint(AllHolds(g))
  {
    RunKeepsInv(h, steps, g);
  }

  /** Steps until `until` that do not end or shorten the lease of `id`. */
  predicate LeavesAlone(steps: seq<(Action, int)>, id: LeaseId, until: int) {
    && (forall s <- steps :: s.1 <= until && s.0 != Delete && s.0 != Release(id))
    && (forall s <- steps :: s.0.Renew? && s.0.id == id ==> until <= s.0.now + s.0.duration)
  }

  /** The owner can rely on its lease until the expiry it was last granted: nobody else has the
      item by then, unless the owner released it or the item was deleted. */
  lemma {:induction false} HeldUntilExpiry(h: History, steps: seq<(Action, int)>, g: History, lease: Lease)
    requires Run(h, steps, g) && HeldBy(h.row, lease.id) && lease.expires <= h.row.lease.value.expires
    requires LeavesAlone(steps, lease.id, lease.expires)
    ensures HeldBy(g.row, lease.id) && g.since == h.since && lease.expires <= g.row.lease.value.expires
    decreases |steps|
  {
    if steps != [] {
      assert steps[0] in steps;
      HeldUntilExpiry(Next(h, steps[0].0, steps[0].1), steps[1..], g, lease);
    }
  }

  /** Who gets the item: whoever asks while it is there and unleased, or its lease ended before the
      clock reading the request carries.  The lease then ends the asked duration after that reading. */
  lemma AcquireExactly(h: History, id: LeaseId, now: int, duration: nat, at: int)
    ensures var row := Next(h, Acquire(id, now, duration), at).row;
      if h.row.Present? && (h.row.lease.None? || h.row.lease.value.expires < now)
      then row == Present(Some(Lease(id, now + duration)))
      else row == h.row
  {
  }

  /** A lease lasts as long as was asked for: whatever others do until then, a granted acquisition is
      still held `duration` after the reading it carried. */
  lemma GrantLasts(h: History, id: LeaseId, now: int, duration: nat, at: int, steps: seq<(Action, int)>, g: History)
    requires h.row.Present? && (h.row.lease.None? || h.row.lease.value.expires < now)
    requires Run(h, [(Acquire(id, now, duration), at)] + steps, g) && LeavesAlone(steps, id, now + duration)
    ensures g.row.Present? && g.row.lease.Some? && g.row.lease.value.id == id
    ensures now + duration <= g.row.lease.value.expires
  {
    assert ([(Acquire(id, now, duration), at)] + steps)[1..] == steps;
    HeldUntilExpiry(Next(h, Acquire(id, now, duration), at), steps, g, Lease(id, now + duration));
  }

  /** So does a renewal by the owner. */
  lemma RenewalLasts(h: History, id: LeaseId, now: int, duration: nat, at: int, steps: seq<(Action, int)>, g: History)
    requires h.row.Present? && h.row.lease.Some? && h.row.lease.value.id == id
    requires Run(h, [(Renew(id, now, duration), at)] + steps, g) && LeavesAlone(steps, id, now + duration)
    ensures g.row.Present? && g.row.lease.Some? && g.row.lease.value.id == id
    ensures now + duration <= g.row.lease.value.expires
  {
    assert ([(Renew(id, now, duration), at)] + steps)[1..] == steps;
    HeldUntilExpiry(Next(h, Renew(id, now, duration), at), steps, g, Lease(id, now + duration));
  }

  /** What its owner gives back, the next one who asks gets. */
  lemma ReleasedIsFree(h: History, id: LeaseId, at: int, next: LeaseId, now: int, duration: nat, later: int)
    requires h.row.Present? && h.row.lease.Some? && h.row.lease.value.id == id
    ensures Next(Next(h, Release(id), at), Acquire(next, now, duration), later).row
         == Present(Some(Lease(next, now + duration)))
  {
  }

  /** Once another hold has begun, whatever the old owner sends is without effect, for good. */
  predicate Over(h: History, id: LeaseId) {
    exists i :: 0 <= i < |h.past| && h.past[i].id == id
  }

  predicate By(a: Action, id: LeaseId) {
    (a.Renew? || a.Release?) && a.id == id
  }

  lemma {:induction false} OverStaysOver(h: History, steps: seq<(Action, int)>, g: History, id: LeaseId)
    requires Inv(h) && Over(h, id) && Run(h, steps, g)
    ensures Inv(g) && Over(g, id)
    decreases |steps|
  {
    if steps != [] {
      NextKeepsInv(h, steps[0].0, steps[0].1);
      var i :| 0 <= i < |h.past| && h.past[i].id == id;
      var next := Next(h, steps[0].0, steps[0].1);
      assert next.past[i] == h.past[i];
      OverStaysOver(next, steps[1..], g, id);
    }
  }

  lemma StaleOwnerChangesNothing(h: History, steps: seq<(Action, int)>, g: History, a: Action, at: int, id: LeaseId)
    requires Inv(h) && Over(h, id) && Run(h, steps, g) && By(a, id)
    ensures Next(g, a, at) == g.(clock := at)
  {
    OverStaysOver(h, steps, g, id);
    var i :| 0 <= i < |g.past| && g.past[i].id == id;
    assert AllHolds(g)[i].id == id;
    assert IsHeld(g) ==> AllHolds(g)[|g.past|] == Current(g);
  }

  /** No lease write brings a deleted item back. */
  lemma {:induction false} DeletedStaysDeleted(h: History, steps: seq<(Action, int)>, g: History)
    requires h.row.Absent? && Run(h, steps, g) && forall s <- steps :: s.0 != Create
    ensures g.row.Absent?
    decreases |steps|
  {
    if steps != [] {
      assert steps[0] in steps;
      DeletedStaysDeleted(Next(h, steps[0].0, steps[0].1), steps[1..], g);
    }
  }
}
