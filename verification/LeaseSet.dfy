/** The leases a repatriation pass takes on every sandbox of a volume, all of them or none. */
module LeaseSet {
  import opened Options
  import opened Sequences
  import opened Leases

  type Key = nat

  /** What the network does to one write: nothing, loses it, or applies it and loses the answer. */
  datatype Fault = Fine | Lost | Unacknowledged

  datatype Outcome = Acquired | Refused | Raised

  function RowAt(rows: map<Key, Row>, key: Key): Row {
    if key in rows then rows[key] else Absent
  }

  class LeaseTable {
    var rows: map<Key, Row>

    constructor (rows: map<Key, Row>)
      ensures this.rows == rows
    {
      this.rows := rows;
    }

    method Acquire(key: Key, id: LeaseId, now: int, duration: nat, fault: Fault) returns (o: Outcome)
      modifies this
      ensures forall k :: k != key ==> RowAt(rows, k) == RowAt(old(rows), k)
      ensures RowAt(rows, key) == if fault.Lost? then RowAt(old(rows), key)
                                  else Leases.Acquired(RowAt(old(rows), key), id, now, duration)
      ensures o == if !fault.Fine? then Raised
                   else if CanAcquire(RowAt(old(rows), key), now) then Acquired else Refused
      ensures fault.Fine? ==>
                (o == Acquired <==>
                 && key in old(rows) && old(rows)[key].Present?
                 && (old(rows)[key].lease.None? || old(rows)[key].lease.value.expires < now))
      ensures o == Acquired ==> rows == old(rows)[key := Present(Some(Lease(id, now + duration)))]
      ensures o == Refused ==> rows == old(rows)
    {
      var applies := CanAcquire(RowAt(rows, key), now);
      if applies && !fault.Lost? {
        rows := rows[key := Present(Some(Lease(id, now + duration)))];
      }
      o := if !fault.Fine? then Raised else if applies then Acquired else Refused;
    }

    method Renew(key: Key, id: LeaseId, now: int, duration: nat) returns (held: bool)
      modifies this
      ensures held == HeldBy(RowAt(old(rows), key), id)
      ensures forall k :: RowAt(rows, k) ==
                if k == key then Renewed(RowAt(old(rows), k), id, now, duration) else RowAt(old(rows), k)
      ensures held <==> key in old(rows) && old(rows)[key].Present? && old(rows)[key].lease.Some?
                        && old(rows)[key].lease.value.id == id
      ensures rows == if held then old(rows)[key := Present(Some(Lease(id, now + duration)))] else old(rows)
    {
      held := HeldBy(RowAt(rows, key), id);
      if held {
        rows := rows[key := Present(Some(Lease(id, now + duration)))];
      }
    }

    /** Errors of a release are swallowed. */
    method Release(key: Key, id: LeaseId, lost: bool)
      modifies this
      ensures forall k :: RowAt(rows, k) ==
                if k == key && !lost then Released(RowAt(old(rows), k), id) else RowAt(old(rows), k)
      ensures rows == if !lost && key in old(rows) && old(rows)[key].Present? && old(rows)[key].lease.Some?
                         && old(rows)[key].lease.value.id == id
                      then old(rows)[key := Present(None)] else old(rows)
    {
      if !lost && HeldBy(RowAt(rows, key), id) {
        rows := rows[key := Present(None)];
      }
    }
  }

  /** The writes of one attempt: the id each key is given, and what happens to each request. */
  datatype Attempt = Attempt(ids: Key -> LeaseId, now: Key -> int, duration: nat, fault: Key -> Fault,
      releaseLost: Key -> bool)

  /** Lease ids are new to the table. */
  predicate NewIds(rows: map<Key, Row>, a: Attempt) {
    forall k <- rows :: !HeldBy(rows[k], a.ids(k))
  }

  /** Everyone could be acquired, and every write was answered. */
  predicate AllAcquirable(rows: map<Key, Row>, keys: seq<Key>, a: Attempt) {
    forall k <- keys :: CanAcquire(RowAt(rows, k), a.now(k)) && a.fault(k).Fine?
  }

  /** The first sandbox that cannot be leased, or whose write is not answered. */
  predicate FailsFirstAt(rows: map<Key, Row>, keys: seq<Key>, a: Attempt, i: int) {
    && 0 <= i < |keys| && AllAcquirable(rows, keys[..i], a)
    && !(CanAcquire(RowAt(rows, keys[i]), a.now(keys[i])) && a.fault(keys[i]).Fine?)
  }

  function LeasesOf(a: Attempt, keys: seq<Key>): map<Key, LeaseId> {
    map k | k in keys :: a.ids(k)
  }

  lemma OneMoreLease(a: Attempt, keys: seq<Key>, n: nat)
    requires n < |keys|
    ensures LeasesOf(a, keys[..n + 1]) == LeasesOf(a, keys[..n])[keys[n] := a.ids(keys[n])]
  {
    assert keys[..n + 1] == keys[..n] + [keys[n]];
  }

  predicate Taken(before: map<Key, Row>, rows: map<Key, Row>, a: Attempt, k: Key) {
    && CanAcquire(RowAt(before, k), a.now(k)) && a.fault(k).Fine?
    && RowAt(rows, k) == Present(Some(Lease(a.ids(k), a.now(k) + a.duration)))
  }

  /** After giving back, ours are only those whose release was lost, and the one whose answer was. */
  lemma NothingKept(before: map<Key, Row>, rows: map<Key, Row>, a: Attempt, released: seq<Key>, key: Key)
    requires NewIds(before, a)
    requires forall k <- released :: HeldBy(RowAt(rows, k), a.ids(k)) ==> a.releaseLost(k)
    requires HeldBy(RowAt(rows, key), a.ids(key)) ==> a.fault(key) == Unacknowledged
    requires forall k :: k !in released && k != key ==> RowAt(rows, k) == RowAt(before, k)
    ensures forall k :: HeldBy(RowAt(rows, k), a.ids(k)) ==> a.releaseLost(k) || a.fault(k) == Unacknowledged
  {
    assert forall k :: !HeldBy(RowAt(before, k), a.ids(k));
  }

  /** Another key's write leaves a lease alone. */
  lemma StillTaken(before: map<Key, Row>, mid: map<Key, Row>, rows: map<Key, Row>, a: Attempt, taken: seq<Key>,
      key: Key)
    requires (forall k <- taken :: Taken(before, mid, a, k)) && key !in taken
    requires forall k :: k != key ==> RowAt(rows, k) == RowAt(mid, k)
    requires forall k :: k !in taken ==> RowAt(mid, k) == RowAt(before, k)
    ensures forall k <- taken :: Taken(before, rows, a, k)
    ensures forall k :: k !in taken && k != key ==> RowAt(rows, k) == RowAt(before, k)
  {
  }

  lemma NextTaken(before: map<Key, Row>, rows: map<Key, Row>, a: Attempt, keys: seq<Key>, n: nat)
    requires n < |keys| && (forall k <- keys[..n] :: Taken(before, rows, a, k)) && Taken(before, rows, a, keys[n])
    requires forall k :: k !in keys[..n] && k != keys[n] ==> RowAt(rows, k) == RowAt(before, k)
    ensures forall k <- keys[..n + 1] :: Taken(before, rows, a, k)
    ensures forall k :: k !in keys[..n + 1] ==> RowAt(rows, k) == RowAt(before, k)
  {
    assert keys[..n + 1] == keys[..n] + [keys[n]];
  }

  class SandboxLeaseSet {
    var leases: map<Key, LeaseId>
    var sandboxIds: seq<Key>
    var table: LeaseTable

    constructor (table: LeaseTable, sandboxIds: seq<Key>)
      ensures this.table == table && this.sandboxIds == sandboxIds && leases == map[]
    {
      this.table, this.sandboxIds, this.leases := table, sandboxIds, map[];
    }

    /** All leases; or refused, or with the error of the first that fails, none of ours except where the
        network lost an answer or a release. */
    method AcquireAll(a: Attempt) returns (o: Outcome)
      requires leases == map[] && Distinct(sandboxIds) && NewIds(table.rows, a)
      modifies this, table
      ensures sandboxIds == old(sandboxIds) && table == old(table)
      ensures o == Acquired <==> AllAcquirable(old(table.rows), sandboxIds, a)
      ensures o == Acquired ==>
                leases == LeasesOf(a, sandboxIds)
                && forall k <- sandboxIds ::
                     RowAt(table.rows, k) == Present(Some(Lease(a.ids(k), a.now(k) + a.duration)))
      ensures o != Acquired ==> exists i ::
                FailsFirstAt(old(table.rows), sandboxIds, a, i)
                && o == if a.fault(sandboxIds[i]).Fine? then Refused else Raised
      ensures o != Acquired ==>
                leases == map[]
                && forall k :: HeldBy(RowAt(table.rows, k), a.ids(k)) ==>
                             a.releaseLost(k) || a.fault(k) == Unacknowledged
      ensures forall k :: k !in sandboxIds ==> RowAt(table.rows, k) == RowAt(old(table.rows), k)
    {
      ghost var before := table.rows;
      var n: nat;
      o, n := AcquireInTurn(a);
      if o == Acquired {
        assert sandboxIds[..n] == sandboxIds;
      } else {
        assert FailsFirstAt(before, sandboxIds, a, n);
        ReleaseAll(a);
        NothingKept(before, table.rows, a, sandboxIds[..n], sandboxIds[n]);
      }
    }

    /** One lease after the other, up to the first that cannot be had. */
    method AcquireInTurn(a: Attempt) returns (o: Outcome, n: nat)
      requires leases == map[] && Distinct(sandboxIds) && NewIds(table.rows, a)
      modifies this, table
      ensures sandboxIds == old(sandboxIds) && table == old(table)
      ensures n <= |sandboxIds| && (o == Acquired <==> n == |sandboxIds|)
      ensures leases == LeasesOf(a, sandboxIds[..n])
      ensures forall k <- sandboxIds[..n] :: Taken(old(table.rows), table.rows, a, k)
      ensures n < |sandboxIds| ==>
                var key := sandboxIds[n];
                !(CanAcquire(RowAt(old(table.rows), key), a.now(key)) && a.fault(key).Fine?)
                && (HeldBy(RowAt(table.rows, key), a.ids(key)) ==> a.fault(key) == Unacknowledged)
                && o == (if a.fault(key).Fine? then Refused else Raised)
      ensures forall k :: k !in sandboxIds[..n] && (n < |sandboxIds| ==> k != sandboxIds[n]) ==>
                RowAt(table.rows, k) == RowAt(old(table.rows), k)
    {
      n := 0;
      while n < |sandboxIds|
        invariant n <= |sandboxIds| && sandboxIds == old(sandboxIds) && table == old(table)
        invariant leases == LeasesOf(a, sandboxIds[..n])
        invariant forall k <- sandboxIds[..n] :: Taken(old(table.rows), table.rows, a, k)
        invariant forall k :: k !in sandboxIds[..n] ==> RowAt(table.rows, k) == RowAt(old(table.rows), k)
      {
        var key := sandboxIds[n];
        assert key !in sandboxIds[..n];
        ghost var mid := table.rows;
        o := table.Acquire(key, a.ids(key), a.now(key), a.duration, a.fault(key));
        StillTaken(old(table.rows), mid, table.rows, a, sandboxIds[..n], key);
        if o != Acquired {
          return;
        }
        leases := leases[key := a.ids(key)];
        OneMoreLease(a, sandboxIds, n);
        NextTaken(old(table.rows), table.rows, a, sandboxIds, n);
        n := n + 1;
      }
      o := Acquired;
    }

    method ReleaseAll(a: Attempt)
      modifies this, table
      ensures sandboxIds == old(sandboxIds) && table == old(table)
      ensures leases == map[]
      ensures forall k :: RowAt(table.rows, k) ==
                if k in old(leases) && !a.releaseLost(k) then Released(RowAt(old(table.rows), k), old(leases)[k])
                else RowAt(old(table.rows), k)
    {
      var left := leases.Keys;
      while left != {}
        invariant sandboxIds == old(sandboxIds) && table == old(table) && leases == old(leases)
        invariant left <= leases.Keys
        invariant forall k :: RowAt(table.rows, k) ==
                    if k in leases && k !in left && !a.releaseLost(k)
                    then Released(RowAt(old(table.rows), k), leases[k])
                    else RowAt(old(table.rows), k)
        decreases |left|
      {
        var key :| key in left;
        table.Release(key, leases[key], a.releaseLost(key));
        left := left - {key};
      }
      leases := map[];
    }
  }
}
