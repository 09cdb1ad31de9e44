/** The node agent's refcounted map of per-VM reentrant locks.  Entering is two steps (register
    under the table lock, then wait for the VM's lock), leaving is two more; threads interleave
    between any two. */
module LockMap {
  import opened FiniteSets

  type Id = nat
  type Thread = nat
  type Lock = nat

  /** `_VM_OP_LOCKS` and `_VM_OP_LOCK_USERS`; `next` is the identity of the next lock object. */
  datatype Table = Table(locks: map<Id, Lock>, users: map<Id, nat>, next: Lock)

  datatype Phase = Waiting | Inside | Released

  /** One use of the context manager. */
  datatype Use = Use(thread: Thread, id: Id, lock: Lock, phase: Phase)

  /** An RLock's owner and how often it has acquired it. */
  datatype Held = Free | By(thread: Thread, depth: nat)

  datatype State = State(table: Table, uses: map<nat, Use>, held: map<Lock, Held>)

  datatype Action =
    | Register(use: nat, thread: Thread, id: Id)
    | Acquire(use: nat)
    | Release(use: nat)
    | Deregister(use: nat)

  // ---------- critical sections of the table lock ----------

  function Users(t: Table, id: Id, default: nat): nat {
    if id in t.users then t.users[id] else default
  }

  function Registered(t: Table, id: Id): (r: Table)
    ensures id in r.locks && (id in t.locks ==> r.locks == t.locks)
  {
    var known := id in t.locks;
    Table(if known then t.locks else t.locks[id := t.next],
          t.users[id := Users(t, id, 0) + 1],
          if known then t.next else t.next + 1)
  }

  function Deregistered(t: Table, id: Id, lock: Lock): Table {
    var remaining := Users(t, id, 1) - 1;
    if remaining > 0 then t.(users := t.users[id := remaining])
    else t.(users := t.users - {id},
            locks := if id in t.locks && t.locks[id] == lock then t.locks - {id} else t.locks)
  }

  class LockTable {
    var locks: map<Id, Lock>
    var users: map<Id, nat>
    var next: Lock

    function View(): Table
      reads this
    {
      Table(locks, users, next)
    }

    constructor ()
      ensures View() == Table(map[], map[], 0)
    {
      locks, users, next := map[], map[], 0;
    }

    method Register(id: Id) returns (lock: Lock)
      modifies this
      ensures View() == Registered(old(View()), id)
      ensures lock == locks[id]
      ensures locks == if id in old(locks) then old(locks) else old(locks)[id := old(next)]
      ensures users == old(users)[id := 1 + if id in old(users) then old(users)[id] else 0]
    {
      if id !in locks {
        locks := locks[id := next];
        next := next + 1;
      }
      lock := locks[id];
      var count := if id in users then users[id] else 0;
      users := users[id := count + 1];
    }

    method Deregister(id: Id, lock: Lock)
      modifies this
      ensures View() == Deregistered(old(View()), id, lock)
      ensures id in old(users) && old(users)[id] > 1 ==>
                users == old(users)[id := old(users)[id] - 1] && locks == old(locks)
      ensures !(id in old(users) && old(users)[id] > 1) ==>
                && users == old(users) - {id}
                && locks == if id in old(locks) && old(locks)[id] == lock then old(locks) - {id} else old(locks)
    {
      var count: int := if id in users then users[id] else 1;
      var remaining := count - 1;
      if remaining > 0 {
        users := users[id := remaining];
      } else {
        users := users - {id};
        if id in locks && locks[id] == lock {
          locks := locks - {id};
        }
      }
    }
  }

  // ---------- steps ----------

  function Owner(s: State, lock: Lock): Held {
    if lock in s.held then s.held[lock] else Free
  }

  predicate Enabled(s: State, a: Action) {
    match a
    case Register(u, _, _) => u !in s.uses
    case Acquire(u) =>
      u in s.uses && s.uses[u].phase.Waiting?
      && (Owner(s, s.uses[u].lock).Free? || Owner(s, s.uses[u].lock).thread == s.uses[u].thread)
    case Release(u) => u in s.uses && s.uses[u].phase.Inside?
    case Deregister(u) => u in s.uses && s.uses[u].phase.Released?
  }

  function Acquired(h: Held, thread: Thread): Held {
    if h.Free? then By(thread, 1) else h.(depth := h.depth + 1)
  }

  function Unlocked(h: Held): Held {
    if h.Free? || h.depth <= 1 then Free else h.(depth := h.depth - 1)
  }

  function Next(s: State, a: Action): State
    requires Enabled(s, a)
  {
    match a
    case Register(u, thread, id) =>
      var t := Registered(s.table, id);
      s.(table := t, uses := s.uses[u := Use(thread, id, t.locks[id], Waiting)])
    case Acquire(u) =>
      var use := s.uses[u];
      s.(uses := s.uses[u := use.(phase := Inside)],
         held := s.held[use.lock := Acquired(Owner(s, use.lock), use.thread)])
    case Release(u) =>
      var use := s.uses[u];
      s.(uses := s.uses[u := use.(phase := Released)], held := s.held[use.lock := Unlocked(Owner(s, use.lock))])
    case Deregister(u) =>
      s.(table := Deregistered(s.table, s.uses[u].id, s.uses[u].lock), uses := s.uses - {u})
  }

  predicate Run(s: State, actions: seq<Action>, t: State)
    decreases |actions|
  {
    if actions == [] then t == s
    else Enabled(s, actions[0]) && Run(Next(s, actions[0]), actions[1..], t)
  }

  const EMPTY := State(Table(map[], map[], 0), map[], map[])

  // ---------- the invariant ----------

  function UsesOf(s: State, id: Id): set<nat> {
    set u | u in s.uses && s.uses[u].id == id
  }

  function Insiders(s: State, lock: Lock): set<nat> {
    set u | u in s.uses && s.uses[u].lock == lock && s.uses[u].phase.Inside?
  }

  /** Everyone registered for an id has the lock object the table has for it. */
  predicate SharesLock(s: State) {
    forall u <- s.uses :: s.uses[u].id in s.table.locks && s.uses[u].lock == s.table.locks[s.uses[u].id]
  }

  predicate DistinctLocks(s: State) {
    && (forall id <- s.table.locks :: s.table.locks[id] < s.table.next)
    && (forall i <- s.table.locks, j <- s.table.locks :: s.table.locks[i] == s.table.locks[j] ==> i == j)
  }

  /** The count is the number of registrations, and an id nobody uses has no entry. */
  ghost predicate CountsUsers(s: State, id: Id) {
    && Users(s.table, id, 0) == |UsesOf(s, id)|
    && (id in s.table.users <==> UsesOf(s, id) != {})
    && (id in s.table.locks <==> UsesOf(s, id) != {})
  }

  /** The lock's owner is the thread of everyone inside, as often as they are inside. */
  ghost predicate OwnerInside(s: State, lock: Lock) {
    match Owner(s, lock)
    case Free => Insiders(s, lock) == {}
    case By(thread, depth) =>
      depth == |Insiders(s, lock)| && depth > 0 && forall u <- Insiders(s, lock) :: s.uses[u].thread == thread
  }

  ghost predicate Inv(s: State) {
    SharesLock(s) && DistinctLocks(s) && (forall id: Id :: CountsUsers(s, id))
        && (forall lock: Lock :: OwnerInside(s, lock))
  }

  lemma RegisterKeepsUsers(s: State, a: Action, id: Id)
    requires Inv(s) && Enabled(s, a) && a.Register?
    ensures CountsUsers(Next(s, a), id)
  {
    assert CountsUsers(s, id);
    var t := Next(s, a);
    if id == a.id {
      assert UsesOf(t, id) == UsesOf(s, id) + {a.use};
    } else {
      assert UsesOf(t, id) == UsesOf(s, id);
    }
  }

  lemma DeregisterKeepsUsers(s: State, a: Action, id: Id)
    requires Inv(s) && Enabled(s, a) && a.Deregister?
    ensures CountsUsers(Next(s, a), id)
  {
    assert CountsUsers(s, id);
    var t := Next(s, a);
    if id == s.uses[a.use].id {
      assert UsesOf(t, id) == UsesOf(s, id) - {a.use} && a.use in UsesOf(s, id);
    } else {
      assert UsesOf(t, id) == UsesOf(s, id);
    }
  }

  lemma TableStepKeepsOwners(s: State, a: Action, lock: Lock)
    requires Inv(s) && Enabled(s, a) && (a.Register? || a.Deregister?)
    ensures OwnerInside(Next(s, a), lock)
  {
    assert OwnerInside(s, lock);
    assert Insiders(Next(s, a), lock) == Insiders(s, lock);
  }

  lemma AcquireKeepsOwners(s: State, a: Action, lock: Lock)
    requires Inv(s) && Enabled(s, a) && a.Acquire?
    ensures OwnerInside(Next(s, a), lock)
  {
    assert OwnerInside(s, lock);
    var t := Next(s, a);
    if lock != s.uses[a.use].lock {
      assert Insiders(t, lock) == Insiders(s, lock);
    } else {
      var before := Insiders(s, lock);
      assert Insiders(t, lock) == before + {a.use} && a.use !in before;
      assert |Insiders(t, lock)| == |before| + 1;
      assert Owner(t, lock) == By(s.uses[a.use].thread, |before| + 1);
      forall u | u in before ensures t.uses[u].thread == s.uses[a.use].thread {
        assert t.uses[u] == s.uses[u];
      }
    }
  }

  lemma ReleaseKeepsOwners(s: State, a: Action, lock: Lock)
    requires Inv(s) && Enabled(s, a) && a.Release?
    ensures OwnerInside(Next(s, a), lock)
  {
    assert OwnerInside(s, lock);
    var t := Next(s, a);
    if lock != s.uses[a.use].lock {
      assert Insiders(t, lock) == Insiders(s, lock);
    } else {
      assert Insiders(t, lock) == Insiders(s, lock) - {a.use} && a.use in Insiders(s, lock);
      assert |Insiders(t, lock)| == |Insiders(s, lock)| - 1;
    }
  }

  lemma LockStepKeepsUsers(s: State, a: Action, id: Id)
    requires Inv(s) && Enabled(s, a) && (a.Acquire? || a.Release?)
    ensures CountsUsers(Next(s, a), id)
  {
    assert CountsUsers(s, id);
    assert UsesOf(Next(s, a), id) == UsesOf(s, id);
  }

  lemma StepKeepsLocks(s: State, a: Action)
    requires Inv(s) && Enabled(s, a)
    ensures SharesLock(Next(s, a)) && DistinctLocks(Next(s, a))
  {
    if a.Deregister? {
      var id := s.uses[a.use].id;
      assert CountsUsers(s, id) && a.use in UsesOf(s, id);
      forall u | u in s.uses && u != a.use && s.uses[u].id == id ensures Users(s.table, id, 1) > 1 {
        assert {u, a.use} <= UsesOf(s, id);
        assert |{u, a.use}| == 2;
        SubsetSize({u, a.use}, UsesOf(s, id));
      }
    }
  }

  lemma NextKeepsInv(s: State, a: Action)
    requires Inv(s) && Enabled(s, a)
    ensures Inv(Next(s, a))
  {
    StepKeepsLocks(s, a);
    forall id: Id ensures CountsUsers(Next(s, a), id) {
      match a
      case Register(_, _, _) => RegisterKeepsUsers(s, a, id);
      case Deregister(_) => DeregisterKeepsUsers(s, a, id);
      case _ => LockStepKeepsUsers(s, a, id);
    }
    forall lock: Lock ensures OwnerInside(Next(s, a), lock) {
      match a
      case Acquire(_) => AcquireKeepsOwners(s, a, lock);
      case Release(_) => ReleaseKeepsOwners(s, a, lock);
      case _ => TableStepKeepsOwners(s, a, lock);
    }
  }

  lemma {:induction false} RunKeepsInv(s: State, actions: seq<Action>, t: State)
    requires Inv(s) && Run(s, actions, t)
    ensures Inv(t)
    decreases |actions|
  {
    if actions != [] {
      NextKeepsInv(s, actions[0]);
      RunKeepsInv(Next(s, actions[0]), actions[1..], t);
    }
  }

  lemma EmptyInv()
    ensures Inv(EMPTY)
  {
    forall id: Id ensures CountsUsers(EMPTY, id) {
      assert UsesOf(EMPTY, id) == {};
    }
    forall lock: Lock ensures OwnerInside(EMPTY, lock) {
      assert Insiders(EMPTY, lock) == {};
    }
  }

  /** Two uses inside the same VM's lock are one thread's, over every interleaving; whoever waits
      waits on the very lock object the others hold. */
  lemma MutualExclusion(actions: seq<Action>, s: State, u1: nat, u2: nat)
    requires Run(EMPTY, actions, s) && u1 in s.uses && u2 in s.uses && s.uses[u1].id == s.uses[u2].id
    ensures s.uses[u1].lock == s.uses[u2].lock
    ensures s.uses[u1].phase.Inside? && s.uses[u2].phase.Inside? ==> s.uses[u1].thread == s.uses[u2].thread
  {
    EmptyInv();
    RunKeepsInv(EMPTY, actions, s);
    assert OwnerInside(s, s.uses[u1].lock);
    assert s.uses[u1].phase.Inside? ==> u1 in Insiders(s, s.uses[u1].lock);
    assert s.uses[u2].phase.Inside? ==> u2 in Insiders(s, s.uses[u1].lock);
  }

  /** Locks of different VMs are different objects: waiting for one VM is never waiting for another. */
  lemma Independent(actions: seq<Action>, s: State, u1: nat, u2: nat)
    requires Run(EMPTY, actions, s) && u1 in s.uses && u2 in s.uses && s.uses[u1].id != s.uses[u2].id
    ensures s.uses[u1].lock != s.uses[u2].lock
  {
    EmptyInv();
    RunKeepsInv(EMPTY, actions, s);
  }

  /** The table holds exactly the ids in use, each counted as often as it is registered. */
  lemma TableExact(actions: seq<Action>, s: State, id: Id)
    requires Run(EMPTY, actions, s)
    ensures id in s.table.locks <==> exists u <- s.uses :: s.uses[u].id == id
    ensures id in s.table.users <==> id in s.table.locks
    ensures Users(s.table, id, 0) == |UsesOf(s, id)|
  {
    EmptyInv();
    RunKeepsInv(EMPTY, actions, s);
    assert CountsUsers(s, id);
    if UsesOf(s, id) != {} {
      var u :| u in UsesOf(s, id);
      assert u in s.uses && s.uses[u].id == id;
    }
  }

  /** Nobody inside means the next in line gets in: a lock is never left behind. */
  lemma NeverStuck(actions: seq<Action>, s: State, u: nat)
    requires Run(EMPTY, actions, s) && u in s.uses && s.uses[u].phase.Waiting?
    ensures Enabled(s, Acquire(u)) <==>
            forall v <- s.uses :: s.uses[v].id == s.uses[u].id && s.uses[v].phase.Inside? ==>
                                    s.uses[v].thread == s.uses[u].thread
  {
    EmptyInv();
    RunKeepsInv(EMPTY, actions, s);
    var lock := s.uses[u].lock;
    assert OwnerInside(s, lock);
    forall v | v in Insiders(s, lock) ensures s.uses[v].id == s.uses[u].id {
    }
    if Owner(s, lock).By? {
      var v :| v in Insiders(s, lock);
      assert v in s.uses;
    }
    forall v | v in s.uses && s.uses[v].id == s.uses[u].id && s.uses[v].phase.Inside? ensures v in Insiders(s, lock) {
    }
  }
}
