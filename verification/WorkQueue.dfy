/** The operator's coalescing work queue.  Critical sections, queue operations, fetches and the
    re-read after an item are separate steps; enqueuers, retry timers and workers interleave freely. */
module WorkQueue {
  import opened Options

  type Id = nat

  /** What `_queued_lock` and the queue guard. */
  datatype Shared = Shared(queued: set<Id>, dirty: set<Id>, slots: seq<Id>)

  /** Idle; has taken an id; has started to fetch it; has left the critical section and owes a
      re-read. */
  datatype Worker = Idle | Got(id: Id) | Fetched(id: Id) | Owes(id: Id, wasDirty: bool)

  /** The re-read after an item: it fails, finds no resource, or finds one. */
  datatype Reread = Failed | Missing | Found(operationPending: bool)

  datatype Action =
    | Enqueue(id: Id)
    | Put(id: Id)
    | Get(worker: nat)
    | Fetch(worker: nat)
    | Raise(worker: nat)
    | Finish(worker: nat)
    | Tick(id: Id)
    | Look(worker: nat, seen: Reread)

  /** `pending` counts the puts still to come, `timers` the retries set off by failed reconciles;
      `unseen` are the ids enqueued since a worker last started to fetch them, or whose last
      reconcile failed. */
  datatype State = State(
    shared: Shared, pending: multiset<Id>, timers: multiset<Id>, workers: map<nat, Worker>, unseen: set<Id>)

  // ---------- critical sections ----------

  function Admit(s: Shared, id: Id): Shared {
    if id in s.queued then s.(dirty := s.dirty + {id}) else s.(queued := s.queued + {id})
  }

  function Release(s: Shared, id: Id): Shared {
    s.(queued := s.queued - {id}, dirty := s.dirty - {id})
  }

  class CoalescingQueue {
    var queued: set<Id>
    var dirty: set<Id>
    var slots: seq<Id>

    function View(): Shared
      reads this
    {
      Shared(queued, dirty, slots)
    }

    constructor ()
      ensures View() == Shared({}, {}, [])
    {
      queued, dirty, slots := {}, {}, [];
    }

    /** The locked part of enqueue: an id already queued is only marked. */
    method AdmitId(id: Id) returns (mustPut: bool)
      modifies this`queued, this`dirty
      ensures View() == Admit(old(View()), id)
      ensures mustPut == (id !in old(queued))
    {
      if id in queued {
        dirty := dirty + {id};
        return false;
      }
      queued := queued + {id};
      mustPut := true;
    }

    method PutId(id: Id)
      modifies this`slots
      ensures View() == old(View()).(slots := old(slots) + [id])
    {
      slots := slots + [id];
    }

    /** enqueue(): the put is left out when the id is queued already. */
    method EnqueueId(id: Id)
      modifies this
      ensures View() == if id in old(queued) then Admit(old(View()), id)
                        else Admit(old(View()), id).(slots := old(slots) + [id])
    {
      var mustPut := AdmitId(id);
      if mustPut {
        PutId(id);
      }
    }

    method GetId() returns (id: Option<Id>)
      modifies this`slots
      ensures id == if old(slots) == [] then None else Some(old(slots)[0])
      ensures View() == old(View()).(slots := if old(slots) == [] then [] else old(slots)[1..])
    {
      if slots == [] {
        return None;
      }
      id, slots := Some(slots[0]), slots[1..];
    }

    /** The locked part of a worker's `finally`. */
    method ReleaseId(id: Id) returns (wasDirty: bool)
      modifies this`queued, this`dirty
      ensures View() == Release(old(View()), id)
      ensures wasDirty == (id in old(dirty))
    {
      queued := queued - {id};
      wasDirty := false;
      if id in dirty {
        dirty := dirty - {id};
        wasDirty := true;
      }
    }
  }

  // ---------- steps ----------

  predicate Holds(s: State, w: nat, id: Id) {
    w in s.workers && (s.workers[w] == Got(id) || s.workers[w] == Fetched(id))
  }

  function Entered(s: State, id: Id): State {
    s.(shared := Admit(s.shared, id),
       pending := if id in s.shared.queued then s.pending else s.pending + multiset{id},
       unseen := s.unseen + {id})
  }

  predicate Enabled(s: State, a: Action) {
    match a
    case Enqueue(_) => true
    case Put(id) => s.pending[id] > 0
    case Get(w) => w in s.workers && s.workers[w].Idle? && s.shared.slots != []
    case Fetch(w) => w in s.workers && s.workers[w].Got?
    case Raise(w) => w in s.workers && s.workers[w].Fetched?
    case Tick(id) => s.timers[id] > 0
    case Finish(w) => w in s.workers && s.workers[w].Fetched?
    case Look(w, _) => w in s.workers && s.workers[w].Owes?
  }

  /** A dirty mark, or an operation nobody has observed yet, sends the id round again. */
  predicate EnqueuesAgain(worker: Worker, seen: Reread)
    requires worker.Owes?
  {
    seen.Found? && (worker.wasDirty || seen.operationPending)
  }

  function Next(s: State, a: Action): State
    requires Enabled(s, a)
  {
    match a
    case Enqueue(id) => Entered(s, id)
    case Put(id) => s.(pending := s.pending - multiset{id}, shared := s.shared.(slots := s.shared.slots + [id]))
    case Get(w) =>
      s.(workers := s.workers[w := Got(s.shared.slots[0])], shared := s.shared.(slots := s.shared.slots[1..]))
    case Fetch(w) =>
      var id := s.workers[w].id;
      s.(workers := s.workers[w := Fetched(id)], unseen := s.unseen - {id})
    case Raise(w) =>
      var id := s.workers[w].id;
      s.(timers := s.timers + multiset{id}, unseen := s.unseen + {id})
    case Tick(id) => Entered(s.(timers := s.timers - multiset{id}), id)
    case Finish(w) =>
      var id := s.workers[w].id;
      s.(shared := Release(s.shared, id), workers := s.workers[w := Owes(id, id in s.shared.dirty)])
    case Look(w, seen) =>
      var worker := s.workers[w];
      var back := s.(workers := s.workers[w := Idle]);
      if EnqueuesAgain(worker, seen) then Entered(back, worker.id) else back
  }

  predicate Run(s: State, actions: seq<Action>, t: State)
    decreases |actions|
  {
    if actions == [] then t == s
    else Enabled(s, actions[0]) && Run(Next(s, actions[0]), actions[1..], t)
  }

  predicate Initial(s: State) {
    s.shared == Shared({}, {}, []) && s.pending == multiset{} && s.timers == multiset{} && s.unseen == {}
    && forall w <- s.workers :: s.workers[w].Idle?
  }

  // ---------- one token per queued id ----------

  /** Puts to come and queue slots. */
  function Waiting(s: State, id: Id): nat {
    s.pending[id] + multiset(s.shared.slots)[id]
  }

  /** An id is queued exactly when it has a token, and it never has two. */
  ghost predicate OneToken(s: State, id: Id) {
    && Waiting(s, id) <= 1
    && (id in s.shared.queued <==> Waiting(s, id) == 1 || exists w :: Holds(s, w, id))
    && (Waiting(s, id) == 1 ==> forall w :: !Holds(s, w, id))
    && (forall w1, w2 :: Holds(s, w1, id) && Holds(s, w2, id) ==> w1 == w2)
    && (id in s.shared.dirty ==> id in s.shared.queued)
  }

  /** The enqueue is going to be followed by a fetch: by an unfetched token, by the dirty mark its
      holder will find, by the re-read a worker owes, or by a retry. */
  ghost predicate Promised(s: State, id: Id) {
    || Waiting(s, id) == 1
    || s.timers[id] > 0
    || (exists w :: w in s.workers && s.workers[w] == Got(id))
    || (id in s.shared.dirty && exists w :: w in s.workers && s.workers[w] == Fetched(id))
    || (exists w :: w in s.workers && s.workers[w] == Owes(id, true))
  }

  ghost predicate NoneForgotten(s: State, id: Id) {
    id in s.unseen ==> Promised(s, id)
  }

  lemma InitialTokens(s: State, id: Id)
    requires Initial(s)
    ensures OneToken(s, id) && NoneForgotten(s, id)
  {
  }

  lemma EnteredKeepsToken(s: State, id: Id, other: Id)
    requires OneToken(s, other)
    ensures OneToken(Entered(s, id), other)
  {
    var t := Entered(s, id);
    assert forall w :: Holds(t, w, other) == Holds(s, w, other);
  }

  lemma QueueKeepsToken(s: State, a: Action, id: Id)
    requires Enabled(s, a) && OneToken(s, id) && (a.Put? || a.Get?)
    ensures OneToken(Next(s, a), id)
  {
    var t := Next(s, a);
    if a.Get? {
      assert s.shared.slots == [s.shared.slots[0]] + s.shared.slots[1..];
      assert multiset(s.shared.slots)[s.shared.slots[0]] > 0;
      assert forall w :: w != a.worker ==> Holds(t, w, id) == Holds(s, w, id);
      assert !Holds(s, a.worker, id);
      assert Holds(t, a.worker, id) <==> s.shared.slots[0] == id;
    } else {
      assert forall w :: Holds(t, w, id) == Holds(s, w, id);
    }
  }

  lemma WorkerKeepsToken(s: State, a: Action, id: Id)
    requires Enabled(s, a) && OneToken(s, id) && (a.Fetch? || a.Finish?)
    ensures OneToken(Next(s, a), id)
  {
    var t := Next(s, a);
    assert forall w :: w != a.worker ==> Holds(t, w, id) == Holds(s, w, id);
    assert Holds(s, a.worker, id) <==> s.workers[a.worker].id == id;
    assert a.Fetch? ==> Holds(t, a.worker, id) == Holds(s, a.worker, id);
  }

  lemma LookKeepsToken(s: State, a: Action, id: Id)
    requires Enabled(s, a) && OneToken(s, id) && a.Look?
    ensures OneToken(Next(s, a), id)
  {
    var back := s.(workers := s.workers[a.worker := Idle]);
    assert forall w :: Holds(back, w, id) == Holds(s, w, id);
    assert OneToken(back, id);
    EnteredKeepsToken(back, s.workers[a.worker].id, id);
  }

  lemma TickKeepsToken(s: State, id: Id, other: Id)
    requires s.timers[id] > 0 && OneToken(s, other)
    ensures OneToken(Next(s, Tick(id)), other)
  {
    var t := s.(timers := s.timers - multiset{id});
    assert forall w :: Holds(t, w, other) == Holds(s, w, other);
    assert OneToken(t, other);
    EnteredKeepsToken(t, id, other);
  }

  lemma RaiseKeepsToken(s: State, a: Action, id: Id)
    requires Enabled(s, a) && OneToken(s, id) && a.Raise?
    ensures OneToken(Next(s, a), id)
  {
    assert forall w :: Holds(Next(s, a), w, id) == Holds(s, w, id);
  }

  lemma NextKeepsToken(s: State, a: Action, id: Id)
    requires Enabled(s, a) && OneToken(s, id)
    ensures OneToken(Next(s, a), id)
  {
    match a
    case Enqueue(other) => EnteredKeepsToken(s, other, id);
    case Tick(other) => TickKeepsToken(s, other, id);
    case Raise(_) => RaiseKeepsToken(s, a, id);
    case Look(_, _) => LookKeepsToken(s, a, id);
    case Fetch(_) => WorkerKeepsToken(s, a, id);
    case Finish(_) => WorkerKeepsToken(s, a, id);
    case _ => QueueKeepsToken(s, a, id);
  }

  lemma {:induction false} RunKeepsToken(s: State, actions: seq<Action>, t: State, id: Id)
    requires OneToken(s, id) && Run(s, actions, t)
    ensures OneToken(t, id)
    decreases |actions|
  {
    if actions != [] {
      NextKeepsToken(s, actions[0], id);
      RunKeepsToken(Next(s, actions[0]), actions[1..], t, id);
    }
  }

  /** No interleaving has two workers on one id, or a worker on an id that also waits in the queue. */
  lemma NeverTwoAtOnce(s: State, actions: seq<Action>, t: State, id: Id, w1: nat, w2: nat)
    requires Initial(s) && Run(s, actions, t) && Holds(t, w1, id) && Holds(t, w2, id)
    ensures w1 == w2 && id in t.shared.queued && id !in t.shared.slots && t.pending[id] == 0
  {
    InitialTokens(s, id);
    RunKeepsToken(s, actions, t, id);
    assert id in t.shared.slots ==> multiset(t.shared.slots)[id] > 0;
  }

  // ---------- no enqueue is forgotten ----------

  /** An id enqueued while a worker is past its fetch is marked dirty, or a retry of it is due. */
  ghost predicate HolderMarked(s: State, id: Id) {
    id in s.unseen && (exists w :: w in s.workers && s.workers[w] == Fetched(id)) ==>
      id in s.shared.dirty || s.timers[id] > 0
  }

  /** A re-read on behalf of a dirty mark fails or finds nothing, at a moment when the id has been
      enqueued since its last fetch, is not queued, has no retry due, and no other worker owes it a
      re-read. */
  predicate Forgets(s: State, a: Action, id: Id) {
    && a.Look? && a.worker in s.workers && s.workers[a.worker] == Owes(id, true) && !a.seen.Found?
    && id in s.unseen && id !in s.shared.queued && s.timers[id] == 0
    && forall w <- s.workers :: w != a.worker ==> s.workers[w] != Owes(id, true)
  }

  lemma EnteredKeepsMark(s: State, id: Id, other: Id)
    requires OneToken(s, id) && HolderMarked(s, other)
    ensures HolderMarked(Entered(s, id), other)
  {
    if other == id && exists w :: w in s.workers && s.workers[w] == Fetched(id) {
      var w :| w in s.workers && s.workers[w] == Fetched(id);
      assert Holds(s, w, id);
    }
  }

  lemma TickKeepsMark(s: State, id: Id, other: Id)
    requires s.timers[id] > 0 && OneToken(s, id) && HolderMarked(s, other)
    ensures HolderMarked(Next(s, Tick(id)), other)
  {
    var t := s.(timers := s.timers - multiset{id});
    assert forall w :: Holds(t, w, id) == Holds(s, w, id);
    assert OneToken(t, id);
    if other != id {
      assert t.timers[other] == s.timers[other];
      EnteredKeepsMark(t, id, other);
    } else if exists w :: w in s.workers && s.workers[w] == Fetched(id) {
      var w :| w in s.workers && s.workers[w] == Fetched(id);
      assert Holds(s, w, id);
    }
  }

  lemma WorkerKeepsMark(s: State, a: Action, id: Id)
    requires Enabled(s, a) && OneToken(s, id) && HolderMarked(s, id) && (a.Get? || a.Fetch? || a.Finish? || a.Raise?)
    ensures HolderMarked(Next(s, a), id)
  {
    var t := Next(s, a);
    if id in t.unseen && exists w :: w in t.workers && t.workers[w] == Fetched(id) {
      var w :| w in t.workers && t.workers[w] == Fetched(id);
      if w == a.worker && a.Raise? {
        assert t.timers[id] > 0;
      } else {
        assert w != a.worker && s.workers[w] == Fetched(id);
        assert Holds(s, w, id) && (a.Finish? ==> Holds(s, a.worker, s.workers[a.worker].id));
      }
    }
  }

  lemma LookKeepsMark(s: State, a: Action, id: Id)
    requires Enabled(s, a) && a.Look? && HolderMarked(s, id) && OneToken(s, s.workers[a.worker].id)
    ensures HolderMarked(Next(s, a), id)
  {
    var back := s.(workers := s.workers[a.worker := Idle]);
    assert forall w, i :: Holds(back, w, i) == Holds(s, w, i);
    assert HolderMarked(back, id);
    var again := s.workers[a.worker].id;
    assert OneToken(back, again);
    EnteredKeepsMark(back, again, id);
  }

  ghost predicate Tokens(s: State) {
    forall id: Id :: OneToken(s, id)
  }

  lemma NextKeepsMark(s: State, a: Action, id: Id)
    requires Enabled(s, a) && Tokens(s) && HolderMarked(s, id)
    ensures HolderMarked(Next(s, a), id)
  {
    match a
    case Enqueue(other) => EnteredKeepsMark(s, other, id);
    case Tick(other) => TickKeepsMark(s, other, id);
    case Look(_, _) => LookKeepsMark(s, a, id);
    case Put(_) =>
    case _ => WorkerKeepsMark(s, a, id);
  }

  lemma EnteredPromises(s: State, id: Id)
    requires OneToken(s, id)
    ensures Promised(Entered(s, id), id)
  {
    var t := Entered(s, id);
    assert forall w :: Holds(t, w, id) == Holds(s, w, id);
    if id in s.shared.queued && Waiting(s, id) != 1 {
      var w :| Holds(s, w, id);
      assert w in t.workers;
    }
  }

  lemma EnteredKeepsPromise(s: State, id: Id, other: Id)
    requires OneToken(s, other) && NoneForgotten(s, other)
    ensures NoneForgotten(Entered(s, id), other)
  {
    if other == id {
      EnteredPromises(s, id);
    } else if Promised(s, other) {
      assert Entered(s, id).timers == s.timers;
      assert Entered(s, id).workers == s.workers && Waiting(Entered(s, id), other) == Waiting(s, other);
    }
  }

  lemma QueueKeepsPromise(s: State, a: Action, id: Id)
    requires Enabled(s, a) && OneToken(s, id) && NoneForgotten(s, id) && (a.Put? || a.Get?)
    ensures NoneForgotten(Next(s, a), id)
  {
    var t := Next(s, a);
    if a.Put? {
      assert t.workers == s.workers;
    } else if id in t.unseen {
      assert s.shared.slots == [s.shared.slots[0]] + s.shared.slots[1..];
      if s.shared.slots[0] == id {
        assert t.workers[a.worker] == Got(id);
      } else if Waiting(s, id) != 1 && s.timers[id] == 0 {
        var w := PromisingWorker(s, id);
        assert w in t.workers && t.workers[w] == s.workers[w];
      }
    }
  }

  lemma PromisingWorker(s: State, id: Id) returns (w: nat)
    requires Promised(s, id) && Waiting(s, id) != 1 && s.timers[id] == 0
    ensures w in s.workers
    ensures s.workers[w] == Got(id) || s.workers[w] == Owes(id, true)
        || (id in s.shared.dirty && s.workers[w] == Fetched(id))
  {
    w :| w in s.workers && (s.workers[w] == Got(id) || s.workers[w] == Owes(id, true)
                            || (id in s.shared.dirty && s.workers[w] == Fetched(id)));
  }

  /** A worker's step moves a promise on: token, then dirty mark, then owed re-read. */
  lemma WorkerKeepsPromise(s: State, a: Action, id: Id)
    requires Enabled(s, a) && OneToken(s, id) && NoneForgotten(s, id) && (a.Fetch? || a.Finish?)
    ensures NoneForgotten(Next(s, a), id)
  {
    var t := Next(s, a);
    if id in t.unseen && Waiting(s, id) != 1 && s.timers[id] == 0 {
      var w := PromisingWorker(s, id);
      assert Holds(s, a.worker, s.workers[a.worker].id);
      assert Holds(s, w, id) || s.workers[w] == Owes(id, true);
      assert w in t.workers && (w == a.worker || t.workers[w] == s.workers[w]);
      if w == a.worker {
        assert a.Finish? && t.workers[w] == Owes(id, true);
      }
    }
  }

  lemma TickKeepsPromise(s: State, id: Id, other: Id)
    requires s.timers[id] > 0 && OneToken(s, other) && NoneForgotten(s, other)
    ensures NoneForgotten(Next(s, Tick(id)), other)
  {
    var t := s.(timers := s.timers - multiset{id});
    assert forall w :: Holds(t, w, other) == Holds(s, w, other);
    if other == id {
      EnteredPromises(t, id);
    } else {
      assert t.timers[other] == s.timers[other];
      EnteredKeepsPromise(t, id, other);
    }
  }

  /** A failed reconcile is promised its retry. */
  lemma RaiseKeepsPromise(s: State, a: Action, id: Id)
    requires Enabled(s, a) && a.Raise? && NoneForgotten(s, id)
    ensures NoneForgotten(Next(s, a), id)
  {
    var t := Next(s, a);
    assert t.workers == s.workers && t.shared == s.shared;
  }

  /** The re-read that goes wrong leaves a promise exactly where the id is queued, due for a retry,
      or owed another re-read. */
  lemma FruitlessLookForgets(s: State, a: Action, id: Id)
    requires Enabled(s, a) && OneToken(s, id) && HolderMarked(s, id) && id in s.unseen
    requires a.Look? && s.workers[a.worker] == Owes(id, true) && !a.seen.Found?
    ensures !Promised(Next(s, a), id) <==> Forgets(s, a, id)
  {
    var t := Next(s, a);
    if id in s.shared.queued && Waiting(s, id) != 1 {
      var w :| Holds(s, w, id);
      assert w != a.worker && w in t.workers && t.workers[w] == s.workers[w];
    } else if id !in s.shared.queued {
      forall w | w in t.workers ensures t.workers[w] != Got(id) && t.workers[w] != Fetched(id) {
        assert !Holds(s, w, id);
      }
      if !Forgets(s, a, id) && s.timers[id] == 0 {
        var w :| w in s.workers && w != a.worker && s.workers[w] == Owes(id, true);
        assert t.workers[w] == Owes(id, true);
      }
    }
  }

  /** A step loses a promise if and only if it is a re-read on behalf of a dirty mark that fails or
      finds nothing, of an id enqueued since its last fetch that is not queued, has no retry due and
      is owed no other re-read. */
  lemma ForgottenExactly(s: State, a: Action, id: Id)
    requires Enabled(s, a) && OneToken(s, id) && HolderMarked(s, id) && NoneForgotten(s, id)
    ensures !NoneForgotten(Next(s, a), id) <==> Forgets(s, a, id)
  {
    if a.Look? {
      LookForgetsExactly(s, a, id);
    } else if a.Enqueue? {
      EnteredKeepsPromise(s, a.id, id);
    } else if a.Tick? {
      TickKeepsPromise(s, a.id, id);
    } else if a.Raise? {
      RaiseKeepsPromise(s, a, id);
    } else if a.Fetch? || a.Finish? {
      WorkerKeepsPromise(s, a, id);
    } else {
      QueueKeepsPromise(s, a, id);
    }
  }

  lemma LookForgetsExactly(s: State, a: Action, id: Id)
    requires Enabled(s, a) && a.Look? && OneToken(s, id) && HolderMarked(s, id) && NoneForgotten(s, id)
    ensures !NoneForgotten(Next(s, a), id) <==> Forgets(s, a, id)
  {
    var worker := s.workers[a.worker];
    var back := s.(workers := s.workers[a.worker := Idle]);
    if worker == Owes(id, true) && !a.seen.Found? && id in s.unseen {
      FruitlessLookForgets(s, a, id);
    } else {
      if worker != Owes(id, true) && Promised(s, id) {
        BystanderKeepsPromise(s, a.worker, id);
      }
      if EnqueuesAgain(worker, a.seen) {
        assert forall w :: Holds(back, w, id) == Holds(s, w, id);
        if worker.id == id { EnteredPromises(back, id); } else { EnteredKeepsPromise(back, worker.id, id); }
      }
    }
  }

  lemma BystanderKeepsPromise(s: State, worker: nat, id: Id)
    requires Promised(s, id) && worker in s.workers && s.workers[worker].Owes? && s.workers[worker] != Owes(id, true)
    ensures Promised(s.(workers := s.workers[worker := Idle]), id)
  {
    var back := s.(workers := s.workers[worker := Idle]);
    if Waiting(s, id) != 1 && s.timers[id] == 0 {
      var w := PromisingWorker(s, id);
      assert w != worker && w in back.workers && back.workers[w] == s.workers[w];
    }
  }

  /** The re-read sends an id round again exactly if the resource is there and the id was marked dirty
      or has an operation pending; otherwise it changes nothing but the worker. */
  lemma LookEnqueuesExactly(s: State, worker: nat, id: Id, wasDirty: bool, seen: Reread)
    requires worker in s.workers && s.workers[worker] == Owes(id, wasDirty)
    ensures Enabled(s, Look(worker, seen))
    ensures var t := Next(s, Look(worker, seen));
      && t.workers == s.workers[worker := Idle]
      && (id in t.shared.queued <==>
          id in s.shared.queued || seen == Found(true) || (seen == Found(false) && wasDirty))
      && (seen == Found(true) || (seen == Found(false) && wasDirty) ==>
          id in t.unseen && (id in s.shared.queued ==> id in t.shared.dirty)
          && (id !in s.shared.queued ==> t.pending[id] == s.pending[id] + 1))
      && (seen.Failed? || seen.Missing? || (seen == Found(false) && !wasDirty) ==>
          t == s.(workers := s.workers[worker := Idle]))
  {
  }

  /** No step of the run is a re-read that forgets an id. */
  ghost predicate NeverForgets(s: State, actions: seq<Action>)
    decreases |actions|
  {
    actions == []
    || ((forall id: Id :: !Forgets(s, actions[0], id))
        && (Enabled(s, actions[0]) ==> NeverForgets(Next(s, actions[0]), actions[1..])))
  }

  predicate RereadsSucceed(actions: seq<Action>) {
    forall a <- actions :: a.Look? ==> a.seen.Found?
  }

  lemma {:induction false} SucceedingNeverForgets(s: State, actions: seq<Action>)
    requires RereadsSucceed(actions)
    ensures NeverForgets(s, actions)
    decreases |actions|
  {
    if actions != [] {
      assert actions[0] in actions;
      if Enabled(s, actions[0]) {
        SucceedingNeverForgets(Next(s, actions[0]), actions[1..]);
      }
    }
  }

  lemma NextKeepsTokens(s: State, a: Action)
    requires Enabled(s, a) && Tokens(s)
    ensures Tokens(Next(s, a))
  {
    forall id: Id ensures OneToken(Next(s, a), id) {
      NextKeepsToken(s, a, id);
    }
  }

  lemma {:induction false} RunForgetsNothing(s: State, actions: seq<Action>, t: State, id: Id)
    requires Tokens(s) && HolderMarked(s, id) && NoneForgotten(s, id) && Run(s, actions, t) && NeverForgets(s, actions)
    ensures Tokens(t) && HolderMarked(t, id) && NoneForgotten(t, id)
    decreases |actions|
  {
    if actions != [] {
      NextKeepsTokens(s, actions[0]);
      NextKeepsMark(s, actions[0], id);
      ForgottenExactly(s, actions[0], id);
      RunForgetsNothing(Next(s, actions[0]), actions[1..], t, id);
    }
  }

  predicate Quiet(s: State) {
    s.pending == multiset{} && s.timers == multiset{} && s.shared.slots == []
        && forall w <- s.workers :: s.workers[w].Idle?
  }

  /** When everything has come to rest without a re-read that forgets, every enqueue has been followed
      by a reconcile that started after it and did not fail, and no id is left queued or dirty. */
  lemma QuietMeansServed(s: State, actions: seq<Action>, t: State)
    requires Initial(s) && Run(s, actions, t) && NeverForgets(s, actions) && Quiet(t)
    ensures t.unseen == {} && t.shared.queued == {} && t.shared.dirty == {}
  {
    forall id: Id ensures OneToken(s, id) && HolderMarked(s, id) && NoneForgotten(s, id) {
      InitialTokens(s, id);
    }
    forall id: Id ensures id !in t.unseen && id !in t.shared.queued && id !in t.shared.dirty {
      RunForgetsNothing(s, actions, t, id);
      assert OneToken(t, id);
      assert forall w :: !Holds(t, w, id);
    }
  }

  /** A worker starts to fetch the id somewhere in the run. */
  predicate Fetches(s: State, actions: seq<Action>, id: Id)
    decreases |actions|
  {
    actions != [] && Enabled(s, actions[0])
    && ((actions[0].Fetch? && s.workers[actions[0].worker] == Got(id))
        || Fetches(Next(s, actions[0]), actions[1..], id))
  }

  lemma {:induction false} SeenByFetch(s: State, actions: seq<Action>, t: State, id: Id)
    requires Run(s, actions, t) && id in s.unseen && id !in t.unseen
    ensures Fetches(s, actions, id)
    decreases |actions|
  {
    if actions != [] && id in Next(s, actions[0]).unseen {
      SeenByFetch(Next(s, actions[0]), actions[1..], t, id);
    }
  }

  lemma ReachedSound(s: State, actions: seq<Action>, t: State, id: Id)
    requires Initial(s) && Run(s, actions, t) && NeverForgets(s, actions)
    ensures Tokens(t) && HolderMarked(t, id) && NoneForgotten(t, id)
  {
    forall other: Id ensures OneToken(s, other) && HolderMarked(s, other) && NoneForgotten(s, other) {
      InitialTokens(s, other);
    }
    RunForgetsNothing(s, actions, t, id);
  }

  predicate EnqueuesId(s: State, a: Action, id: Id) {
    a == Enqueue(id)
    || (a.Look? && a.worker in s.workers && s.workers[a.worker].Owes?
        && s.workers[a.worker].id == id && a.seen == Found(true))
  }

  lemma EnqueuedSound(s: State, a: Action, id: Id)
    requires Tokens(s) && HolderMarked(s, id) && NoneForgotten(s, id) && Enabled(s, a) && EnqueuesId(s, a, id)
    ensures var t := Next(s, a); Tokens(t) && HolderMarked(t, id) && NoneForgotten(t, id) && id in t.unseen
  {
    NextKeepsTokens(s, a);
    NextKeepsMark(s, a, id);
    ForgottenExactly(s, a, id);
  }

  lemma QuietPromisesNothing(s: State, id: Id)
    requires Quiet(s)
    ensures !Promised(s, id)
  {
  }

  lemma FetchedBeforeRest(s: State, actions: seq<Action>, t: State, id: Id)
    requires Tokens(s) && HolderMarked(s, id) && NoneForgotten(s, id) && id in s.unseen
    requires Run(s, actions, t) && NeverForgets(s, actions) && Quiet(t)
    ensures Fetches(s, actions, id)
  {
    RunForgetsNothing(s, actions, t, id);
    QuietPromisesNothing(t, id);
    SeenByFetch(s, actions, t, id);
  }

  /** Once the id is enqueued, by whoever or by a re-read that finds an operation pending, the run comes
      to rest only after a worker has started to fetch it again. */
  lemma EnqueuedIsFetched(s: State, before: seq<Action>, m: State, a: Action, id: Id, after: seq<Action>, t: State)
    requires Initial(s) && Run(s, before, m) && NeverForgets(s, before) && Enabled(m, a) && EnqueuesId(m, a, id)
    requires Run(Next(m, a), after, t) && NeverForgets(Next(m, a), after) && Quiet(t)
    ensures Fetches(Next(m, a), after, id)
  {
    ReachedSound(s, before, m, id);
    EnqueuedSound(m, a, id);
    FetchedBeforeRest(Next(m, a), after, t, id);
  }

  /** While anything is left to do there is a step other than an enqueue that can be taken, as long as
      there are workers. */
  lemma NeverStuck(s: State, worker: nat) returns (a: Action)
    requires worker in s.workers && !Quiet(s)
    ensures !a.Enqueue? && Enabled(s, a)
  {
    if s.pending != multiset{} {
      var id :| id in s.pending;
      a := Put(id);
    } else if s.timers != multiset{} {
      var id :| id in s.timers;
      a := Tick(id);
    } else if exists w <- s.workers :: !s.workers[w].Idle? {
      var w :| w in s.workers && !s.workers[w].Idle?;
      a := if s.workers[w].Got? then Fetch(w) else if s.workers[w].Fetched? then Finish(w) else Look(w, Failed);
    } else {
      a := Get(worker);
    }
  }

  /** In particular when every re-read succeeds and finds its resource. */
  lemma RereadsServe(s: State, actions: seq<Action>, t: State)
    requires Initial(s) && Run(s, actions, t) && RereadsSucceed(actions) && Quiet(t)
    ensures t.unseen == {} && t.shared.queued == {} && t.shared.dirty == {}
  {
    SucceedingNeverForgets(s, actions);
    QuietMeansServed(s, actions, t);
  }

  lemma RunCons(s: State, a: Action, rest: seq<Action>, t: State)
    requires Enabled(s, a) && Run(Next(s, a), rest, t)
    ensures Run(s, [a] + rest, t)
  {
    assert ([a] + rest)[1..] == rest;
  }

  const FAILED_REREAD: seq<Action> :=
    [Enqueue(1), Put(1)] + ([Get(0), Fetch(0)] + [Enqueue(1), Finish(0), Look(0, Failed)])

  function Single(queued: set<Id>, dirty: set<Id>, slots: seq<Id>, pending: multiset<Id>, worker: Worker,
      unseen: set<Id>): State {
    State(Shared(queued, dirty, slots), pending, multiset{}, map[0 := worker], unseen)
  }

  lemma Taken(s: State, rest: seq<Action>, t: State)
    requires s == Single({1}, {}, [1], multiset{}, Idle, {1})
    requires Run(Single({1}, {}, [], multiset{}, Fetched(1), {}), rest, t)
    ensures Run(s, [Get(0), Fetch(0)] + rest, t)
  {
    var s3 := Single({1}, {}, [], multiset{}, Got(1), {1});
    TakesOne(s, s3);
    RunCons(s3, Fetch(0), rest, t);
    RunCons(s, Get(0), [Fetch(0)] + rest, t);
    assert [Get(0)] + ([Fetch(0)] + rest) == [Get(0), Fetch(0)] + rest;
  }

  lemma TakesOne(s: State, s3: State)
    requires s == Single({1}, {}, [1], multiset{}, Idle, {1}) && s3 == Single({1}, {}, [], multiset{}, Got(1), {1})
    ensures Enabled(s, Get(0)) && Next(s, Get(0)) == s3
    ensures Enabled(s3, Fetch(0)) && Next(s3, Fetch(0)) == Single({1}, {}, [], multiset{}, Fetched(1), {})
  {
    assert map[0 := Idle][0 := Got(1)] == map[0 := Got(1)] && map[0 := Got(1)][0 := Fetched(1)] == map[0 := Fetched(1)];
    assert [1][1..] == [] && {1} - {1} == {};
  }

  lemma Waits(s: State, rest: seq<Action>, t: State)
    requires s == Single({}, {}, [], multiset{}, Idle, {})
    requires Run(Single({1}, {}, [1], multiset{}, Idle, {1}), rest, t)
    ensures Run(s, [Enqueue(1), Put(1)] + rest, t)
  {
    var s1 := Single({1}, {}, [], multiset{1}, Idle, {1});
    assert Next(s, Enqueue(1)) == s1 && Next(s1, Put(1)) == Single({1}, {}, [1], multiset{}, Idle, {1});
    RunCons(s1, Put(1), rest, t);
    RunCons(s, Enqueue(1), [Put(1)] + rest, t);
    assert [Enqueue(1)] + ([Put(1)] + rest) == [Enqueue(1), Put(1)] + rest;
  }

  /** Enqueued while the worker is past its fetch, marked dirty, then a re-read that fails. */
  lemma RereadFails(s: State, t: State)
    requires s == Single({1}, {}, [], multiset{}, Fetched(1), {}) && t == Single({}, {}, [], multiset{}, Idle, {1})
    ensures Run(s, [Enqueue(1), Finish(0), Look(0, Failed)], t)
  {
    var marked := Single({1}, {1}, [], multiset{}, Fetched(1), {1});
    var owes := Single({}, {}, [], multiset{}, Owes(1, true), {1});
    assert Next(s, Enqueue(1)) == marked;
    assert Next(marked, Finish(0)) == owes;
    assert Next(owes, Look(0, Failed)) == t;
    RunCons(owes, Look(0, Failed), [], t);
    RunCons(marked, Finish(0), [Look(0, Failed)], t);
    RunCons(s, Enqueue(1), [Finish(0), Look(0, Failed)], t);
  }

  /** Where the store cannot be read for a moment, an enqueue is forgotten: nothing is left to do
      and the id has not been looked at since. */
  lemma FailedRereadForgets(s: State) returns (t: State)
    requires s == Single({}, {}, [], multiset{}, Idle, {})
    ensures Initial(s) && Run(s, FAILED_REREAD, t) && Quiet(t) && 1 in t.unseen
  {
    t := Single({}, {}, [], multiset{}, Idle, {1});
    RereadFails(Single({1}, {}, [], multiset{}, Fetched(1), {}), t);
    Taken(Single({1}, {}, [1], multiset{}, Idle, {1}), [Enqueue(1), Finish(0), Look(0, Failed)], t);
    Waits(s, [Get(0), Fetch(0)] + [Enqueue(1), Finish(0), Look(0, Failed)], t);
  }
}
