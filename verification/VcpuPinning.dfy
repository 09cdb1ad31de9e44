/** vCPU admission and pinning on one node: a cap on committed vCPUs, and each sandbox's vCPUs on
    different, least loaded host CPUs. */
module VcpuPinning {
  import opened FiniteSets
  import opened Options
  import opened Sequences

  type Cpu = nat
  type Sid = nat

  /** The online CPUs in ascending order, the commit limit (0 means none), and whether to pin. */
  datatype Host = Host(cpus: seq<Cpu>, capacity: nat, pinning: bool)

  datatype Table = Table(committed: map<Sid, nat>, pinned: map<Sid, seq<Cpu>>)

  predicate Ascending(s: seq<Cpu>) {
    forall i, j :: 0 <= i < j < |s| ==> s[i] < s[j]
  }

  predicate GoodHost(h: Host) {
    h.cpus != [] && Ascending(h.cpus)
  }

  // ---------- totals and loads ----------

  ghost function Total(m: map<Sid, nat>): nat
    decreases |m|
  {
    if m == map[] then 0
    else
      var k :| k in m;
      m[k] + Total(m - {k})
  }

  lemma {:induction false} TotalWithout(m: map<Sid, nat>, k: Sid)
    requires k in m
    ensures Total(m) == m[k] + Total(m - {k})
    decreases |m|
  {
    var j :| j in m && Total(m) == m[j] + Total(m - {j});
    if j != k {
      TotalWithout(m - {j}, k);
      TotalWithout(m - {k}, j);
      assert m - {j} - {k} == m - {k} - {j};
    }
  }

  /** Those of `some` with a vCPU on `cpu`. */
  function Holders(pinned: map<Sid, seq<Cpu>>, some: set<Sid>, cpu: Cpu): set<Sid>
    requires some <= pinned.Keys
  {
    set s | s in some && cpu in pinned[s]
  }

  function Load(pinned: map<Sid, seq<Cpu>>, cpu: Cpu): nat {
    |Holders(pinned, pinned.Keys, cpu)|
  }

  // ---------- the least loaded CPUs ----------

  /** First in the order (load, number). */
  predicate Before(load: map<Cpu, nat>, a: Cpu, b: Cpu)
    requires a in load && b in load
  {
    load[a] < load[b] || (load[a] == load[b] && a < b)
  }

  predicate IsLeast(load: map<Cpu, nat>, a: Cpu) {
    a in load && forall b <- load :: b != a ==> Before(load, a, b)
  }

  lemma {:induction false} LeastExists(load: map<Cpu, nat>) returns (a: Cpu)
    requires load != map[]
    ensures IsLeast(load, a)
    decreases |load|
  {
    var c :| c in load;
    a := c;
    assert forall x <- load :: x != c ==> x in load - {c};
    if load - {c} != map[] {
      var b := LeastExists(load - {c});
      a := if Before(load, b, c) then b else c;
      forall x | x in load && x != a ensures Before(load, a, x) {
        if x != c && x != b {
          assert x in load - {c} && Before(load - {c}, b, x);
        }
      }
    }
  }

  /** The `k` first CPUs of `load`, all of them if there are fewer. */
  ghost function Lightest(load: map<Cpu, nat>, k: nat): seq<Cpu>
    decreases k
  {
    if k == 0 || load == map[] then []
    else
      assert exists a :: IsLeast(load, a) by { var a := LeastExists(load); }
      var a :| IsLeast(load, a);
      [a] + Lightest(load - {a}, k - 1)
  }

  lemma LightestStartsWith(load: map<Cpu, nat>, cpu: Cpu, k: nat)
    requires IsLeast(load, cpu) && k > 0
    ensures Lightest(load, k) == [cpu] + Lightest(load - {cpu}, k - 1)
  {
    var a :| IsLeast(load, a) && Lightest(load, k) == [a] + Lightest(load - {a}, k - 1);
    assert IsLeast(load, a);
    assert a == cpu;
  }

  /** They are different CPUs, as many as asked for and there are, and none left out comes before
      one of them. */
  lemma {:induction false} LightestIsLeastLoaded(load: map<Cpu, nat>, k: nat)
    ensures var picks := Lightest(load, k);
      && Distinct(picks) && (forall c <- picks :: c in load)
      && |picks| == (if k <= |load| then k else |load|)
      && forall p <- picks, c <- load :: c !in picks ==> Before(load, p, c)
    decreases k
  {
    if k > 0 && load != map[] {
      var a := LeastExists(load);
      LightestStartsWith(load, a, k);
      LightestIsLeastLoaded(load - {a}, k - 1);
      var rest := Lightest(load - {a}, k - 1);
      assert |load - {a}| == |load| - 1;
      forall p, c | p in [a] + rest && c in load && c !in [a] + rest ensures Before(load, p, c) {
        assert c in load - {a} && c !in rest;
      }
    }
  }

  // ---------- reserve and release ----------

  function Prefix(s: seq<Cpu>, n: nat): seq<Cpu> {
    if n <= |s| then s[..n] else s
  }

  function PinsOf(t: Table, sid: Sid): seq<Cpu> {
    if sid in t.pinned then t.pinned[sid] else []
  }

  /** What `some` sandboxes put on the CPUs that are not kept. */
  function Loads(h: Host, pinned: map<Sid, seq<Cpu>>, some: set<Sid>, kept: seq<Cpu>): map<Cpu, nat>
    requires some <= pinned.Keys
  {
    map c | c in h.cpus && c !in kept :: |Holders(pinned, some, c)|
  }

  function LoadsBeside(h: Host, t: Table, sid: Sid, kept: seq<Cpu>): map<Cpu, nat> {
    Loads(h, t.pinned, t.pinned.Keys - {sid}, kept)
  }

  function Pinning(load: map<Cpu, nat>, pins: seq<Cpu>): map<Cpu, nat> {
    map c | c in load :: load[c] + if c in pins then 1 else 0
  }

  ghost function Pins(h: Host, t: Table, sid: Sid, vcpus: nat): seq<Cpu> {
    var kept := Prefix(PinsOf(t, sid), vcpus);
    kept + Lightest(LoadsBeside(h, t, sid, kept), vcpus - |kept|)
  }

  ghost predicate Admits(h: Host, t: Table, sid: Sid, vcpus: nat) {
    h.capacity == 0 || Total(t.committed - {sid}) + vcpus <= h.capacity
  }

  ghost function Reserved(h: Host, t: Table, sid: Sid, vcpus: nat): Table {
    if !Admits(h, t, sid, vcpus) then t
    else Table(t.committed[sid := vcpus],
               if h.pinning then t.pinned[sid := Pins(h, t, sid, vcpus)] else t.pinned)
  }

  function Released(t: Table, sid: Sid): Table {
    Table(t.committed - {sid}, t.pinned - {sid})
  }

  /** What every reserve and release keeps. */
  predicate Sound(h: Host, t: Table) {
    && t.pinned.Keys <= t.committed.Keys && (!h.pinning ==> t.pinned == map[])
    && forall s <- t.pinned ::
         Distinct(t.pinned[s]) && |t.pinned[s]| <= t.committed[s] && forall c <- t.pinned[s] :: c in h.cpus
  }

  /** How many other sandboxes have a vCPU on `c`. */
  function Others(pinned: map<Sid, seq<Cpu>>, sid: Sid, c: Cpu): nat {
    |set s | s in pinned && s != sid && c in pinned[s]|
  }

  /** Different CPUs of the host, as many as asked for and there are; the old pins first, as far as
      they go, and no CPU left out comes before one that was added. */
  predicate WellPinned(h: Host, pinned: map<Sid, seq<Cpu>>, sid: Sid, vcpus: nat, pins: seq<Cpu>) {
    var kept := if sid !in pinned then [] else if |pinned[sid]| <= vcpus then pinned[sid] else pinned[sid][..vcpus];
    && Distinct(pins) && (forall c <- pins :: c in h.cpus)
    && |pins| == (if vcpus <= |h.cpus| then vcpus else |h.cpus|)
    && kept <= pins
    && forall p <- pins, c <- h.cpus :: p !in kept && c !in pins ==>
         Others(pinned, sid, p) < Others(pinned, sid, c)
         || (Others(pinned, sid, p) == Others(pinned, sid, c) && p < c)
  }

  class VcpuTable {
    const host: Host
    var committed: map<Sid, nat>
    var pinned: map<Sid, seq<Cpu>>

    function View(): Table
      reads this
    {
      Table(committed, pinned)
    }

    constructor (host: Host)
      ensures this.host == host && View() == Table(map[], map[])
    {
      this.host, committed, pinned := host, map[], map[];
    }

    /** sum(_COMMITTED_VCPUS.values()). */
    method Sum() returns (sum: nat)
      ensures sum == Total(committed)
    {
      sum := 0;
      var left := committed;
      while left != map[]
        invariant sum + Total(left) == Total(committed)
        decreases |left|
      {
        var k :| k in left;
        TotalWithout(left, k);
        sum, left := sum + left[k], left - {k};
      }
    }

    method CountLoads(sid: Sid, kept: seq<Cpu>) returns (load: map<Cpu, nat>)
      requires forall s <- pinned :: Distinct(pinned[s])
      ensures load == LoadsBeside(host, View(), sid, kept)
    {
      load := map c | c in host.cpus && c !in kept :: 0;
      NoLoads(host, pinned, kept);
      var left := pinned.Keys - {sid};
      ghost var done: set<Sid> := {};
      while left != {}
        invariant left + done == pinned.Keys - {sid} && left !! done
        invariant load == Loads(host, pinned, done, kept)
        decreases |left|
      {
        var other :| other in left;
        load := AddPins(load, pinned[other]);
        OneMoreLoad(host, pinned, done, other, kept);
        left, done := left - {other}, done + {other};
      }
      assert done == pinned.Keys - {sid};
    }

    method AddPins(load: map<Cpu, nat>, pins: seq<Cpu>) returns (more: map<Cpu, nat>)
      requires Distinct(pins)
      ensures more == Pinning(load, pins)
    {
      more := load;
      for i := 0 to |pins|
        invariant more == Pinning(load, pins[..i])
      {
        assert pins[..i + 1] == pins[..i] + [pins[i]] && pins[i] !in pins[..i];
        if pins[i] in more {
          more := more[pins[i] := more[pins[i]] + 1];
        }
      }
      assert pins[..|pins|] == pins;
    }

    /** Admission, then the pins: kept as far as they go, made up from the least loaded CPUs. */
    method Reserve(sid: Sid, requested: int) returns (r: Option<seq<Cpu>>)
      requires GoodHost(host) && Sound(host, View())
      modifies this
      ensures var vcpus := if requested < 1 then 1 else requested;
        && View() == Reserved(host, old(View()), sid, vcpus)
        && (r.Some? <==> Admits(host, old(View()), sid, vcpus))
        && (r.Some? ==> r.value == if host.pinning then PinsOf(View(), sid) else [])
        && (r.Some? <==> host.capacity == 0 || Total(old(committed) - {sid}) + vcpus <= host.capacity)
        && committed == (if r.Some? then old(committed)[sid := vcpus] else old(committed))
        && pinned == (if r.Some? && host.pinning then old(pinned)[sid := r.value] else old(pinned))
        && (r.Some? && host.pinning ==> WellPinned(host, old(pinned), sid, vcpus, r.value))
    {
      var vcpus: nat := if requested < 1 then 1 else requested;
      var admitted := Admit(sid, vcpus);
      if !admitted {
        return None;
      }
      committed := committed[sid := vcpus];
      if !host.pinning {
        return Some([]);
      }
      var pins := ChoosePins(sid, vcpus);
      PinsAreWell(host, old(View()), sid, vcpus);
      pinned := pinned[sid := pins];
      r := Some(pins);
    }

    method Admit(sid: Sid, vcpus: nat) returns (ok: bool)
      ensures ok == Admits(host, View(), sid, vcpus)
    {
      var previous := if sid in committed then committed[sid] else 0;
      var sum := Sum();
      if sid in committed {
        TotalWithout(committed, sid);
      } else {
        assert committed - {sid} == committed;
      }
      ok := host.capacity == 0 || sum - previous + vcpus <= host.capacity;
    }

    method ChoosePins(sid: Sid, vcpus: nat) returns (pins: seq<Cpu>)
      requires forall s <- pinned :: Distinct(pinned[s])
      ensures pins == Pins(host, View(), sid, vcpus)
    {
      pins := Prefix(if sid in pinned then pinned[sid] else [], vcpus);
      if |pins| < vcpus {
        var load := CountLoads(sid, pins);
        var extra := TakeLightest(load, vcpus - |pins|);
        pins := pins + extra;
      }
    }

    method TakeLightest(load: map<Cpu, nat>, k: nat) returns (picks: seq<Cpu>)
      ensures picks == Lightest(load, k)
    {
      picks := [];
      var left := load;
      while |picks| < k && left != map[]
        invariant |picks| <= k
        invariant Lightest(load, k) == picks + Lightest(left, k - |picks|)
        decreases |left|
      {
        var cpu := First(left);
        LightestStartsWith(left, cpu, k - |picks|);
        picks, left := picks + [cpu], left - {cpu};
      }
    }

    method First(load: map<Cpu, nat>) returns (cpu: Cpu)
      requires load != map[]
      ensures IsLeast(load, cpu)
    {
      cpu :| cpu in load;
      var left := load.Keys - {cpu};
      while left != {}
        invariant left <= load.Keys && cpu in load && cpu !in left
        invariant forall c <- load :: c !in left && c != cpu ==> Before(load, cpu, c)
        decreases |left|
      {
        var c :| c in left;
        left := left - {c};
        if Before(load, c, cpu) {
          cpu := c;
        }
      }
    }

    method Release(sid: Sid)
      modifies this
      ensures View() == Released(old(View()), sid)
      ensures sid !in committed && forall s :: s != sid ==>
                (s in committed <==> s in old(committed)) && (s in committed ==> committed[s] == old(committed)[s])
      ensures sid !in pinned && forall s :: s != sid ==>
                (s in pinned <==> s in old(pinned)) && (s in pinned ==> pinned[s] == old(pinned)[s])
    {
      pinned := pinned - {sid};
      committed := committed - {sid};
    }
  }

  lemma NoLoads(h: Host, pinned: map<Sid, seq<Cpu>>, kept: seq<Cpu>)
    ensures Loads(h, pinned, {}, kept) == map c | c in h.cpus && c !in kept :: 0
  {
    assert forall c :: Holders(pinned, {}, c) == {};
  }

  lemma OneMoreLoad(h: Host, pinned: map<Sid, seq<Cpu>>, done: set<Sid>, other: Sid, kept: seq<Cpu>)
    requires done <= pinned.Keys && other in pinned && other !in done
    ensures Pinning(Loads(h, pinned, done, kept), pinned[other]) == Loads(h, pinned, done + {other}, kept)
  {
    forall c ensures |Holders(pinned, done + {other}, c)| == |Holders(pinned, done, c)|
                    + if c in pinned[other] then 1 else 0
    {
      var before := Holders(pinned, done, c);
      assert Holders(pinned, done + {other}, c) == if c in pinned[other] then before + {other} else before;
    }
  }

  // ---------- every run ----------

  datatype Op = Reserve(sid: Sid, vcpus: nat) | Release(sid: Sid)

  /** An operation that fails after its reservation releases it again: that is a Release. */
  ghost function Step(h: Host, t: Table, op: Op): Table {
    match op
    case Reserve(sid, vcpus) => Reserved(h, t, sid, vcpus)
    case Release(sid) => Released(t, sid)
  }

  ghost function Run(h: Host, t: Table, ops: seq<Op>): Table
    decreases |ops|
  {
    if ops == [] then t else Run(h, Step(h, t, ops[0]), ops[1..])
  }

  const EMPTY := Table(map[], map[])

  ghost predicate Inv(h: Host, t: Table) {
    Sound(h, t) && (h.capacity > 0 ==> Total(t.committed) <= h.capacity)
  }

  lemma PinsAreGood(h: Host, t: Table, sid: Sid, vcpus: nat)
    requires Sound(h, t)
    ensures var pins := Pins(h, t, sid, vcpus);
      Distinct(pins) && |pins| <= vcpus && forall c <- pins :: c in h.cpus
  {
    var kept := Prefix(PinsOf(t, sid), vcpus);
    var extra := Lightest(LoadsBeside(h, t, sid, kept), vcpus - |kept|);
    LightestIsLeastLoaded(LoadsBeside(h, t, sid, kept), vcpus - |kept|);
    forall c | c in extra ensures c !in kept && c in h.cpus {
      assert c in LoadsBeside(h, t, sid, kept);
    }
    KeptAreGood(h, t, sid, vcpus);
    DistinctJoin(kept, extra);
  }

  function Elements<T>(s: seq<T>): set<T> {
    set x | x in s
  }

  lemma {:induction false} DistinctSize<T>(s: seq<T>)
    requires Distinct(s)
    ensures |Elements(s)| == |s|
    decreases |s|
  {
    if s != [] {
      DistinctSize(s[1..]);
      assert Elements(s) == Elements(s[1..]) + {s[0]};
    }
  }

  lemma DifferenceSize<T>(all: set<T>, some: set<T>)
    requires some <= all
    ensures |all - some| == |all| - |some|
  {
    assert all == (all - some) + some;
  }

  lemma AscendingIsDistinct(s: seq<Cpu>)
    requires Ascending(s)
    ensures Distinct(s)
  {
  }

  /** The CPUs not kept are the others. */
  lemma RoomBeside(cpus: seq<Cpu>, kept: seq<Cpu>, load: map<Cpu, nat>)
    requires Distinct(cpus) && Distinct(kept) && Elements(kept) <= Elements(cpus)
    requires load.Keys == Elements(cpus) - Elements(kept)
    ensures |load| == |cpus| - |kept|
  {
    DistinctSize(cpus);
    DistinctSize(kept);
    DifferenceSize(Elements(cpus), Elements(kept));
    assert |load| == |load.Keys|;
  }

  lemma LoadsAreOthers(h: Host, t: Table, sid: Sid, kept: seq<Cpu>, c: Cpu)
    requires c in LoadsBeside(h, t, sid, kept)
    ensures LoadsBeside(h, t, sid, kept)[c] == Others(t.pinned, sid, c)
  {
    assert Holders(t.pinned, t.pinned.Keys - {sid}, c) == set s | s in t.pinned && s != sid && c in t.pinned[s];
  }

  lemma AddedComeFirst(h: Host, t: Table, sid: Sid, kept: seq<Cpu>, k: nat, p: Cpu, c: Cpu)
    requires var picks := Lightest(LoadsBeside(h, t, sid, kept), k); p in picks && c !in picks
    requires c in h.cpus && c !in kept
    ensures Others(t.pinned, sid, p) < Others(t.pinned, sid, c)
            || (Others(t.pinned, sid, p) == Others(t.pinned, sid, c) && p < c)
  {
    var load := LoadsBeside(h, t, sid, kept);
    LightestIsLeastLoaded(load, k);
    assert c in load && Before(load, p, c);
    LoadsAreOthers(h, t, sid, kept, p);
    LoadsAreOthers(h, t, sid, kept, c);
  }

  lemma LoadsBesideSize(h: Host, t: Table, sid: Sid, kept: seq<Cpu>)
    requires Ascending(h.cpus) && Distinct(kept) && forall c <- kept :: c in h.cpus
    ensures |LoadsBeside(h, t, sid, kept)| == |h.cpus| - |kept|
  {
    var load := LoadsBeside(h, t, sid, kept);
    AscendingIsDistinct(h.cpus);
    assert load.Keys == Elements(h.cpus) - Elements(kept);
    RoomBeside(h.cpus, kept, load);
  }

  lemma KeptAreGood(h: Host, t: Table, sid: Sid, vcpus: nat)
    requires Sound(h, t)
    ensures var kept := Prefix(PinsOf(t, sid), vcpus);
      Distinct(kept) && |kept| <= vcpus && forall c <- kept :: c in h.cpus
  {
    if sid in t.pinned {
      assert Distinct(t.pinned[sid]) && forall c <- t.pinned[sid] :: c in h.cpus;
    }
  }

  lemma PinsAreMany(h: Host, t: Table, sid: Sid, vcpus: nat)
    requires GoodHost(h) && Sound(h, t)
    ensures |Pins(h, t, sid, vcpus)| == if vcpus <= |h.cpus| then vcpus else |h.cpus|
  {
    var kept := Prefix(PinsOf(t, sid), vcpus);
    KeptAreGood(h, t, sid, vcpus);
    LoadsBesideSize(h, t, sid, kept);
    LightestIsLeastLoaded(LoadsBeside(h, t, sid, kept), vcpus - |kept|);
  }

  lemma PinsAreWell(h: Host, t: Table, sid: Sid, vcpus: nat)
    requires GoodHost(h) && Sound(h, t)
    ensures WellPinned(h, t.pinned, sid, vcpus, Pins(h, t, sid, vcpus))
  {
    var kept := Prefix(PinsOf(t, sid), vcpus);
    var pins := Pins(h, t, sid, vcpus);
    PinsAreGood(h, t, sid, vcpus);
    PinsAreMany(h, t, sid, vcpus);
    forall p, c | p in pins && c in h.cpus && p !in kept && c !in pins
      ensures Others(t.pinned, sid, p) < Others(t.pinned, sid, c)
              || (Others(t.pinned, sid, p) == Others(t.pinned, sid, c) && p < c)
    {
      AddedComeFirst(h, t, sid, kept, vcpus - |kept|, p, c);
    }
  }

  lemma DistinctJoin(a: seq<Cpu>, b: seq<Cpu>)
    requires Distinct(a) && Distinct(b) && forall c <- b :: c !in a
    ensures Distinct(a + b)
  {
    forall i, j | 0 <= i < j < |a + b| ensures (a + b)[i] != (a + b)[j] {
      if i < |a| <= j {
        assert a[i] in a && b[j - |a|] in b;
      }
    }
  }

  lemma TotalUpdated(m: map<Sid, nat>, k: Sid, v: nat)
    ensures Total(m[k := v]) == Total(m - {k}) + v
  {
    TotalWithout(m[k := v], k);
    assert m[k := v] - {k} == m - {k};
  }

  lemma TotalSmaller(m: map<Sid, nat>, k: Sid)
    ensures Total(m - {k}) <= Total(m)
  {
    if k in m {
      TotalWithout(m, k);
    } else {
      assert m - {k} == m;
    }
  }

  lemma StepKeepsInv(h: Host, t: Table, op: Op)
    requires Inv(h, t)
    ensures Inv(h, Step(h, t, op))
  {
    TotalSmaller(t.committed, op.sid);
    if op.Reserve? {
      PinsAreGood(h, t, op.sid, op.vcpus);
      TotalUpdated(t.committed, op.sid, op.vcpus);
    }
  }

  lemma {:induction false} RunKeepsInv(h: Host, t: Table, ops: seq<Op>)
    requires Inv(h, t)
    ensures Inv(h, Run(h, t, ops))
    decreases |ops|
  {
    if ops != [] {
      StepKeepsInv(h, t, ops[0]);
      RunKeepsInv(h, Step(h, t, ops[0]), ops[1..]);
    }
  }

  /** Whatever is reserved, released or rejected, the node never commits more than its capacity, and
      a sandbox's vCPUs are on different CPUs of the host. */
  lemma CommitBounded(h: Host, ops: seq<Op>)
    ensures var t := Run(h, EMPTY, ops);
      && (h.capacity > 0 ==> Total(t.committed) <= h.capacity)
      && forall s <- t.pinned :: Distinct(t.pinned[s]) && forall c <- t.pinned[s] :: c in h.cpus
  {
    assert Inv(h, EMPTY);
    RunKeepsInv(h, EMPTY, ops);
  }

  /** Whether each operation is granted; a release always is. */
  ghost function Answers(h: Host, t: Table, ops: seq<Op>): (answers: seq<bool>)
    ensures |answers| == |ops|
    decreases |ops|
  {
    if ops == [] then []
    else [ops[0].Release? || Admits(h, t, ops[0].sid, ops[0].vcpus)] + Answers(h, Step(h, t, ops[0]), ops[1..])
  }

  /** The vCPUs each sandbox was last granted and has not released since, going by the answers alone. */
  function Outstanding(held: map<Sid, nat>, ops: seq<Op>, answers: seq<bool>): map<Sid, nat>
    requires |answers| == |ops|
    decreases |ops|
  {
    if ops == [] then held
    else
      var next := match ops[0]
                  case Release(sid) => held - {sid}
                  case Reserve(sid, vcpus) => if answers[0] then held[sid := vcpus] else held;
      Outstanding(next, ops[1..], answers[1..])
  }

  lemma {:induction false} CommittedIsOutstanding(h: Host, t: Table, ops: seq<Op>)
    ensures Run(h, t, ops).committed == Outstanding(t.committed, ops, Answers(h, t, ops))
    decreases |ops|
  {
    if ops != [] {
      CommittedIsOutstanding(h, Step(h, t, ops[0]), ops[1..]);
    }
  }

  lemma {:induction false} LastAnswer(h: Host, t: Table, ops: seq<Op>, op: Op)
    ensures Answers(h, t, ops + [op])[|ops|] == (op.Release? || Admits(h, Run(h, t, ops), op.sid, op.vcpus))
    decreases |ops|
  {
    if ops == [] {
      assert (ops + [op])[0] == op;
    } else {
      assert (ops + [op])[1..] == ops[1..] + [op];
      LastAnswer(h, Step(h, t, ops[0]), ops[1..], op);
    }
  }

  /** A reserve is granted exactly when it fits beside what the others were granted and have not
      released: nothing a release gave back is held against anyone. */
  lemma GrantedExactly(h: Host, ops: seq<Op>, sid: Sid, vcpus: nat)
    ensures var held := Outstanding(map[], ops, Answers(h, EMPTY, ops));
      Answers(h, EMPTY, ops + [Reserve(sid, vcpus)])[|ops|] <==>
      h.capacity == 0 || Total(held - {sid}) + vcpus <= h.capacity
  {
    CommittedIsOutstanding(h, EMPTY, ops);
    LastAnswer(h, EMPTY, ops, Reserve(sid, vcpus));
  }

  /** Asking again for the same number of vCPUs changes no pin; asking for more keeps the old ones. */
  lemma RepeatKeepsPins(h: Host, t: Table, sid: Sid, vcpus: nat)
    requires Sound(h, t) && Admits(h, t, sid, vcpus) && h.pinning && |PinsOf(t, sid)| <= vcpus
    ensures PinsOf(t, sid) <= PinsOf(Reserved(h, t, sid, vcpus), sid)
    ensures |PinsOf(t, sid)| == vcpus ==> Reserved(h, t, sid, vcpus).pinned == t.pinned[sid := PinsOf(t, sid)]
  {
    var kept := Prefix(PinsOf(t, sid), vcpus);
    assert kept == PinsOf(t, sid) && kept + [] == kept;
    LightestIsLeastLoaded(LoadsBeside(h, t, sid, kept), vcpus - |kept|);
  }

  // ---------- single-vCPU sandboxes: the pigeonhole bound ----------

  function CeilDiv(a: nat, n: nat): nat
    requires n > 0
  {
    (a + n - 1) / n
  }

  predicate SinglePins(t: Table) {
    (forall s <- t.committed :: t.committed[s] == 1) && (forall s <- t.pinned :: |t.pinned[s]| <= 1)
  }

  /** If every CPU of `cpus` carried `least` of sandboxes with one pin each, there would have to be
      |cpus| * least of them. */
  lemma {:induction false} Pigeonhole(pinned: map<Sid, seq<Cpu>>, some: set<Sid>, cpus: seq<Cpu>, least: nat)
    requires some <= pinned.Keys && (forall s <- some :: |pinned[s]| <= 1) && Distinct(cpus)
    requires forall c <- cpus :: least <= |Holders(pinned, some, c)|
    ensures |cpus| * least <= |some|
    decreases |cpus|
  {
    if cpus == [] {
    } else {
      var c, rest := cpus[0], cpus[1..];
      var here := Holders(pinned, some, c);
      forall d | d in rest ensures Holders(pinned, some - here, d) == Holders(pinned, some, d) {
        forall s | s in Holders(pinned, some, d) ensures s !in here {
          assert d in pinned[s] && |pinned[s]| == 1;
        }
      }
      Pigeonhole(pinned, some - here, rest, least);
      assert |some - here| + |here| == |some|;
      assert |cpus| * least == |rest| * least + least;
    }
  }

  lemma {:induction false} TotalOfOnes(m: map<Sid, nat>)
    requires forall s <- m :: m[s] == 1
    ensures Total(m) == |m|
    decreases |m|
  {
    if m != map[] {
      var k :| k in m && Total(m) == m[k] + Total(m - {k});
      TotalOfOnes(m - {k});
    }
  }

  ghost predicate LoadsAtMost(h: Host, t: Table, bound: nat) {
    forall c <- h.cpus :: Load(t.pinned, c) <= bound
  }

  ghost predicate SingleInv(h: Host, t: Table, bound: nat) {
    Inv(h, t) && SinglePins(t) && LoadsAtMost(h, t, bound)
  }

  /** The least loaded CPU has room: were it full, all would be, and the node over its capacity. */
  lemma LeastHasRoom(h: Host, t: Table, sid: Sid, cpu: Cpu)
    requires GoodHost(h) && h.capacity > 0 && Sound(h, t) && SinglePins(t) && Admits(h, t, sid, 1)
    requires IsLeast(LoadsBeside(h, t, sid, []), cpu)
    ensures |Holders(t.pinned, t.pinned.Keys - {sid}, cpu)| < CeilDiv(h.capacity, |h.cpus|)
  {
    var n, bound := |h.cpus|, CeilDiv(h.capacity, |h.cpus|);
    var others := t.pinned.Keys - {sid};
    var load := LoadsBeside(h, t, sid, []);
    if |Holders(t.pinned, others, cpu)| >= bound {
      forall c | c in h.cpus ensures bound <= |Holders(t.pinned, others, c)| {
        assert c in load;
        assert c == cpu || Before(load, cpu, c);
      }
      Pigeonhole(t.pinned, others, h.cpus, bound);
      TotalOfOnes(t.committed - {sid});
      SubsetSize(others, (t.committed - {sid}).Keys);
      CeilCovers(h.capacity, n);
      assert false;
    }
  }

  lemma CeilCovers(a: nat, n: nat)
    requires n > 0
    ensures n * CeilDiv(a, n) >= a
  {
    assert a + n - 1 == n * ((a + n - 1) / n) + (a + n - 1) % n;
  }

  lemma FewerHolders(pinned: map<Sid, seq<Cpu>>, sid: Sid, c: Cpu)
    ensures |Holders(pinned, pinned.Keys - {sid}, c)| <= Load(pinned, c)
    ensures Load(pinned - {sid}, c) == |Holders(pinned, pinned.Keys - {sid}, c)|
  {
    SubsetSize(Holders(pinned, pinned.Keys - {sid}, c), Holders(pinned, pinned.Keys, c));
    assert Holders(pinned - {sid}, (pinned - {sid}).Keys, c) == Holders(pinned, pinned.Keys - {sid}, c);
  }

  lemma LoadAfterPinning(pinned: map<Sid, seq<Cpu>>, sid: Sid, pins: seq<Cpu>, c: Cpu)
    ensures Load(pinned[sid := pins], c) == |Holders(pinned, pinned.Keys - {sid}, c)| + if c in pins then 1 else 0
  {
    var rest := Holders(pinned, pinned.Keys - {sid}, c);
    var after := pinned[sid := pins];
    assert Holders(after, after.Keys, c) == if c in pins then rest + {sid} else rest;
  }

  lemma SingleReserve(h: Host, t: Table, sid: Sid)
    requires GoodHost(h) && h.capacity > 0 && h.pinning && SingleInv(h, t, CeilDiv(h.capacity, |h.cpus|))
    requires Admits(h, t, sid, 1)
    ensures SingleInv(h, Reserved(h, t, sid, 1), CeilDiv(h.capacity, |h.cpus|))
  {
    StepKeepsInv(h, t, Reserve(sid, 1));
    var bound := CeilDiv(h.capacity, |h.cpus|);
    var pins := Pins(h, t, sid, 1);
    PinsAreGood(h, t, sid, 1);
    forall c | c in h.cpus ensures Load(t.pinned[sid := pins], c) <= bound {
      LoadAfterPinning(t.pinned, sid, pins, c);
      FewerHolders(t.pinned, sid, c);
      if c in pins && PinsOf(t, sid) == [] {
        var load := LoadsBeside(h, t, sid, []);
        assert h.cpus[0] in load;
        var a := LeastExists(load);
        LightestStartsWith(load, a, 1);
        LeastHasRoom(h, t, sid, a);
      } else if c in pins {
        KeptPinsCounted(t.pinned, sid, c);
      }
    }
  }

  lemma KeptPinsCounted(pinned: map<Sid, seq<Cpu>>, sid: Sid, c: Cpu)
    requires sid in pinned && c in pinned[sid]
    ensures |Holders(pinned, pinned.Keys - {sid}, c)| + 1 == Load(pinned, c)
  {
    LoadAfterPinning(pinned, sid, pinned[sid], c);
    assert pinned[sid := pinned[sid]] == pinned;
  }

  predicate SingleVcpu(ops: seq<Op>) {
    forall op <- ops :: op.Reserve? ==> op.vcpus == 1
  }

  lemma {:induction false} SingleRun(h: Host, t: Table, ops: seq<Op>)
    requires GoodHost(h) && h.capacity > 0 && h.pinning && SingleVcpu(ops)
    requires SingleInv(h, t, CeilDiv(h.capacity, |h.cpus|))
    ensures SingleInv(h, Run(h, t, ops), CeilDiv(h.capacity, |h.cpus|))
    decreases |ops|
  {
    if ops != [] {
      var op := ops[0];
      if op.Reserve? {
        assert op in ops;
        if Admits(h, t, op.sid, 1) { SingleReserve(h, t, op.sid); }
      } else {
        StepKeepsInv(h, t, op);
        forall c | c in h.cpus ensures Load(t.pinned - {op.sid}, c) <= CeilDiv(h.capacity, |h.cpus|) {
          FewerHolders(t.pinned, op.sid, c);
        }
      }
      SingleRun(h, Step(h, t, op), ops[1..]);
    }
  }

  /** Over any run of reserves, failed operations and releases of single-vCPU sandboxes, no host CPU
      carries more than its rounded-up share of the capacity. */
  lemma NoCpuOverloaded(h: Host, ops: seq<Op>, c: Cpu)
    requires GoodHost(h) && h.capacity > 0 && h.pinning && SingleVcpu(ops) && c in h.cpus
    ensures Load(Run(h, EMPTY, ops).pinned, c) <= CeilDiv(h.capacity, |h.cpus|)
  {
    forall d | d in h.cpus ensures Load(EMPTY.pinned, d) == 0 {
      assert Holders(EMPTY.pinned, {}, d) == {};
    }
    assert Inv(h, EMPTY);
    SingleRun(h, EMPTY, ops);
  }

  // ---------- fresh sandboxes of any size: even loads ----------

  ghost predicate Even(h: Host, t: Table) {
    forall a <- h.cpus, b <- h.cpus :: Load(t.pinned, a) <= Load(t.pinned, b) + 1
  }

  lemma FreshReserveKeepsEven(h: Host, t: Table, sid: Sid, vcpus: nat)
    requires Sound(h, t) && Even(h, t) && sid !in t.pinned && h.pinning && Admits(h, t, sid, vcpus)
    ensures Even(h, Reserved(h, t, sid, vcpus))
  {
    var load := LoadsBeside(h, t, sid, []);
    var picks := Lightest(load, vcpus);
    LightestIsLeastLoaded(load, vcpus);
    assert Pins(h, t, sid, vcpus) == picks;
    assert t.pinned.Keys - {sid} == t.pinned.Keys;
    forall a, b | a in h.cpus && b in h.cpus
      ensures Load(t.pinned[sid := picks], a) <= Load(t.pinned[sid := picks], b) + 1
    {
      LoadAfterPinning(t.pinned, sid, picks, a);
      LoadAfterPinning(t.pinned, sid, picks, b);
      assert load[a] == Load(t.pinned, a) && load[b] == Load(t.pinned, b);
      if a in picks && b !in picks {
        assert Before(load, a, b);
      }
    }
  }

  /** Every operation reserves for a sandbox that has no reservation yet. */
  ghost predicate AllFresh(h: Host, t: Table, ops: seq<Op>)
    decreases |ops|
  {
    ops == [] || (ops[0].Reserve? && ops[0].sid !in t.committed && AllFresh(h, Step(h, t, ops[0]), ops[1..]))
  }

  lemma {:induction false} FreshRunEven(h: Host, t: Table, ops: seq<Op>)
    requires h.pinning && Inv(h, t) && Even(h, t) && AllFresh(h, t, ops)
    ensures Even(h, Run(h, t, ops))
    decreases |ops|
  {
    if ops != [] {
      StepKeepsInv(h, t, ops[0]);
      if Admits(h, t, ops[0].sid, ops[0].vcpus) { FreshReserveKeepsEven(h, t, ops[0].sid, ops[0].vcpus); }
      FreshRunEven(h, Step(h, t, ops[0]), ops[1..]);
    }
  }

  /** Sandboxes of any sizes placed one after another load the CPUs evenly, to within one. */
  lemma FreshReservationsEven(h: Host, ops: seq<Op>, a: Cpu, b: Cpu)
    requires h.pinning && AllFresh(h, EMPTY, ops) && a in h.cpus && b in h.cpus
    ensures Load(Run(h, EMPTY, ops).pinned, a) <= Load(Run(h, EMPTY, ops).pinned, b) + 1
  {
    forall c | c in h.cpus ensures Load(EMPTY.pinned, c) == 0 {
      assert Holders(EMPTY.pinned, {}, c) == {};
    }
    FreshRunEven(h, EMPTY, ops);
  }
}
