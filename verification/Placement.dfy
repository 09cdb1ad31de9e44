/** Placing one sandbox on a node: the journaled placement that makes a repeated create safe across
    crashes, and the bounded retry over nodes whose vCPUs are taken. */
module Placement {
  import opened Options
  import opened Sequences

  type Node = nat

  /** Node and tap index as journaled: no node is "", no tap is 0. */
  datatype Place = Place(node: Option<Node>, tap: nat)

  /** How POST /vm/create ends: the VM runs; it runs but the answer is lost; the node is out of
      vCPUs; it failed. */
  datatype Post = Created | AnswerLost | Full | Failed

  /** GET /vm/{id}: running, present but not running, an error. */
  datatype Seen = SeesRunning | SeesOther | SeesError

  // ---------- calls that crash and are repeated ----------

  /** Where the current call is. */
  datatype Pc =
    | Idle
    | AskVm
    | AskHealth
    | AllocTap(journaled: Option<Node>)
    | Pick(tap: nat, attempt: nat, full: set<Node>)
    | Journal(node: Node, tap: nat, attempt: nat, full: set<Node>)
    | Send(node: Node, tap: nat, attempt: nat, full: set<Node>)

  /** `vms` maps each node running a VM of this sandbox to the tap it was given; `retries` is
      SANDBOX_VCPU_FULL_RETRIES. */
  datatype State = State(retries: nat, journal: Place, vms: map<Node, nat>, nextTap: nat, pc: Pc)

  datatype Action =
    | Begin
    | SeeVm(seen: Seen)
    | SeeHealth(reachable: bool)
    | TakeTap
    | PickNode(node: Node)
    | GiveUpPicking
    | WriteJournal
    | SendCreate(answer: Post)
    | Crash
    | NodeLost(node: Node)
    | DestroyVm

  /** The node agent keeps a running VM as it is, and answers Full only where there is none. */
  function Started(s: State, node: Node, tap: nat): map<Node, nat> {
    if node in s.vms then s.vms else s.vms[node := tap]
  }

  function Next(s: State, a: Action): Option<State> {
    match a
    case Begin =>
      if !s.pc.Idle? then None
      else if s.journal.node.Some? && s.journal.tap != 0 then Some(s.(pc := AskVm))
      else if s.journal.tap == 0 then Some(s.(pc := AllocTap(s.journal.node)))
      else Some(s.(pc := Pick(s.journal.tap, 0, {})))
    case SeeVm(seen) =>
      if !s.pc.AskVm? || s.journal.node.None? || (seen.SeesRunning? && s.journal.node.value !in s.vms) then None
      else match seen {
        case SeesRunning => Some(s.(pc := Idle))
        case SeesOther => Some(s.(pc := Journal(s.journal.node.value, s.journal.tap, 0, {})))
        case SeesError => Some(s.(pc := AskHealth))
      }
    case SeeHealth(reachable) =>
      if !s.pc.AskHealth? || s.journal.node.None? then None
      else if reachable then Some(s.(pc := Journal(s.journal.node.value, s.journal.tap, 0, {})))
      else Some(s.(pc := AllocTap(None)))
    case TakeTap =>
      if !s.pc.AllocTap? then None
      else
        Some(s.(nextTap := s.nextTap + 1,
                pc := if s.pc.journaled.Some? then Journal(s.pc.journaled.value, s.nextTap, 0, {})
                    else Pick(s.nextTap, 0, {})))
    case PickNode(node) =>
      if !s.pc.Pick? || node in s.pc.full then None
      else Some(s.(pc := Journal(node, s.pc.tap, s.pc.attempt, s.pc.full)))
    case GiveUpPicking => if s.pc.Pick? then Some(s.(pc := Idle)) else None
    case WriteJournal =>
      if !s.pc.Journal? then None
      else Some(s.(journal := Place(Some(s.pc.node), s.pc.tap),
          pc := Send(s.pc.node, s.pc.tap, s.pc.attempt, s.pc.full)))
    case SendCreate(answer) =>
      if !s.pc.Send? || (answer.Full? && s.pc.node in s.vms) then None
      else match answer {
        case Created => Some(s.(vms := Started(s, s.pc.node, s.pc.tap), pc := Idle))
        case AnswerLost => Some(s.(vms := Started(s, s.pc.node, s.pc.tap), pc := Idle))
        case Failed => Some(s.(pc := Idle))
        case Full =>
          if s.pc.attempt == s.retries then Some(s.(pc := Idle))
          else Some(s.(pc := Pick(s.pc.tap, s.pc.attempt + 1, s.pc.full + {s.pc.node})))
      }
    case Crash => Some(s.(pc := Idle))
    case NodeLost(node) => Some(s.(vms := s.vms - {node}))
    case DestroyVm =>
      if s.pc.Idle? && s.journal.node.Some? then Some(s.(vms := s.vms - {s.journal.node.value})) else None
  }

  predicate Run(s: State, actions: seq<Action>, t: State)
    decreases |actions|
  {
    if actions == [] then t == s
    else Next(s, actions[0]).Some? && Run(Next(s, actions[0]).value, actions[1..], t)
  }

  predicate Initial(s: State) {
    s.journal == Place(None, 0) && s.vms == map[] && s.nextTap > 0 && s.pc.Idle?
  }

  /** The placement the current call is bound to: its own choice, or the journal. */
  function Bound(s: State): Place {
    match s.pc
    case AllocTap(node) => Place(node, 0)
    case Pick(tap, _, _) => Place(None, tap)
    case Journal(node, tap, _, _) => Place(Some(node), tap)
    case Send(node, tap, _, _) => Place(Some(node), tap)
    case _ => s.journal
  }

  /** The sandbox runs on the journaled node alone, with the journaled tap, and the call in progress
      is bound to that. */
  predicate OnePlace(s: State) {
    forall n <- s.vms :: Bound(s) == Place(Some(n), s.vms[n]) && s.journal == Bound(s)
  }

  predicate CallSound(s: State) {
    && s.nextTap > 0
    && (s.journal.node.Some? ==> s.journal.tap != 0)
    && (s.pc.AskVm? || s.pc.AskHealth? ==> s.journal.node.Some?)
    && (s.pc.Send? ==> s.journal == Place(Some(s.pc.node), s.pc.tap))
    && (s.pc.Pick? || s.pc.Journal? || s.pc.Send? ==>
          s.pc.tap != 0 && |s.pc.full| == s.pc.attempt <= s.retries && (s.pc.Pick? || s.pc.node !in s.pc.full))
  }

  /** The journaled node cannot be reached although the sandbox runs on it. */
  predicate Forsakes(s: State, a: Action) {
    s.pc.AskHealth? && a == SeeHealth(false) && s.journal.node.Some? && s.journal.node.value in s.vms
  }

  lemma SendKeepsCallSound(s: State, a: Action)
    requires CallSound(s) && Next(s, a).Some? && a.SendCreate?
    ensures CallSound(Next(s, a).value)
  {
    assert s.pc.node !in s.pc.full && |s.pc.full + {s.pc.node}| == |s.pc.full| + 1;
  }

  lemma NextKeepsCallSound(s: State, a: Action)
    requires CallSound(s) && Next(s, a).Some?
    ensures CallSound(Next(s, a).value)
  {
    if a.SendCreate? {
      SendKeepsCallSound(s, a);
    }
  }

  /** A sandbox leaves its one place if and only if a create is repeated while the node it runs on
      is cut off. */
  lemma ForsakenExactly(s: State, a: Action)
    requires CallSound(s) && OnePlace(s) && Next(s, a).Some?
    ensures !OnePlace(Next(s, a).value) <==> Forsakes(s, a)
  {
    var t := Next(s, a).value;
    if a.SendCreate? && s.pc.Send? && (a.answer.Created? || a.answer.AnswerLost?) {
      assert forall n <- t.vms :: n == s.pc.node;
    }
  }

  predicate NeverForsaken(s: State, actions: seq<Action>)
    decreases |actions|
  {
    actions == [] || (!Forsakes(s, actions[0])
        && (Next(s, actions[0]).Some? ==> NeverForsaken(Next(s, actions[0]).value, actions[1..])))
  }

  lemma {:induction false} RunKeepsOnePlace(s: State, actions: seq<Action>, t: State)
    requires CallSound(s) && OnePlace(s) && Run(s, actions, t) && NeverForsaken(s, actions)
    ensures CallSound(t) && OnePlace(t)
    decreases |actions|
  {
    if actions != [] {
      NextKeepsCallSound(s, actions[0]);
      ForsakenExactly(s, actions[0]);
      RunKeepsOnePlace(Next(s, actions[0]).value, actions[1..], t);
    }
  }

  /** However often create crashes and is repeated, there is never a second VM while the journaled
      node can be reached, and the journal names the node and tap of the one there is. */
  lemma AtMostOneVm(s: State, actions: seq<Action>, t: State, n1: Node, n2: Node)
    requires Initial(s) && Run(s, actions, t) && NeverForsaken(s, actions) && n1 in t.vms && n2 in t.vms
    ensures n1 == n2 && t.journal == Place(Some(n1), t.vms[n1])
  {
    RunKeepsOnePlace(s, actions, t);
  }

  /** Each call sends at most retries + 1 requests, each to a node that has not refused it. */
  lemma {:induction false} RetriesBounded(s: State, actions: seq<Action>, t: State)
    requires CallSound(s) && Run(s, actions, t)
    ensures t.pc.Send? ==> t.pc.attempt == |t.pc.full| <= s.retries && t.pc.node !in t.pc.full
    ensures t.retries == s.retries
    ensures t.pc.Send? ==> t.journal == Place(Some(t.pc.node), t.pc.tap)
    decreases |actions|
  {
    if actions != [] {
      NextKeepsCallSound(s, actions[0]);
      RetriesBounded(Next(s, actions[0]).value, actions[1..], t);
    }
  }

  lemma RunCons(s: State, a: Action, rest: seq<Action>, t: State)
    requires Next(s, a).Some? && Run(Next(s, a).value, rest, t)
    ensures Run(s, [a] + rest, t)
  {
    assert ([a] + rest)[1..] == rest;
  }

  /** And then the very call that cut it off can start the sandbox a second time. */
  lemma ForsakenRunsTwice(s: State, other: Node) returns (t: State)
    requires CallSound(s) && Forsakes(s, SeeHealth(false)) && other !in s.vms
    ensures Run(s, [SeeHealth(false), TakeTap, PickNode(other), WriteJournal, SendCreate(Created)], t)
    ensures s.journal.node.value in t.vms && other in t.vms && t.journal == Place(Some(other), t.vms[other])
  {
    var s1 := Next(s, SeeHealth(false)).value;
    var s2 := Next(s1, TakeTap).value;
    var s3 := Next(s2, PickNode(other)).value;
    var s4 := Next(s3, WriteJournal).value;
    t := Next(s4, SendCreate(Created)).value;
    RunCons(s4, SendCreate(Created), [], t);
    RunCons(s3, WriteJournal, [SendCreate(Created)], t);
    RunCons(s2, PickNode(other), [WriteJournal, SendCreate(Created)], t);
    RunCons(s1, TakeTap, [PickNode(other), WriteJournal, SendCreate(Created)], t);
    RunCons(s, SeeHealth(false), [TakeTap, PickNode(other), WriteJournal, SendCreate(Created)], t);
  }

  // ---------- the retry loop of one call ----------

  datatype Result = Placed(node: Node, tap: nat) | Exceeded | NoNode | Error

  /** The answers of the nodes during one call.  `pick` never returns a node it is told to exclude. */
  datatype World = World(pick: set<Node> -> Option<Node>, post: Node -> Post)

  ghost predicate Fair(w: World) {
    forall s: set<Node> :: w.pick(s).Some? ==> w.pick(s).value !in s
  }

  function Nodes(posts: seq<Node>): set<Node> {
    set n | n in posts
  }

  /** Where the loop is before its next iteration: with a node from the journal, or to pick one. */
  function Entry(node: Option<Node>, tap: nat, full: set<Node>, attempt: nat): Pc {
    if node.Some? then Journal(node.value, tap, attempt, full) else Pick(tap, attempt, full)
  }

  /** The steps of one iteration: a node is picked unless it is given, the journal is written, and
      only then the request is sent. */
  function Attempt(w: World, node: Node, given: bool): seq<Action> {
    (if given then [] else [PickNode(node)]) + [WriteJournal, SendCreate(w.post(node))]
  }

  /** The steps of the loop up to the last of these requests. */
  function Tried(w: World, first: Option<Node>, posts: seq<Node>): seq<Action> {
    if posts == [] then []
    else
      var n := |posts| - 1;
      Tried(w, first, posts[..n]) + Attempt(w, posts[n], n == 0 && first.Some?)
  }

  /** The state as the loop finds it: bound to this node and tap, and only nodes that do not run the
      sandbox answer that they are full. */
  predicate AtLoop(s: State, w: World, retries: nat, journal: Place, node: Option<Node>, tap: nat) {
    && s.retries == retries && s.journal == journal && s.pc == Entry(node, tap, {}, 0)
    && forall n <- s.vms :: !w.post(n).Full?
  }

  /** What the loop did from `s` to `t`: its requests, and the end for want of a node. */
  predicate RanTo(s: State, t: State, w: World, first: Option<Node>, posts: seq<Node>, noNode: bool, journal: Place) {
    && Run(s, Tried(w, first, posts) + (if noNode then [GiveUpPicking] else []), t)
    && t.pc.Idle? && t.journal == journal
  }

  lemma {:induction false} RunThen(s: State, first: seq<Action>, t: State, second: seq<Action>, u: State)
    requires Run(s, first, t) && Run(t, second, u)
    ensures Run(s, first + second, u)
    decreases |first|
  {
    if first == [] {
      assert first + second == second;
    } else {
      RunThen(Next(s, first[0]).value, first[1..], t, second, u);
      assert (first + second)[1..] == first[1..] + second;
    }
  }

  /** One iteration, from its entry to the answer. */
  lemma AttemptRuns(s: State, w: World, node: Node, given: bool, tap: nat, full: set<Node>, attempt: nat)
    returns (t: State)
    requires s.pc == Entry(if given then Some(node) else None, tap, full, attempt) && node !in full
    requires w.post(node).Full? ==> node !in s.vms
    ensures Run(s, Attempt(w, node, given), t) && t.retries == s.retries && t.journal == Place(Some(node), tap)
    ensures t.vms == if w.post(node).Created? || w.post(node).AnswerLost? then Started(s, node, tap) else s.vms
    ensures t.pc == if w.post(node).Full? && attempt != s.retries then Pick(tap, attempt + 1, full + {node}) else Idle
  {
    var journaling := s.(pc := Journal(node, tap, attempt, full));
    var sending := Next(journaling, WriteJournal).value;
    t := Next(sending, SendCreate(w.post(node))).value;
    RunCons(sending, SendCreate(w.post(node)), [], t);
    RunCons(journaling, WriteJournal, [SendCreate(w.post(node))], t);
    if !given {
      RunCons(s, PickNode(node), [WriteJournal, SendCreate(w.post(node))], t);
    }
    assert [] + [WriteJournal, SendCreate(w.post(node))] == [WriteJournal, SendCreate(w.post(node))];
  }

  /** Where requests that were all refused leave the protocol: about to pick again, or, when the last
      try is used up, done. */
  predicate AfterRefusals(s: State, t: State, first: Option<Node>, tap: nat, posts: seq<Node>) {
    && t.retries == s.retries && t.vms == s.vms
    && t.journal == (if posts == [] then s.journal else Place(Some(posts[|posts| - 1]), tap))
    && t.pc == if |posts| == s.retries + 1 then Idle
               else Entry(if posts == [] then first else None, tap, Nodes(posts), |posts|)
  }

  /** Distinct nodes, the first one as given, all of which answer that they are full. */
  predicate Refused(w: World, retries: nat, first: Option<Node>, posts: seq<Node>) {
    && |posts| <= retries + 1 && Distinct(posts) && (first.Some? && posts != [] ==> posts[0] == first.value)
    && forall n <- posts :: w.post(n).Full?
  }

  lemma PostsSnoc(w: World, first: Option<Node>, posts: seq<Node>, node: Node)
    ensures Tried(w, first, posts + [node]) == Tried(w, first, posts) + Attempt(w, node, posts == [] && first.Some?)
    ensures Nodes(posts + [node]) == Nodes(posts) + {node}
  {
    assert (posts + [node])[..|posts|] == posts;
  }

  lemma OneRefusalMore(s: State, u: State, w: World, first: Option<Node>, tap: nat, posts: seq<Node>, node: Node)
    returns (t: State)
    requires Run(s, Tried(w, first, posts), u) && AfterRefusals(s, u, first, tap, posts)
    requires |posts| <= s.retries && node !in posts && (posts == [] && first.Some? ==> node == first.value)
    requires w.post(node).Full? && node !in u.vms
    ensures Run(s, Tried(w, first, posts + [node]), t) && AfterRefusals(s, t, first, tap, posts + [node])
  {
    var given := posts == [] && first.Some?;
    t := AttemptRuns(u, w, node, given, tap, Nodes(posts), |posts|);
    RunThen(s, Tried(w, first, posts), u, Attempt(w, node, given), t);
    PostsSnoc(w, first, posts, node);
  }

  lemma {:induction false} RefusalsRun(s: State, w: World, first: Option<Node>, tap: nat, posts: seq<Node>)
    returns (t: State)
    requires AtLoop(s, w, s.retries, s.journal, first, tap) && Refused(w, s.retries, first, posts)
    ensures Run(s, Tried(w, first, posts), t) && AfterRefusals(s, t, first, tap, posts)
    decreases |posts|
  {
    if posts == [] {
      t := s;
      assert Nodes(posts) == {};
    } else {
      var n := |posts| - 1;
      var u := RefusalsRun(s, w, first, tap, posts[..n]);
      assert posts == posts[..n] + [posts[n]] && posts[n] !in posts[..n];
      t := OneRefusalMore(s, u, w, first, tap, posts[..n], posts[n]);
    }
  }

  /** The loop is a run of the protocol: refusals, then a request that is answered otherwise, the last
      try, or no node left to pick. */
  lemma LoopRuns(s: State, w: World, first: Option<Node>, tap: nat, posts: seq<Node>, noNode: bool) returns (t: State)
    requires AtLoop(s, w, s.retries, s.journal, first, tap)
    requires if noNode then Refused(w, s.retries, first, posts) && |posts| <= s.retries && (posts == [] ==> first.None?)
             else posts != [] && Refused(w, s.retries, first, posts[..|posts| - 1]) && |posts| <= s.retries + 1
                  && Distinct(posts) && (first.Some? ==> posts[0] == first.value)
                  && (|posts| == s.retries + 1 || !w.post(posts[|posts| - 1]).Full?)
    ensures RanTo(s, t, w, first, posts, noNode,
                  if posts == [] then s.journal else Place(Some(posts[|posts| - 1]), tap))
  {
    if noNode {
      var u := RefusalsRun(s, w, first, tap, posts);
      t := u.(pc := Idle);
      RunCons(u, GiveUpPicking, [], t);
      RunThen(s, Tried(w, first, posts), u, [GiveUpPicking], t);
    } else {
      var n := |posts| - 1;
      var u := RefusalsRun(s, w, first, tap, posts[..n]);
      t := AttemptRuns(u, w, posts[n], n == 0 && first.Some?, tap, Nodes(posts[..n]), n);
      RunThen(s, Tried(w, first, posts[..n]), u, Attempt(w, posts[n], n == 0 && first.Some?), t);
      assert Tried(w, first, posts) + [] == Tried(w, first, posts);
    }
  }

  // ---------- what a call does before the loop ----------

  predicate Journaled(j: Place) {
    j.node.Some? && j.tap != 0
  }

  /** The journaled node does not answer, neither for the VM nor at all. */
  predicate CutOff(j: Place, vm: Seen, healthy: bool) {
    Journaled(j) && vm.SeesError? && !healthy
  }

  function NodeToTry(j: Place, vm: Seen, healthy: bool): Option<Node> {
    if CutOff(j, vm, healthy) then None else j.node
  }

  predicate NeedsTap(j: Place, vm: Seen, healthy: bool) {
    j.tap == 0 || CutOff(j, vm, healthy)
  }

  /** The VM is asked for where there is a journal, the node's health where that fails, and a tap is
      taken where there is none or the node is cut off. */
  function HeadSteps(j: Place, vm: Seen, healthy: bool): seq<Action> {
    if Journaled(j) then
      [Begin, SeeVm(vm)]
      + (if !vm.SeesError? then [] else if healthy then [SeeHealth(true)] else [SeeHealth(false), TakeTap])
    else if j.tap == 0 then [Begin, TakeTap] else [Begin]
  }

  lemma FreshHeadRuns(s: State, vm: Seen, healthy: bool) returns (t: State)
    requires s.pc.Idle? && !Journaled(s.journal)
    ensures Run(s, HeadSteps(s.journal, vm, healthy), t)
    ensures t == s.(pc := Entry(s.journal.node, if s.journal.tap == 0 then s.nextTap else s.journal.tap, {}, 0),
                    nextTap := if s.journal.tap == 0 then s.nextTap + 1 else s.nextTap)
  {
    var begun := Next(s, Begin).value;
    if s.journal.tap == 0 {
      t := Next(begun, TakeTap).value;
      RunCons(begun, TakeTap, [], t);
      RunCons(s, Begin, [TakeTap], t);
    } else {
      t := begun;
      RunCons(s, Begin, [], t);
    }
  }

  lemma CutOffHeadRuns(s: State) returns (t: State)
    requires s.pc.Idle? && Journaled(s.journal)
    ensures Run(s, [Begin, SeeVm(SeesError), SeeHealth(false), TakeTap], t)
    ensures t == s.(pc := Pick(s.nextTap, 0, {}), nextTap := s.nextTap + 1)
  {
    var s1 := Next(s, Begin).value;
    var s2 := Next(s1, SeeVm(SeesError)).value;
    var s3 := Next(s2, SeeHealth(false)).value;
    t := Next(s3, TakeTap).value;
    RunCons(s3, TakeTap, [], t);
    RunCons(s2, SeeHealth(false), [TakeTap], t);
    RunCons(s1, SeeVm(SeesError), [SeeHealth(false), TakeTap], t);
    RunCons(s, Begin, [SeeVm(SeesError), SeeHealth(false), TakeTap], t);
  }

  lemma AskingHeadRuns(s: State, vm: Seen) returns (t: State)
    requires s.pc.Idle? && Journaled(s.journal) && (vm.SeesRunning? ==> s.journal.node.value in s.vms)
    ensures Run(s, [Begin, SeeVm(vm)] + (if vm.SeesError? then [SeeHealth(true)] else []), t)
    ensures t == s.(pc := if vm.SeesRunning? then Idle else Entry(s.journal.node, s.journal.tap, {}, 0))
  {
    var s1 := Next(s, Begin).value;
    var s2 := Next(s1, SeeVm(vm)).value;
    if vm.SeesError? {
      t := Next(s2, SeeHealth(true)).value;
      RunCons(s2, SeeHealth(true), [], t);
      RunCons(s1, SeeVm(vm), [SeeHealth(true)], t);
      RunCons(s, Begin, [SeeVm(vm), SeeHealth(true)], t);
      assert [Begin, SeeVm(vm)] + [SeeHealth(true)] == [Begin] + [SeeVm(vm), SeeHealth(true)];
    } else {
      t := s2;
      RunCons(s1, SeeVm(vm), [], t);
      RunCons(s, Begin, [SeeVm(vm)], t);
      assert [Begin, SeeVm(vm)] + [] == [Begin] + [SeeVm(vm)];
    }
  }

  /** The head of a call is a run of the protocol, up to the loop or to a VM found running. */
  lemma HeadRuns(s: State, vm: Seen, healthy: bool) returns (t: State)
    requires s.pc.Idle? && (Journaled(s.journal) && vm.SeesRunning? ==> s.journal.node.value in s.vms)
    ensures Run(s, HeadSteps(s.journal, vm, healthy), t)
    ensures var tap := if NeedsTap(s.journal, vm, healthy) then s.nextTap else s.journal.tap;
      t == s.(pc := if Journaled(s.journal) && vm.SeesRunning? then Idle
                    else Entry(NodeToTry(s.journal, vm, healthy), tap, {}, 0),
              nextTap := if NeedsTap(s.journal, vm, healthy) then s.nextTap + 1 else s.nextTap)
  {
    if !Journaled(s.journal) {
      t := FreshHeadRuns(s, vm, healthy);
    } else if CutOff(s.journal, vm, healthy) {
      t := CutOffHeadRuns(s);
      assert [Begin, SeeVm(SeesError)] + [SeeHealth(false), TakeTap]
          == [Begin, SeeVm(SeesError), SeeHealth(false), TakeTap];
    } else {
      t := AskingHeadRuns(s, vm);
    }
  }

  class Placer {
    /** SANDBOX_VCPU_FULL_RETRIES. */
    const retries: nat
    var journal: Place
    var hasRow: bool
    var posts: seq<Node>
    var nextTap: nat

    constructor (retries: nat, journal: Place, hasRow: bool, nextTap: nat)
      ensures this.retries == retries && this.journal == journal && this.hasRow == hasRow && posts == []
      ensures this.nextTap == nextTap
    {
      this.retries, this.journal, this.hasRow, this.posts, this.nextTap := retries, journal, hasRow, [], nextTap;
    }

    /** The retry loop, from the node and tap found so far. */
    method TryNodes(w: World, node: Option<Node>, tap: nat) returns (r: Result)
      requires Fair(w) && posts == []
      modifies this`journal, this`posts
      ensures |posts| <= retries + 1 && Distinct(posts)
      ensures forall i :: 0 <= i < |posts| - 1 ==> w.post(posts[i]).Full?
      ensures journal == if hasRow && posts != [] then Place(Some(posts[|posts| - 1]), tap) else old(journal)
      ensures r.Placed? <==> posts != [] && w.post(posts[|posts| - 1]).Created?
      ensures r.Placed? ==> r == Placed(posts[|posts| - 1], tap)
      ensures r.Error? ==> posts != [] && !w.post(posts[|posts| - 1]).Full?
      ensures r.Exceeded? <==> |posts| == retries + 1 && forall n <- posts :: w.post(n).Full?
      ensures r.NoNode? ==> (forall n <- posts :: w.post(n).Full?) && w.pick(Nodes(posts)).None?
      ensures node.Some? ==> posts != [] && posts[0] == node.value
    {
      var full: set<Node> := {};
      var at := node;
      for attempt := 0 to retries + 1
        invariant |posts| == attempt && full == Nodes(posts)
        invariant forall n <- posts :: w.post(n).Full?
        invariant Distinct(posts)
        invariant journal == if hasRow && posts != [] then Place(Some(posts[|posts| - 1]), tap) else old(journal)
        invariant attempt == 0 ==> at == node
        invariant attempt > 0 ==> at.None? && (node.Some? ==> posts[0] == node.value)
        invariant attempt <= retries
      {
        if at.None? {
          at := w.pick(full);
          if at.None? {
            return NoNode;
          }
        }
        if hasRow {
          journal := Place(at, tap);
        }
        posts := posts + [at.value];
        match w.post(at.value)
        case Created => return Placed(at.value, tap);
        case AnswerLost => return Error;
        case Failed => return Error;
        case Full =>
          if attempt == retries {
            return Exceeded;
          }
          full := full + {at.value};
          at := None;
      }
    }

    /** Where there is a record to journal in, the loop is a run of the protocol from the state it finds:
        its iterations are the pick, journal and request steps, in this order. */
    method TryInState(w: World, node: Option<Node>, tap: nat, ghost s: State) returns (r: Result, ghost t: State)
      requires Fair(w) && posts == [] && hasRow && AtLoop(s, w, retries, journal, node, tap)
      modifies this`journal, this`posts
      ensures RanTo(s, t, w, node, posts, r.NoNode?, journal)
      ensures r.Placed? ==> r == Placed(posts[|posts| - 1], tap) && w.post(posts[|posts| - 1]).Created?
    {
      r := TryNodes(w, node, tap);
      t := LoopRuns(s, w, node, tap, posts, r.NoNode?);
    }

    /** What the journal leads to: the VM is found running, or a node and a tap to start with. */
    method Look(vm: Seen, healthy: bool) returns (found: bool, node: Option<Node>, tap: nat)
      modifies this`nextTap
      ensures found <==> Journaled(journal) && vm.SeesRunning?
      ensures found ==> node == journal.node && tap == journal.tap && nextTap == old(nextTap)
      ensures !found ==>
                && node == NodeToTry(journal, vm, healthy)
                && tap == (if NeedsTap(journal, vm, healthy) then old(nextTap) else journal.tap)
                && nextTap == (if NeedsTap(journal, vm, healthy) then old(nextTap) + 1 else old(nextTap))
    {
      found, node, tap := false, journal.node, journal.tap;
      if node.Some? && tap != 0 {
        if vm.SeesRunning? {
          return true, node, tap;
        }
        if vm.SeesError? && !healthy {
          node, tap := None, 0;
        }
      }
      if tap == 0 {
        tap, nextTap := nextTap, nextTap + 1;
      }
    }

    /** The protocol's state as the call finds it. */
    ghost predicate Finds(s: State, w: World, vm: Seen)
      reads this
    {
      && hasRow && s.retries == retries && s.journal == journal && s.nextTap == nextTap && s.pc.Idle?
      && (Journaled(journal) && vm.SeesRunning? ==> journal.node.value in s.vms)
      && forall n <- s.vms :: !w.post(n).Full?
    }

    /** create().  A VM found running is returned as it is, with no request; a journaled place is tried
        first and keeps its tap, unless its node is cut off, and then node and tap are new.  Where there
        is a record to journal in, the call is a run of the protocol from the state it finds. */
    method Create(w: World, vm: Seen, healthy: bool, ghost s: State) returns (r: Result, ghost t: State)
      requires Fair(w) && posts == [] && (!hasRow ==> journal == Place(None, 0))
      modifies this`journal, this`posts, this`nextTap
      ensures old(Journaled(journal)) && vm.SeesRunning? ==>
                r == Placed(old(journal).node.value, old(journal).tap) && posts == []
                && journal == old(journal) && nextTap == old(nextTap)
      ensures old(Journaled(journal)) && (vm.SeesOther? || (vm.SeesError? && healthy)) ==>
                posts != [] && posts[0] == old(journal).node.value && nextTap == old(nextTap)
                && (r.Placed? ==> r.tap == old(journal).tap)
      ensures old(Journaled(journal)) && vm.SeesError? && !healthy ==>
                nextTap == old(nextTap) + 1 && (r.Placed? ==> r.tap == old(nextTap))
      ensures old(journal) == Place(None, 0) ==>
                nextTap == old(nextTap) + 1 && (r.Placed? ==> r.tap == old(nextTap))
      ensures r.Placed? && posts != [] ==>
                r.node == posts[|posts| - 1] && w.post(r.node).Created?
                && (hasRow ==> journal == Place(Some(r.node), r.tap))
      ensures old(Finds(s, w, vm)) ==>
                t.pc.Idle? && t.journal == journal
                && Run(s, HeadSteps(old(journal), vm, healthy)
                          + (Tried(w, NodeToTry(old(journal), vm, healthy), posts)
                             + (if r.NoNode? then [GiveUpPicking] else [])), t)
    {
      ghost var finds, head := Finds(s, w, vm), HeadSteps(journal, vm, healthy);
      ghost var u := s;
      if finds { u := HeadRuns(s, vm, healthy); }
      t := u;
      var found, node, tap := Look(vm, healthy);
      if found {
        assert head + ([] + []) == head;
        return Placed(node.value, tap), u;
      }
      r := TryNodes(w, node, tap);
      if finds {
        t := LoopRuns(u, w, node, tap, posts, r.NoNode?);
        RunThen(s, head, u, Tried(w, node, posts) + (if r.NoNode? then [GiveUpPicking] else []), t);
      }
    }
  }
}
