/** Warm-pool claims: racing claimers, each able to crash between any two steps, consume suspended
    warm VMs through a journal on the real sandbox's record. */
module WarmPool {
  import opened Options

  type Wid = nat
  type Rid = nat

  /** VMs, and their directories, go by these ids. */
  datatype VmId = Warm(w: Wid) | Real(r: Rid)

  datatype PoolState = Ready | Claimed

  datatype Vm = Vm(running: bool, image: Option<Wid>, dirs: set<VmId>)

  /** What a request to the node or the table comes to: served, served with the answer lost, or
      refused. */
  datatype Call = Served | AnswerLost | Refused

  datatype Probe = SaysRunning | SaysStopped | Unreachable

  /** Where the claim for one real sandbox is; `again` once it has been resumed a second time. */
  datatype Pc =
    | Idle
    | Choose(candidates: seq<Wid>)
    | Read(w: Wid)
    | Write(w: Wid)
    | Resume(w: Wid)
    | Probe(w: Wid)
    | ResumeAgain(w: Wid)
    | Migrate(w: Wid, again: bool)
    | DeleteSource(w: Wid, again: bool)
    | GiveUp(w: Wid)
    | DeleteDamaged(w: Wid)

  /** `rows` are the warm items, `journal` warm_source_id of the real records, `placed` those whose
      record names the node and tap, `consumed` which real record has taken over the fields of which
      source, `discarded` the sources given up. */
  datatype State = State(
    rows: map<Wid, PoolState>, journal: map<Rid, Wid>, placed: set<Rid>, consumed: map<Wid, Rid>, discarded: set<Wid>,
    vms: map<VmId, Vm>, pcs: map<Rid, Pc>)

  datatype Action =
    | Begin(r: Rid, candidates: seq<Wid>)
    | Step(r: Rid)
    | Call(r: Rid, call: Call)
    | Finish(r: Rid, call: Call)
    | Ask(r: Rid, answer: Probe)
    | Crash(r: Rid)
    | Suspend(r: Rid)
    | ResumeOwn(r: Rid)
    | Destroy(r: Rid)

  function PcOf(s: State, r: Rid): Pc {
    if r in s.pcs then s.pcs[r] else Idle
  }

  function At(s: State, r: Rid, pc: Pc): State {
    s.(pcs := s.pcs[r := pc])
  }

  predicate Runs(s: State, id: VmId) {
    id in s.vms && s.vms[id].running
  }

  function DirsOf(s: State, id: VmId): set<VmId> {
    if id in s.vms then s.vms[id].dirs else {}
  }

  // ---------- the node ----------

  /** A source that is still running refuses the claim. */
  predicate Accepts(s: State, r: Rid, w: Wid) {
    Runs(s, Real(r)) || !Runs(s, Warm(w))
  }

  /** Resume under the real id from the warm snapshot: an already running VM is kept, the source's
      directory is taken over, its entry leaves the table. */
  function Resumed(s: State, r: Rid, w: Wid): State {
    var image := if Runs(s, Real(r)) then s.vms[Real(r)].image else Some(w);
    var vm := Vm(true, image, DirsOf(s, Real(r)) + {Real(r), Warm(w)});
    var source := if Warm(w) in s.vms && !s.vms[Warm(w)].running then {Warm(w)} else {};
    s.(vms := (s.vms - source)[Real(r) := vm])
  }

  function Called(s: State, r: Rid, w: Wid, call: Call): State {
    if call.Refused? then s else Resumed(s, r, w)
  }

  // ---------- the claim ----------

  /** One conditional write per candidate, until one is won. */
  function Chosen(s: State, r: Rid, candidates: seq<Wid>): State {
    if candidates == [] then At(s, r, Idle)
    else
      var w := candidates[0];
      if w in s.rows && s.rows[w].Ready? then At(s.(rows := s.rows[w := Claimed]), r, Read(w))
      else At(s, r, Choose(candidates[1..]))
  }

  function Stepped(s: State, r: Rid): Option<State> {
    match PcOf(s, r)
    case Choose(candidates) => Some(Chosen(s, r, candidates))
    case Read(w) =>
      if w in s.rows then Some(At(s, r, Write(w)))
      else Some(At(s.(journal := s.journal - {r}), r, Idle))
    case Write(w) => Some(At(s.(journal := s.journal[r := w], placed := s.placed + {r}), r, Resume(w)))
    case GiveUp(w) =>
      // The record's journal, node and tap are cleared.
      Some(At(s.(journal := s.journal - {r}, placed := s.placed - {r}, discarded := s.discarded + {w}),
              r, DeleteDamaged(w)))
    case DeleteDamaged(w) => Some(At(s.(rows := s.rows - {w}), r, Idle))
    case _ => None
  }

  /** What the two table writes of finish() do once they are applied. */
  function Written(s: State, r: Rid): State {
    match PcOf(s, r)
    case Migrate(w, _) =>
      s.(journal := s.journal - {r}, placed := s.placed + {r}, consumed := s.consumed[w := r])
    case DeleteSource(w, _) => s.(rows := s.rows - {w})
    case _ => s
  }

  /** A claim whose resume or finish() has failed: the node is asked once, then it is given up. */
  function Fallen(w: Wid, again: bool): Pc {
    if again then GiveUp(w) else Probe(w)
  }

  /** finish() runs inside the try: a write that raises, applied or not, counts as a failed claim. */
  function Finished(s: State, r: Rid, call: Call): Option<State> {
    var t := if call.Refused? then s else Written(s, r);
    match PcOf(s, r)
    case Migrate(w, again) => Some(At(t, r, if call.Served? then DeleteSource(w, again) else Fallen(w, again)))
    case DeleteSource(w, again) => Some(At(t, r, if call.Served? then Idle else Fallen(w, again)))
    case _ => None
  }

  function Next(s: State, a: Action): Option<State> {
    match a
    case Begin(r, candidates) =>
      if PcOf(s, r) != Idle then None
      else if r in s.journal then Some(At(s, r, Read(s.journal[r])))
      else Some(At(s, r, Choose(candidates)))
    case Step(r) => Stepped(s, r)
    case Call(r, call) =>
      var pc := PcOf(s, r);
      if !(pc.Resume? || pc.ResumeAgain?) || (!call.Refused? && !Accepts(s, r, pc.w)) then None
      else
        var t := Called(s, r, pc.w, call);
        Some(At(t, r, if call.Served? then Migrate(pc.w, pc.ResumeAgain?) else Fallen(pc.w, pc.ResumeAgain?)))
    case Finish(r, call) => Finished(s, r, call)
    case Ask(r, answer) =>
      var pc := PcOf(s, r);
      if !pc.Probe? || (answer.SaysRunning? && !Runs(s, Real(r))) || (answer.SaysStopped? && Runs(s, Real(r))) then None
      else Some(At(s, r, if answer.SaysRunning? then ResumeAgain(pc.w) else GiveUp(pc.w)))
    // Also a claim that stops because the item turns out to be of another pool.
    case Crash(r) => Some(At(s, r, Idle))
    case Suspend(r) =>
      if Runs(s, Real(r)) && r !in s.journal && PcOf(s, r) == Idle
      then Some(s.(vms := s.vms[Real(r) := s.vms[Real(r)].(running := false)])) else None
    case ResumeOwn(r) =>
      if Real(r) in s.vms && !Runs(s, Real(r)) && r !in s.journal && PcOf(s, r) == Idle
      then Some(s.(vms := s.vms[Real(r) := Vm(true, s.vms[Real(r)].image, s.vms[Real(r)].dirs + {Real(r)})])) else None
    case Destroy(r) =>
      if PcOf(s, r) == Idle && r !in s.journal then Some(s.(vms := s.vms - {Real(r)})) else None
  }

  predicate Run(s: State, actions: seq<Action>, t: State)
    decreases |actions|
  {
    if actions == [] then t == s
    else Next(s, actions[0]).Some? && Run(Next(s, actions[0]).value, actions[1..], t)
  }

  /** A pool of suspended VMs, each owning its directory, and nobody claiming yet. */
  predicate Initial(s: State) {
    && (forall w <- s.rows :: s.rows[w].Ready?)
    && s.journal == map[] && s.placed == {} && s.consumed == map[] && s.discarded == {} && s.pcs == map[]
    && forall id <- s.vms :: id.Warm? && s.vms[id] == Vm(false, None, {id})
  }

  // ---------- at most one real id per warm id ----------

  /** The real id works on the warm one, or its record says it did when it crashed. */
  predicate Claims(s: State, r: Rid, w: Wid) {
    || (r in s.journal && s.journal[r] == w)
    || (!PcOf(s, r).Idle? && !PcOf(s, r).Choose? && PcOf(s, r).w == w)
  }

  predicate Taken(s: State, r: Rid, w: Wid) {
    Claims(s, r, w) || (w in s.consumed && s.consumed[w] == r) || Warm(w) in DirsOf(s, Real(r))
  }

  predicate IsReady(s: State, w: Wid) {
    w in s.rows && s.rows[w].Ready?
  }

  predicate Deleting(pc: Pc) {
    pc.DeleteSource? || pc.DeleteDamaged?
  }

  /** A source that has not been taken over or given up yet still has its item. */
  predicate NeedsRow(s: State, r: Rid, w: Wid) {
    var pc := PcOf(s, r);
    (r in s.journal && s.journal[r] == w) || ((pc.Read? || pc.Write? || pc.Resume?) && pc.w == w)
  }

  /** A warm id: taken by one real id at most, and by none while it is ready. */
  ghost predicate WarmSound(s: State, w: Wid) {
    && (forall r :: Taken(s, r, w) ==> !IsReady(s, w))
    && (forall r1, r2 :: Taken(s, r1, w) && Taken(s, r2, w) ==> r1 == r2)
    && (forall r :: NeedsRow(s, r, w) ==> w in s.rows)
    && (Warm(w) in s.vms ==>
          s.vms[Warm(w)] == Vm(false, None, {Warm(w)}) && forall r :: Warm(w) !in DirsOf(s, Real(r)))
  }

  predicate Journaled(s: State, r: Rid, w: Wid) {
    r in s.journal && s.journal[r] == w
  }

  predicate TookOver(s: State, r: Rid, w: Wid) {
    w in s.consumed && s.consumed[w] == r
  }

  predicate VouchedFor(s: State, r: Rid, w: Wid) {
    Journaled(s, r, w) || TookOver(s, r, w)
  }

  /** A real id: what its record says agrees with where its claim is. */
  predicate RealSound(s: State, r: Rid) {
    var pc := PcOf(s, r);
    && (pc.Choose? || Deleting(pc) ==> r !in s.journal)
    && (!pc.Idle? && !pc.Choose? && r in s.journal ==> s.journal[r] == pc.w)
    && (pc.Resume? ==> Journaled(s, r, pc.w))
    && (pc.Resume? || pc.Probe? || pc.ResumeAgain? || pc.Migrate? || pc.DeleteSource? || pc.GiveUp? ==> r in s.placed)
    && (pc.Probe? || pc.ResumeAgain? || pc.Migrate? || pc.GiveUp? ==> VouchedFor(s, r, pc.w))
    && (pc.DeleteSource? ==> TookOver(s, r, pc.w))
    && (pc.DeleteDamaged? ==> pc.w in s.discarded)
    && (Real(r) in s.vms ==> s.vms[Real(r)].image.Some?)
    && forall id <- DirsOf(s, Real(r)) :: id.Warm? || id == Real(r)
  }

  lemma InitialSound(s: State, w: Wid, r: Rid)
    requires Initial(s)
    ensures WarmSound(s, w) && RealSound(s, r)
  {
  }

  /** A step that spreads no claim on a warm id keeps it sound. */
  lemma NoNewClaim(s: State, t: State, w: Wid)
    requires WarmSound(s, w)
    requires forall r :: Taken(t, r, w) ==> Taken(s, r, w)
    requires forall r :: NeedsRow(t, r, w) ==> w in t.rows
    requires IsReady(t, w) ==> IsReady(s, w)
    requires Warm(w) in t.vms ==>
               Warm(w) in s.vms && t.vms[Warm(w)] == s.vms[Warm(w)]
               && forall r :: Warm(w) in DirsOf(t, Real(r)) ==> Warm(w) in DirsOf(s, Real(r))
    ensures WarmSound(t, w)
  {
  }

  predicate OnlyMoves(s: State, t: State, r: Rid) {
    && t.pcs == s.pcs[r := PcOf(t, r)]
    && (t.journal == s.journal || t.journal == s.journal - {r}
        || (r in t.journal && t.journal == s.journal[r := t.journal[r]]))
  }

  lemma OthersStand(s: State, t: State, r: Rid, w: Wid)
    requires OnlyMoves(s, t, r)
    ensures forall x :: x != r ==> PcOf(t, x) == PcOf(s, x) && Claims(t, x, w) == Claims(s, x, w)
    ensures forall x :: x != r ==> NeedsRow(t, x, w) == NeedsRow(s, x, w)
  {
  }

  lemma WinsCandidate(s: State, r: Rid, w: Wid)
    requires WarmSound(s, w) && RealSound(s, r) && PcOf(s, r).Choose? && IsReady(s, w)
    ensures WarmSound(At(s.(rows := s.rows[w := Claimed]), r, Read(w)), w)
  {
    var t := At(s.(rows := s.rows[w := Claimed]), r, Read(w));
    OthersStand(s, t, r, w);
    forall x | Taken(t, x, w) ensures x == r {
      assert !Taken(s, x, w);
      assert Claims(t, x, w);
    }
  }

  lemma ChooseKeepsWarm(s: State, r: Rid, w: Wid)
    requires WarmSound(s, w) && RealSound(s, r) && PcOf(s, r).Choose?
    ensures WarmSound(Stepped(s, r).value, w)
  {
    var t := Stepped(s, r).value;
    if PcOf(s, r).candidates != [] && PcOf(s, r).candidates[0] == w && IsReady(s, w) {
      WinsCandidate(s, r, w);
    } else {
      OthersStand(s, t, r, w);
      assert !Claims(t, r, w);
      NoNewClaim(s, t, w);
    }
  }

  lemma DeleteKeepsWarm(s: State, r: Rid, w: Wid)
    requires WarmSound(s, w) && RealSound(s, r) && PcOf(s, r).DeleteDamaged?
    ensures WarmSound(Stepped(s, r).value, w)
  {
    var t := Stepped(s, r).value;
    OthersStand(s, t, r, w);
    assert !Claims(t, r, w);
    if PcOf(s, r).w == w {
      assert Taken(s, r, w);
      assert forall x :: NeedsRow(t, x, w) ==> x != r && Taken(s, x, w);
    }
    NoNewClaim(s, t, w);
  }

  lemma MigrateKeepsWarm(s: State, r: Rid, call: Call, w: Wid)
    requires PcOf(s, r).Migrate? && WarmSound(s, w) && RealSound(s, r)
    ensures WarmSound(Finished(s, r, call).value, w)
  {
    var t := Finished(s, r, call).value;
    OthersStand(s, t, r, w);
    assert Claims(t, r, w) ==> Claims(s, r, w);
    assert PcOf(s, r).w == w ==> Claims(s, r, w);
    assert NeedsRow(t, r, w) ==> NeedsRow(s, r, w);
    NoNewClaim(s, t, w);
  }

  lemma DeleteSourceKeepsWarm(s: State, r: Rid, call: Call, w: Wid)
    requires PcOf(s, r).DeleteSource? && WarmSound(s, w) && RealSound(s, r)
    ensures WarmSound(Finished(s, r, call).value, w)
  {
    var t := Finished(s, r, call).value;
    OthersStand(s, t, r, w);
    assert Claims(t, r, w) ==> Claims(s, r, w);
    assert !NeedsRow(t, r, w);
    if PcOf(s, r).w == w {
      assert Taken(s, r, w);
      assert forall x :: NeedsRow(t, x, w) ==> x != r && Taken(s, x, w);
    }
    NoNewClaim(s, t, w);
  }

  lemma FinishKeepsWarm(s: State, r: Rid, call: Call, w: Wid)
    requires Finished(s, r, call).Some? && WarmSound(s, w) && RealSound(s, r)
    ensures WarmSound(Finished(s, r, call).value, w)
  {
    if PcOf(s, r).Migrate? { MigrateKeepsWarm(s, r, call, w); } else { DeleteSourceKeepsWarm(s, r, call, w); }
  }

  lemma ClaimStepKeepsWarm(s: State, r: Rid, w: Wid)
    requires (PcOf(s, r).Read? || PcOf(s, r).Write? || PcOf(s, r).GiveUp?) && WarmSound(s, w) && RealSound(s, r)
    ensures WarmSound(Stepped(s, r).value, w)
  {
    var t := Stepped(s, r).value;
    OthersStand(s, t, r, w);
    assert Claims(t, r, w) ==> Claims(s, r, w);
    assert PcOf(s, r).w == w ==> Claims(s, r, w);
    assert NeedsRow(t, r, w) ==> NeedsRow(s, r, w);
    NoNewClaim(s, t, w);
  }

  lemma StepKeepsWarm(s: State, r: Rid, w: Wid)
    requires Stepped(s, r).Some? && WarmSound(s, w) && RealSound(s, r)
    ensures WarmSound(Stepped(s, r).value, w)
  {
    if PcOf(s, r).Choose? {
      ChooseKeepsWarm(s, r, w);
    } else if PcOf(s, r).DeleteDamaged? {
      DeleteKeepsWarm(s, r, w);
    } else {
      ClaimStepKeepsWarm(s, r, w);
    }
  }

  /** A call for a source takes over nothing but that source. */
  lemma ResumeKeepsWarm(s: State, r: Rid, source: Wid, w: Wid)
    requires WarmSound(s, w) && WarmSound(s, source) && Claims(s, r, source)
    ensures WarmSound(Resumed(s, r, source), w)
  {
    var t := Resumed(s, r, source);
    assert forall x :: x != r ==> DirsOf(t, Real(x)) == DirsOf(s, Real(x));
    assert forall x :: PcOf(t, x) == PcOf(s, x) && Claims(t, x, w) == Claims(s, x, w);
    assert forall x :: NeedsRow(t, x, w) == NeedsRow(s, x, w);
    assert Warm(w) in DirsOf(t, Real(r)) ==> w == source || Warm(w) in DirsOf(s, Real(r));
    assert Taken(s, r, source);
    NoNewClaim(s, t, w);
  }

  lemma CallKeepsWarm(s: State, a: Action, w: Wid)
    requires a.Call? && Next(s, a).Some? && WarmSound(s, w) && WarmSound(s, PcOf(s, a.r).w) && RealSound(s, a.r)
    ensures WarmSound(Next(s, a).value, w)
  {
    var source := PcOf(s, a.r).w;
    assert Claims(s, a.r, source);
    if !a.call.Refused? {
      ResumeKeepsWarm(s, a.r, source, w);
    }
    var u := Called(s, a.r, source, a.call);
    var t := Next(s, a).value;
    OthersStand(u, t, a.r, w);
    assert Claims(t, a.r, w) == Claims(u, a.r, w);
    assert NeedsRow(t, a.r, w) ==> NeedsRow(u, a.r, w);
    NoNewClaim(u, t, w);
  }

  lemma ClaimerKeepsWarm(s: State, a: Action, w: Wid)
    requires (a.Begin? || a.Ask? || a.Crash?) && Next(s, a).Some? && WarmSound(s, w) && RealSound(s, a.r)
    ensures WarmSound(Next(s, a).value, w)
  {
    var t := Next(s, a).value;
    OthersStand(s, t, a.r, w);
    assert Claims(t, a.r, w) ==> Claims(s, a.r, w);
    assert NeedsRow(t, a.r, w) ==> NeedsRow(s, a.r, w);
    NoNewClaim(s, t, w);
  }

  lemma UserKeepsWarm(s: State, a: Action, w: Wid)
    requires (a.Suspend? || a.ResumeOwn? || a.Destroy?) && Next(s, a).Some? && WarmSound(s, w)
    ensures WarmSound(Next(s, a).value, w)
  {
    var t := Next(s, a).value;
    assert t == s.(vms := t.vms);
    assert forall x :: Claims(t, x, w) == Claims(s, x, w) && PcOf(t, x) == PcOf(s, x);
    assert forall x :: NeedsRow(t, x, w) == NeedsRow(s, x, w);
    assert forall x :: x != a.r ==> DirsOf(t, Real(x)) == DirsOf(s, Real(x));
    assert Warm(w) in DirsOf(t, Real(a.r)) ==> Warm(w) in DirsOf(s, Real(a.r));
    NoNewClaim(s, t, w);
  }

  lemma NextKeepsWarm(s: State, a: Action, w: Wid)
    requires Next(s, a).Some? && RealSound(s, a.r) && forall v :: WarmSound(s, v)
    ensures WarmSound(Next(s, a).value, w)
  {
    match a
    case Step(r) => StepKeepsWarm(s, r, w);
    case Call(_, _) => CallKeepsWarm(s, a, w);
    case Finish(r, call) => FinishKeepsWarm(s, r, call, w);
    case Suspend(_) => UserKeepsWarm(s, a, w);
    case ResumeOwn(_) => UserKeepsWarm(s, a, w);
    case Destroy(_) => UserKeepsWarm(s, a, w);
    case _ => ClaimerKeepsWarm(s, a, w);
  }

  lemma ChooseKeepsReal(s: State, r: Rid)
    requires PcOf(s, r).Choose? && RealSound(s, r)
    ensures RealSound(Stepped(s, r).value, r)
  {
  }

  lemma StepKeepsReal(s: State, r: Rid)
    requires Stepped(s, r).Some? && RealSound(s, r)
    ensures RealSound(Stepped(s, r).value, r)
  {
    if PcOf(s, r).Choose? {
      ChooseKeepsReal(s, r);
    }
  }

  lemma CallKeepsReal(s: State, a: Action)
    requires a.Call? && Next(s, a).Some? && RealSound(s, a.r)
    ensures RealSound(Next(s, a).value, a.r)
  {
  }

  lemma FinishKeepsReal(s: State, a: Action)
    requires a.Finish? && Next(s, a).Some? && RealSound(s, a.r)
    ensures RealSound(Next(s, a).value, a.r)
  {
  }

  lemma UserKeepsReal(s: State, a: Action)
    requires !a.Step? && !a.Call? && !a.Finish? && Next(s, a).Some? && RealSound(s, a.r)
    ensures RealSound(Next(s, a).value, a.r)
  {
  }

  /** A step of one real id leaves the others' journal, claim and directories alone. */
  predicate Untouched(s: State, t: State, mover: Rid, r: Rid) {
    && PcOf(t, r) == PcOf(s, r) && DirsOf(t, Real(r)) == DirsOf(s, Real(r))
    && (r in t.journal <==> r in s.journal) && (r in s.journal ==> t.journal[r] == s.journal[r])
    && (r in t.placed <==> r in s.placed) && s.discarded <= t.discarded
    && (t.consumed == s.consumed || (PcOf(s, mover).Migrate? && t.consumed == s.consumed[PcOf(s, mover).w := mover]))
  }

  lemma RowStepLeavesOthers(s: State, mover: Rid, r: Rid)
    requires (PcOf(s, mover).Choose? || PcOf(s, mover).DeleteDamaged?) && r != mover
    ensures Untouched(s, Stepped(s, mover).value, mover, r)
  {
  }

  lemma JournalStepLeavesOthers(s: State, mover: Rid, r: Rid)
    requires (PcOf(s, mover).Read? || PcOf(s, mover).Write? || PcOf(s, mover).GiveUp?) && r != mover
    ensures Untouched(s, Stepped(s, mover).value, mover, r)
  {
  }

  lemma StepLeavesOthers(s: State, mover: Rid, r: Rid)
    requires Stepped(s, mover).Some? && r != mover
    ensures Untouched(s, Stepped(s, mover).value, mover, r)
  {
    if PcOf(s, mover).Choose? || PcOf(s, mover).DeleteDamaged? {
      RowStepLeavesOthers(s, mover, r);
    } else {
      JournalStepLeavesOthers(s, mover, r);
    }
  }

  lemma FinishLeavesOthers(s: State, mover: Rid, call: Call, r: Rid)
    requires Finished(s, mover, call).Some? && r != mover
    ensures Untouched(s, Finished(s, mover, call).value, mover, r)
  {
  }

  lemma ActionLeavesOthers(s: State, a: Action, r: Rid)
    requires !a.Step? && Next(s, a).Some? && r != a.r
    ensures Untouched(s, Next(s, a).value, a.r, r)
  {
    if a.Finish? {
      FinishLeavesOthers(s, a.r, a.call, r);
    }
  }

  lemma NextKeepsReal(s: State, a: Action, r: Rid)
    requires Next(s, a).Some? && RealSound(s, r) && forall w :: WarmSound(s, w)
    ensures RealSound(Next(s, a).value, r)
  {
    if r != a.r {
      if a.Step? { StepLeavesOthers(s, a.r, r); } else { ActionLeavesOthers(s, a, r); }
      if PcOf(s, a.r).Migrate? && !PcOf(s, r).Idle? && !PcOf(s, r).Choose? {
        assert Taken(s, r, PcOf(s, r).w) && Taken(s, a.r, PcOf(s, a.r).w) && WarmSound(s, PcOf(s, r).w);
      }
    } else if a.Step? {
      StepKeepsReal(s, a.r);
    } else if a.Call? {
      CallKeepsReal(s, a);
    } else if a.Finish? {
      FinishKeepsReal(s, a);
    } else {
      UserKeepsReal(s, a);
    }
  }

  ghost predicate Sound(s: State) {
    (forall w :: WarmSound(s, w)) && (forall r :: RealSound(s, r))
  }

  lemma NextKeepsSound(s: State, a: Action)
    requires Sound(s) && Next(s, a).Some?
    ensures Sound(Next(s, a).value)
  {
    forall w ensures WarmSound(Next(s, a).value, w) {
      NextKeepsWarm(s, a, w);
    }
    forall r ensures RealSound(Next(s, a).value, r) {
      NextKeepsReal(s, a, r);
    }
  }

  lemma {:induction false} RunKeepsSound(s: State, actions: seq<Action>, t: State)
    requires Sound(s) && Run(s, actions, t)
    ensures Sound(t)
    decreases |actions|
  {
    if actions != [] {
      NextKeepsSound(s, actions[0]);
      RunKeepsSound(Next(s, actions[0]).value, actions[1..], t);
    }
  }

  lemma ReachableSound(s: State, actions: seq<Action>, t: State)
    requires Initial(s) && Run(s, actions, t)
    ensures Sound(t)
  {
    forall w, r ensures WarmSound(s, w) && RealSound(s, r) {
      InitialSound(s, w, r);
    }
    RunKeepsSound(s, actions, t);
  }

  // ---------- what it gives ----------

  /** A warm id is journaled by at most one real id, over all races and crashes, and never offered
      again once it is; nor does a second real id ever get the VM or the directory of one consumed. */
  lemma ConsumedAtMostOnce(s: State, actions: seq<Action>, t: State, r1: Rid, r2: Rid, w: Wid)
    requires Initial(s) && Run(s, actions, t) && Taken(t, r1, w) && Taken(t, r2, w)
    ensures r1 == r2 && !IsReady(t, w)
  {
    ReachableSound(s, actions, t);
    assert WarmSound(t, w);
  }

  /** No directory has two owners. */
  lemma DirectoriesDisjoint(s: State, actions: seq<Action>, t: State, v1: VmId, v2: VmId, dir: VmId)
    requires Initial(s) && Run(s, actions, t) && dir in DirsOf(t, v1) && dir in DirsOf(t, v2)
    ensures v1 == v2
  {
    ReachableSound(s, actions, t);
    if v1.Real? { assert RealSound(t, v1.r); } else { assert WarmSound(t, v1.w); }
    if v2.Real? { assert RealSound(t, v2.r); } else { assert WarmSound(t, v2.w); }
    if dir.Warm? {
      assert WarmSound(t, dir.w);
      assert v1.Real? ==> Taken(t, v1.r, dir.w);
      assert v2.Real? ==> Taken(t, v2.r, dir.w);
    }
  }

  lemma StepMigratesFirst(s: State, a: Action, w: Wid)
    requires RealSound(s, a.r) && Next(s, a).Some?
    ensures var t := Next(s, a).value;
      (w in s.consumed ==> w in t.consumed) && (w in s.discarded ==> w in t.discarded)
      && (w in s.rows && w !in t.rows ==> w in t.consumed || w in t.discarded)
  {
  }

  /** A source item disappears only after a real record has taken over its fields, or after the
      claim was given up. */
  lemma {:induction false} MigrationBeforeDeletion(s: State, actions: seq<Action>, t: State, w: Wid)
    requires Sound(s) && Run(s, actions, t) && w !in t.rows && (w in s.rows || w in s.consumed || w in s.discarded)
    ensures w in t.consumed || w in t.discarded
    decreases |actions|
  {
    if actions != [] {
      NextKeepsSound(s, actions[0]);
      StepMigratesFirst(s, actions[0], w);
      MigrationBeforeDeletion(Next(s, actions[0]).value, actions[1..], t, w);
    }
  }

  /** Retrying a journaled claim goes back to the same source, which is still there, and keeps the
      VM an earlier attempt left running. */
  lemma RetryResumesSameVm(s: State, actions: seq<Action>, t: State, r: Rid, candidates: seq<Wid>,
                           t1: State, t2: State, t3: State, u: State)
    requires Initial(s) && Run(s, actions, t) && r in t.journal && PcOf(t, r) == Idle
    requires Next(t, Begin(r, candidates)) == Some(t1) && Next(t1, Step(r)) == Some(t2) && Next(t2, Step(r)) == Some(t3)
    requires Next(t3, Call(r, Served)) == Some(u)
    ensures PcOf(u, r) == Migrate(t.journal[r], false) && u.rows == t.rows && u.journal == t.journal
    ensures Runs(u, Real(r))
    ensures u.vms[Real(r)].image == if Runs(t, Real(r)) then t.vms[Real(r)].image else Some(t.journal[r])
  {
    ReachableSound(s, actions, t);
    var w := t.journal[r];
    assert WarmSound(t, w) && NeedsRow(t, r, w);
    assert PcOf(t1, r) == Read(w) && PcOf(t2, r) == Write(w) && PcOf(t3, r) == Resume(w);
    assert t3.journal == t.journal;
  }

  /** The VM of a real id is the one its record vouches for, by journal or by migration, on the node
      it names. */
  predicate Backed(s: State, r: Rid) {
    Real(r) in s.vms && s.vms[Real(r)].image.Some? ==> r in s.placed && VouchedFor(s, r, s.vms[Real(r)].image.value)
  }

  /** A claim is given up although its VM is on the node. */
  predicate Abandons(s: State, a: Action, r: Rid) {
    a == Step(r) && PcOf(s, r).GiveUp? && Real(r) in s.vms
  }

  lemma StepBacked(s: State, r: Rid)
    requires Sound(s) && Stepped(s, r).Some? && Backed(s, r)
    ensures !Backed(Stepped(s, r).value, r) <==> Abandons(s, Step(r), r)
  {
    assert RealSound(s, r);
    var pc := PcOf(s, r);
    if pc.Read? || pc.Write? {
      assert NeedsRow(s, r, pc.w) && WarmSound(s, pc.w);
    }
  }

  lemma OtherStepBacked(s: State, a: Action, r: Rid)
    requires Sound(s) && Next(s, a).Some? && Backed(s, r) && a.r != r
    ensures Backed(Next(s, a).value, r)
  {
    if a.Step? { StepLeavesOthers(s, a.r, r); } else { ActionLeavesOthers(s, a, r); }
    var t := Next(s, a).value;
    assert Real(r) in t.vms <==> Real(r) in s.vms;
    if Real(r) in s.vms && s.vms[Real(r)].image.Some? && PcOf(s, a.r).Migrate? {
      var w := s.vms[Real(r)].image.value;
      assert WarmSound(s, w) && Taken(s, r, w) && Taken(s, a.r, PcOf(s, a.r).w);
    }
  }

  lemma OwnActionBacked(s: State, a: Action, r: Rid)
    requires Sound(s) && Next(s, a).Some? && Backed(s, r) && a.r == r && !a.Step?
    ensures Backed(Next(s, a).value, r)
  {
    assert RealSound(s, r);
  }

  /** A VM escapes its record if and only if a claim is given up although its VM exists: an answer of
      the node or of the table was lost, or a write failed, and then the node could not be asked, or
      something failed once more. */
  lemma AbandonedExactly(s: State, a: Action, r: Rid)
    requires Sound(s) && Next(s, a).Some? && Backed(s, r)
    ensures !Backed(Next(s, a).value, r) <==> Abandons(s, a, r)
  {
    if a.r != r {
      OtherStepBacked(s, a, r);
    } else if a.Step? {
      StepBacked(s, r);
    } else {
      OwnActionBacked(s, a, r);
    }
  }

  // ---------- a claim that ends well ----------

  /** The claim has ended: the VM runs under the real id, whose record has its node and the source's
      fields, and neither journal nor source is left. */
  predicate Settled(s: State, r: Rid, w: Wid) {
    && PcOf(s, r) == Idle && Runs(s, Real(r)) && Backed(s, r)
    && r in s.placed && TookOver(s, r, w) && r !in s.journal && w !in s.rows
  }

  lemma RunCons(s: State, a: Action, rest: seq<Action>, t: State)
    requires Next(s, a).Some? && Run(Next(s, a).value, rest, t)
    ensures Run(s, [a] + rest, t)
  {
    assert ([a] + rest)[1..] == rest;
  }

  lemma Two(s: State, a: Action, m: State, b: Action, n: State, rest: seq<Action>, t: State)
    requires Next(s, a) == Some(m) && Next(m, b) == Some(n) && Run(n, rest, t)
    ensures Run(s, [a, b] + rest, t)
  {
    RunCons(m, b, rest, t);
    RunCons(s, a, [b] + rest, t);
    assert [a] + ([b] + rest) == [a, b] + rest;
  }

  lemma WritesSettle(s: State, r: Rid, w: Wid, again: bool) returns (t: State)
    requires Sound(s) && Backed(s, r) && PcOf(s, r) == Migrate(w, again) && Runs(s, Real(r))
    ensures Run(s, [Finish(r, Served), Finish(r, Served)], t) && Settled(t, r, w) && t.vms == s.vms
  {
    var moved := Next(s, Finish(r, Served)).value;
    AbandonedExactly(s, Finish(r, Served), r);
    NextKeepsSound(s, Finish(r, Served));
    t := Next(moved, Finish(r, Served)).value;
    AbandonedExactly(moved, Finish(r, Served), r);
    RunCons(moved, Finish(r, Served), [], t);
    RunCons(s, Finish(r, Served), [Finish(r, Served)], t);
  }

  /** The VM an accepted call leaves under the real id: one that runs already, or the source's. */
  predicate Took(s: State, t: State, r: Rid, w: Wid) {
    Runs(t, Real(r)) && t.vms[Real(r)].image == if Runs(s, Real(r)) then s.vms[Real(r)].image else Some(w)
  }

  /** A resume that is answered and two writes that go through end the claim well. */
  lemma CallSettles(s: State, r: Rid, w: Wid) returns (t: State)
    requires Sound(s) && Backed(s, r) && Accepts(s, r, w)
    requires PcOf(s, r) == Resume(w) || PcOf(s, r) == ResumeAgain(w)
    ensures Run(s, [Call(r, Served), Finish(r, Served), Finish(r, Served)], t)
    ensures Settled(t, r, w) && Took(s, t, r, w)
  {
    var called := Next(s, Call(r, Served)).value;
    AbandonedExactly(s, Call(r, Served), r);
    NextKeepsSound(s, Call(r, Served));
    t := WritesSettle(called, r, w, PcOf(s, r).ResumeAgain?);
    RunCons(s, Call(r, Served), [Finish(r, Served), Finish(r, Served)], t);
  }

  /** So does one whose answer is lost, if the node is then asked and says that the VM runs. */
  lemma LostAnswerSettles(s: State, r: Rid, w: Wid) returns (t: State)
    requires Sound(s) && Backed(s, r) && Accepts(s, r, w) && PcOf(s, r) == Resume(w)
    ensures Run(s, [Call(r, AnswerLost), Ask(r, SaysRunning)]
                   + [Call(r, Served), Finish(r, Served), Finish(r, Served)], t)
    ensures Settled(t, r, w) && Took(s, t, r, w)
  {
    var called := Next(s, Call(r, AnswerLost)).value;
    AbandonedExactly(s, Call(r, AnswerLost), r);
    NextKeepsSound(s, Call(r, AnswerLost));
    var asked := Next(called, Ask(r, SaysRunning)).value;
    AbandonedExactly(called, Ask(r, SaysRunning), r);
    NextKeepsSound(called, Ask(r, SaysRunning));
    t := CallSettles(asked, r, w);
    Two(s, Call(r, AnswerLost), called, Ask(r, SaysRunning), asked,
        [Call(r, Served), Finish(r, Served), Finish(r, Served)], t);
  }

  /** Where the node says that the VM does not run, or cannot be asked, the claim is given up: journal,
      node and source are gone. */
  lemma FailedCallGivesUp(s: State, r: Rid, w: Wid, answer: Probe) returns (t: State)
    requires PcOf(s, r) == Resume(w) && !answer.SaysRunning? && (answer.SaysStopped? ==> !Runs(s, Real(r)))
    ensures Run(s, [Call(r, Refused), Ask(r, answer)] + [Step(r), Step(r)], t)
    ensures PcOf(t, r) == Idle && r !in t.journal && r !in t.placed && w !in t.rows && t.vms == s.vms
  {
    var called := Next(s, Call(r, Refused)).value;
    var asked := Next(called, Ask(r, answer)).value;
    var cleared := Next(asked, Step(r)).value;
    t := Next(cleared, Step(r)).value;
    Two(asked, Step(r), cleared, Step(r), t, [], t);
    assert [Step(r), Step(r)] + [] == [Step(r), Step(r)];
    Two(s, Call(r, Refused), called, Ask(r, answer), asked, [Step(r), Step(r)], t);
  }

  /** The first ready candidate is taken, its item read and the record told, in this order, before the
      node is called. */
  lemma ClaimReachesCall(s: State, r: Rid, w: Wid, others: seq<Wid>) returns (t: State)
    requires PcOf(s, r) == Idle && r !in s.journal && IsReady(s, w)
    ensures Run(s, [Begin(r, [w] + others), Step(r)] + [Step(r), Step(r)], t)
    ensures PcOf(t, r) == Resume(w) && Journaled(t, r, w) && r in t.placed && !IsReady(t, w) && w in t.rows
    ensures t.vms == s.vms && t.consumed == s.consumed
  {
    var begun := Next(s, Begin(r, [w] + others)).value;
    var won := Next(begun, Step(r)).value;
    var read := Next(won, Step(r)).value;
    t := Next(read, Step(r)).value;
    Two(won, Step(r), read, Step(r), t, [], t);
    assert [Step(r), Step(r)] + [] == [Step(r), Step(r)];
    Two(s, Begin(r, [w] + others), begun, Step(r), won, [Step(r), Step(r)], t);
  }

  // ---------- a claim abandoned ----------

  /** One warm id 5, one real id 0. */
  function Pool(row: Option<PoolState>, journaled: bool, placed: bool, consumed: bool, discarded: set<Wid>,
                vm: (VmId, Vm), pc: Pc): State {
    State(if row.Some? then map[5 := row.value] else map[], if journaled then map[0 := 5] else map[],
          if placed then {0} else {}, if consumed then map[5 := 0] else map[],
          discarded, map[vm.0 := vm.1], map[0 := pc])
  }

  const SOURCE := (Warm(5), Vm(false, None, {Warm(5)}))
  const RUNNING := (Real(0), Vm(true, Some(5), {Real(0), Warm(5)}))

  function Untouched5(): State {
    Pool(Some(Ready), false, false, false, {}, SOURCE, Idle).(pcs := map[])
  }

  function Journaled5(): State {
    Pool(Some(Claimed), true, true, false, {}, SOURCE, Resume(5))
  }

  function TakenOver5(pc: Pc): State {
    Pool(Some(Claimed), false, true, true, {}, RUNNING, pc)
  }

  lemma ClaimsSource(n: State, rest: seq<Action>, t: State)
    requires n == Pool(Some(Claimed), false, false, false, {}, SOURCE, Read(5)) && Run(n, rest, t)
    ensures Initial(Untouched5()) && Run(Untouched5(), [Begin(0, [5]), Step(0)] + rest, t)
  {
    var s := Untouched5();
    var m := Next(s, Begin(0, [5])).value;
    assert m == Pool(Some(Ready), false, false, false, {}, SOURCE, Choose([5]));
    assert m.rows[5 := Claimed] == n.rows && m.pcs[0 := Read(5)] == n.pcs;
    Two(s, Begin(0, [5]), m, Step(0), n, rest, t);
  }

  lemma JournalsSource(s: State, rest: seq<Action>, t: State)
    requires s == Pool(Some(Claimed), false, false, false, {}, SOURCE, Read(5)) && Run(Journaled5(), rest, t)
    ensures Run(s, [Step(0), Step(0)] + rest, t)
  {
    var n := Journaled5();
    var m := Next(s, Step(0)).value;
    assert m == Pool(Some(Claimed), false, false, false, {}, SOURCE, Write(5));
    assert m.journal[0 := 5] == n.journal && m.placed + {0} == n.placed && m.pcs[0 := Resume(5)] == n.pcs;
    Two(s, Step(0), m, Step(0), n, rest, t);
  }

  const CLAIM: seq<Action> := [Begin(0, [5]), Step(0)] + [Step(0), Step(0)]

  lemma ClaimReachesResume(rest: seq<Action>, t: State)
    requires Run(Journaled5(), rest, t)
    ensures Initial(Untouched5()) && Run(Untouched5(), CLAIM + rest, t)
  {
    var n := Pool(Some(Claimed), false, false, false, {}, SOURCE, Read(5));
    JournalsSource(n, rest, t);
    ClaimsSource(n, [Step(0), Step(0)] + rest, t);
    assert [Begin(0, [5]), Step(0)] + ([Step(0), Step(0)] + rest) == CLAIM + rest;
  }

  /** The call that resumes the source, answered or not. */
  lemma CallRuns(call: Call)
    requires !call.Refused?
    ensures Next(Journaled5(), Call(0, call))
         == Some(Pool(Some(Claimed), true, true, false, {}, RUNNING,
                      if call.Served? then Migrate(5, false) else Probe(5)))
  {
    var s := Journaled5();
    var m := Next(s, Call(0, call)).value;
    assert DirsOf(s, Real(0)) + {Real(0), Warm(5)} == {Real(0), Warm(5)};
    assert (s.vms - {Warm(5)})[Real(0) := RUNNING.1] == map[RUNNING.0 := RUNNING.1];
    assert s.pcs[0 := PcOf(m, 0)] == map[0 := PcOf(m, 0)];
  }

  lemma LosesAnswer(rest: seq<Action>, t: State)
    requires Run(Pool(Some(Claimed), true, true, false, {}, RUNNING, GiveUp(5)), rest, t)
    ensures Run(Journaled5(), [Call(0, AnswerLost), Ask(0, Unreachable)] + rest, t)
  {
    var m := Pool(Some(Claimed), true, true, false, {}, RUNNING, Probe(5));
    var n := Pool(Some(Claimed), true, true, false, {}, RUNNING, GiveUp(5));
    CallRuns(AnswerLost);
    assert m.pcs[0 := GiveUp(5)] == n.pcs;
    Two(Journaled5(), Call(0, AnswerLost), m, Ask(0, Unreachable), n, rest, t);
  }

  lemma Migrates(rest: seq<Action>, t: State)
    requires Run(TakenOver5(DeleteSource(5, false)), rest, t)
    ensures Run(Journaled5(), [Call(0, Served), Finish(0, Served)] + rest, t)
  {
    var m := Pool(Some(Claimed), true, true, false, {}, RUNNING, Migrate(5, false));
    var n := TakenOver5(DeleteSource(5, false));
    CallRuns(Served);
    assert m.journal - {0} == n.journal && m.placed + {0} == n.placed && m.consumed[5 := 0] == n.consumed;
    assert m.pcs[0 := DeleteSource(5, false)] == n.pcs;
    Two(Journaled5(), Call(0, Served), m, Finish(0, Served), n, rest, t);
  }

  lemma FailsToDelete(rest: seq<Action>, t: State)
    requires Run(TakenOver5(GiveUp(5)), rest, t)
    ensures Run(TakenOver5(DeleteSource(5, false)), [Finish(0, Refused), Ask(0, Unreachable)] + rest, t)
  {
    var s, m, n := TakenOver5(DeleteSource(5, false)), TakenOver5(Probe(5)), TakenOver5(GiveUp(5));
    assert s.pcs[0 := Probe(5)] == m.pcs && m.pcs[0 := GiveUp(5)] == n.pcs;
    Two(s, Finish(0, Refused), m, Ask(0, Unreachable), n, rest, t);
  }

  lemma GivesUp(s: State, t: State, journaled: bool, consumed: bool)
    requires s == Pool(Some(Claimed), journaled, true, consumed, {}, RUNNING, GiveUp(5))
    requires t == Pool(None, false, false, consumed, {5}, RUNNING, Idle)
    ensures Run(s, [Step(0), Step(0)], t)
  {
    var m := Next(s, Step(0)).value;
    assert s.journal - {0} == t.journal && s.placed - {0} == t.placed && s.discarded + {5} == {5};
    assert m == Pool(Some(Claimed), false, false, consumed, {5}, RUNNING, DeleteDamaged(5));
    assert m.rows - {5} == t.rows && m.pcs[0 := Idle] == t.pcs;
    Two(s, Step(0), m, Step(0), t, [], t);
    assert [Step(0), Step(0)] + [] == [Step(0), Step(0)];
  }

  /** The answer of the resume is lost and the node cannot be asked: the claim reports failure with
      the VM running under the real id, its journal cleared and its source deleted. */
  lemma LostAnswerAbandonsVm() returns (t: State)
    ensures Initial(Untouched5())
    ensures Run(Untouched5(), CLAIM + ([Call(0, AnswerLost), Ask(0, Unreachable)] + [Step(0), Step(0)]), t)
    ensures PcOf(t, 0) == Idle && Runs(t, Real(0)) && !Backed(t, 0) && t.journal == map[] && t.rows == map[]
  {
    t := Pool(None, false, false, false, {5}, RUNNING, Idle);
    GivesUp(Pool(Some(Claimed), true, true, false, {}, RUNNING, GiveUp(5)), t, true, false);
    LosesAnswer([Step(0), Step(0)], t);
    ClaimReachesResume([Call(0, AnswerLost), Ask(0, Unreachable)] + [Step(0), Step(0)], t);
  }

  const MIGRATED: seq<Action> := [Call(0, Served), Finish(0, Served)] + [Finish(0, Refused), Ask(0, Unreachable)]

  /** Every answer arrives, but the source's item cannot be deleted and then the node cannot be asked:
      the record that has taken the VM over loses its node while the VM runs. */
  lemma FailedDeleteAbandonsVm() returns (t: State)
    ensures Initial(Untouched5()) && Run(Untouched5(), CLAIM + (MIGRATED + [Step(0), Step(0)]), t)
    ensures PcOf(t, 0) == Idle && Runs(t, Real(0)) && TookOver(t, 0, 5) && 0 !in t.placed && !Backed(t, 0)
  {
    t := Pool(None, false, false, true, {5}, RUNNING, Idle);
    GivesUp(TakenOver5(GiveUp(5)), t, false, true);
    FailsToDelete([Step(0), Step(0)], t);
    Migrates([Finish(0, Refused), Ask(0, Unreachable)] + [Step(0), Step(0)], t);
    assert [Call(0, Served), Finish(0, Served)] + ([Finish(0, Refused), Ask(0, Unreachable)] + [Step(0), Step(0)])
        == MIGRATED + [Step(0), Step(0)];
    ClaimReachesResume(MIGRATED + [Step(0), Step(0)], t);
  }

  // ---------- the loop over candidates ----------

  class WarmItems {
    var rows: map<Wid, PoolState>

    constructor (rows: map<Wid, PoolState>)
      ensures this.rows == rows
    {
      this.rows := rows;
    }

    /** The first candidate still ready is won, and only it; the list may be out of date. */
    method ClaimItem(candidates: seq<Wid>) returns (won: Option<Wid>)
      modifies this
      ensures won.None? ==> rows == old(rows) && forall w <- candidates :: !(w in rows && rows[w].Ready?)
      ensures won.Some? ==>
                exists i :: 0 <= i < |candidates| && candidates[i] == won.value
                            && won.value in old(rows) && old(rows)[won.value].Ready?
                            && rows == old(rows)[won.value := Claimed]
                            && forall j ::
                                0 <= j < i ==> !(candidates[j] in old(rows) && old(rows)[candidates[j]].Ready?)
    {
      for i := 0 to |candidates|
        invariant rows == old(rows)
        invariant forall j :: 0 <= j < i ==> !(candidates[j] in rows && rows[candidates[j]].Ready?)
      {
        var w := candidates[i];
        if w in rows && rows[w].Ready? {
          rows := rows[w := Claimed];
          return Some(w);
        }
      }
      won := None;
    }
  }
}
