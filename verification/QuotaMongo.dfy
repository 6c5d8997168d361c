/**
 * The Mongo store on one window with a fixed limit. There is no transaction: every command
 * is its own atomic step, and the commands of concurrent reserve, finalize and refund calls
 * interleave freely. A reservation is visible before it is charged.
 */
module QuotaMongo {
  import opened Prelude
  import opened QuotaModels

  type CallId = nat

  datatype Doc = Doc(cost: int, status: Status, idempotencyKey: Option<string>)

  datatype Kind = Reserve(cost: int, idempotencyKey: Option<string>) | Finalize | Refund

  datatype Result = Granted | Replayed(id: Id) | Refused | Settled | Raised

  /** The next command of a call. */
  datatype Next =
    | Find | Ensure | Insert | FindWinner | Charge | Undo  // reserve
    | Claim | Look | GiveBack(cost: int)                   // finalize, refund
    | Done(result: Result)

  datatype Call = Call(id: Id, kind: Kind, next: Next)

  /**
   * `used` is the counter document. The rest of the fields only observe: which call reserves
   * an id, what was charged, who flipped a reservation to refunded, what was given back, and
   * what was finalized.
   */
  datatype State = State(
    used: Option<int>,
    docs: map<Id, Doc>,
    calls: map<CallId, Call>,
    owner: map<Id, CallId>,
    paid: map<Id, int>,
    flipped: map<Id, CallId>,
    back: map<Id, int>,
    finalized: set<Id>)

  predicate Enabled(s: State, c: CallId) { c in s.calls && !s.calls[c].next.Done? }

  predicate Taken(docs: map<Id, Doc>, key: Option<string>, id: Id) {
    id in docs && key.Some? && docs[id].idempotencyKey == key
  }

  function Moved(calls: map<CallId, Call>, c: CallId, next: Next): map<CallId, Call>
    requires c in calls
  {
    calls[c := calls[c].(next := next)]
  }

  function Goto(s: State, c: CallId, next: Next): State
    requires c in s.calls
  {
    s.(calls := Moved(s.calls, c, next))
  }

  function Ensured(s: State, c: CallId): State
    requires c in s.calls
  {
    s.(used := if s.used.None? then Some(0) else s.used, calls := Moved(s.calls, c, Insert))
  }

  function Inserted(s: State, c: CallId): State
    requires c in s.calls && s.calls[c].kind.Reserve?
  {
    s.(docs := s.docs[s.calls[c].id := Doc(s.calls[c].kind.cost, Reserved, s.calls[c].kind.idempotencyKey)],
       calls := Moved(s.calls, c, Charge))
  }

  function Paid(s: State, c: CallId): State
    requires c in s.calls && s.calls[c].kind.Reserve? && s.used.Some?
  {
    s.(used := Some(s.used.value + s.calls[c].kind.cost), paid := s.paid[s.calls[c].id := s.calls[c].kind.cost],
       calls := Moved(s.calls, c, Done(Granted)))
  }

  function Undone(s: State, c: CallId): State
    requires c in s.calls
  {
    s.(docs := s.docs - {s.calls[c].id}, calls := Moved(s.calls, c, Done(Refused)))
  }

  function Marked(docs: map<Id, Doc>, id: Id, status: Status): map<Id, Doc>
    requires id in docs
  {
    docs[id := docs[id].(status := status)]
  }

  function Flip(s: State, c: CallId): State
    requires c in s.calls && s.calls[c].id in s.docs
  {
    s.(docs := Marked(s.docs, s.calls[c].id, Refunded), flipped := s.flipped[s.calls[c].id := c],
       calls := Moved(s.calls, c, GiveBack(s.docs[s.calls[c].id].cost)))
  }

  function Fixed(s: State, c: CallId): State
    requires c in s.calls && s.calls[c].id in s.docs
  {
    s.(docs := Marked(s.docs, s.calls[c].id, Finalized), finalized := s.finalized + {s.calls[c].id},
       calls := Moved(s.calls, c, Done(Settled)))
  }

  function GaveBack(s: State, c: CallId): State
    requires c in s.calls && s.calls[c].next.GiveBack? && s.used.Some?
  {
    s.(used := Some(s.used.value - s.calls[c].next.cost), back := s.back[s.calls[c].id := s.calls[c].next.cost],
       calls := Moved(s.calls, c, Done(Settled)))
  }

  /** What a look-up by idempotency key leads to: the stored reservation, or the given next command. */
  ghost function Found(docs: map<Id, Doc>, key: Option<string>, otherwise: Next): Next {
    if w :| Taken(docs, key, w) then Done(Result.Replayed(w)) else otherwise
  }

  ghost function ReserveStep(s: State, limit: int, c: CallId): State
    requires c in s.calls && s.calls[c].kind.Reserve?
  {
    match s.calls[c].next
    case Find => Goto(s, c, Found(s.docs, s.calls[c].kind.idempotencyKey, Ensure))
    case Ensure => Ensured(s, c)
    case Insert =>
      if s.calls[c].id in s.docs || exists w :: Taken(s.docs, s.calls[c].kind.idempotencyKey, w)
      then Goto(s, c, FindWinner) else Inserted(s, c)
    case FindWinner => Goto(s, c, Found(s.docs, s.calls[c].kind.idempotencyKey, Done(Raised)))
    case Charge =>
      if s.used.Some? && s.used.value + s.calls[c].kind.cost <= limit then Paid(s, c) else Goto(s, c, Undo)
    case Undo => Undone(s, c)
    case _ => s
  }

  function Looked(docs: map<Id, Doc>, c: Call): Next {
    if c.id !in docs || docs[c.id].status == (if c.kind.Refund? then Finalized else Refunded)
    then Done(Raised) else Done(Settled)
  }

  function SettleStep(s: State, c: CallId): State
    requires c in s.calls
  {
    match s.calls[c].next
    case Claim =>
      if s.calls[c].id !in s.docs || s.docs[s.calls[c].id].status != Reserved then Goto(s, c, Look)
      else if s.calls[c].kind.Refund? then Flip(s, c) else Fixed(s, c)
    case Look => Goto(s, c, Looked(s.docs, s.calls[c]))
    case GiveBack(cost) => if s.used.None? then Goto(s, c, Done(Raised)) else GaveBack(s, c)
    case _ => s
  }

  ghost function Step(s: State, limit: int, c: CallId): State
    requires Enabled(s, c)
  {
    if s.calls[c].kind.Reserve? then ReserveStep(s, limit, c) else SettleStep(s, c)
  }

  // ----- the invariant -----

  function Value(): (Id, int) -> int { (id: Id, v: int) => v }

  /** The reservation was never inserted. */
  ghost predicate Untouched(s: State, id: Id) {
    id !in s.docs && id !in s.paid && id !in s.flipped && id !in s.finalized
  }

  ghost predicate Stored(s: State, c: Call)
    requires c.kind.Reserve?
  {
    c.id in s.docs && s.docs[c.id] == Doc(c.kind.cost, s.docs[c.id].status, c.kind.idempotencyKey) && s.used.Some?
  }

  /** What a reserve call at its present point knows about its own reservation. */
  ghost predicate OwnerOk(s: State, c: Call)
    requires c.kind.Reserve?
  {
    && c.kind.cost > 0
    && match c.next
       case Find => Untouched(s, c.id)
       case Ensure => Untouched(s, c.id)
       case Insert => Untouched(s, c.id) && s.used.Some?
       case FindWinner => Untouched(s, c.id)
       case Charge => Stored(s, c) && c.id !in s.paid
       case Undo => Stored(s, c) && c.id !in s.paid
       case Done(Granted) => Stored(s, c) && c.id in s.paid && s.paid[c.id] == c.kind.cost
       case Done(Refused) => c.id !in s.docs && c.id !in s.paid && s.used.Some?
       case Done(Replayed(_)) => Untouched(s, c.id)
       case Done(Raised) => Untouched(s, c.id)
       case _ => false
  }

  ghost predicate Wired(s: State, id: Id) {
    id in s.owner && s.owner[id] in s.calls && s.calls[s.owner[id]].kind.Reserve? && s.calls[s.owner[id]].id == id
  }

  /** Everything about one reservation: its call, its document, its refund and its finalization. */
  ghost predicate IdOk(s: State, id: Id) {
    && Wired(s, id) && OwnerOk(s, s.calls[s.owner[id]])
    && (id in s.docs ==> (s.docs[id].status == Refunded <==> id in s.flipped)
                         && (s.docs[id].status == Finalized <==> id in s.finalized))
    && (id in s.flipped ==> id !in s.finalized && s.used.Some?)
    && (id in s.flipped && id !in s.back ==>
          s.flipped[id] in s.calls && s.calls[s.flipped[id]].id == id && s.calls[s.flipped[id]].next.GiveBack?)
    && (id in s.back ==> id in s.flipped && s.back[id] == s.calls[s.owner[id]].kind.cost)
  }

  ghost predicate CallOk(s: State, c: CallId)
    requires c in s.calls
  {
    var Call(id, kind, next) := s.calls[c];
    if kind.Reserve? then id in s.owner && s.owner[id] == c
    else
      && (next in {Claim, Look} || next.GiveBack? || next.Done?)
      && (next.GiveBack? ==> id in s.flipped && s.flipped[id] == c && id !in s.back
                             && Wired(s, id) && next.cost == s.calls[s.owner[id]].kind.cost)
  }

  /** The unique partial index on the idempotency key. */
  ghost predicate KeysUnique(docs: map<Id, Doc>) {
    forall a, b :: a in docs && b in docs && a != b && docs[a].idempotencyKey.Some? ==>
      docs[a].idempotencyKey != docs[b].idempotencyKey
  }

  ghost predicate Known(s: State, id: Id) {
    id in s.docs || id in s.paid || id in s.flipped || id in s.back || id in s.finalized
  }

  ghost predicate Structure(s: State) {
    && (forall id :: id in s.owner ==> IdOk(s, id))
    && (forall c :: c in s.calls ==> CallOk(s, c))
    && (forall id :: Known(s, id) ==> id in s.owner)
    && KeysUnique(s.docs)
  }

  ghost predicate Balance(s: State, limit: int) {
    match s.used
    case None => s.paid == map[] && s.back == map[]
    case Some(u) => u == Total(s.paid, Value()) - Total(s.back, Value()) && u <= limit
  }

  ghost predicate Inv(s: State, limit: int) { Structure(s) && Balance(s, limit) }

  /** No documents yet; every reserve call has its own fresh id. */
  ghost predicate Init(s: State) {
    && s.used.None? && s.docs == map[] && s.paid == map[] && s.flipped == map[] && s.back == map[] && s.finalized == {}
    && (forall c :: c in s.calls ==>
          if s.calls[c].kind.Reserve?
          then s.calls[c].next == Find && s.calls[c].kind.cost > 0
               && s.calls[c].id in s.owner && s.owner[s.calls[c].id] == c
          else s.calls[c].next == Claim)
    && (forall id :: id in s.owner ==> Wired(s, id))
  }

  // ----- it is kept -----

  /** One step of call `c` changes nothing about any other reservation than `id`. */
  ghost predicate Elsewhere(s: State, s': State, c: CallId, id: Id) {
    && s'.owner == s.owner && s'.calls.Keys == s.calls.Keys
    && (s.used.Some? ==> s'.used.Some?)
    && c in s.calls && s.calls[c].id == id
    && s'.calls[c] == s.calls[c].(next := s'.calls[c].next)
    && (forall x :: x in s.calls && x != c ==> s'.calls[x] == s.calls[x])
    && (forall i :: i != id ==>
          && (i in s.docs <==> i in s'.docs) && (i in s.docs ==> s'.docs[i] == s.docs[i])
          && (i in s.paid <==> i in s'.paid) && (i in s.paid ==> s'.paid[i] == s.paid[i])
          && (i in s.flipped <==> i in s'.flipped) && (i in s.flipped ==> s'.flipped[i] == s.flipped[i])
          && (i in s.back <==> i in s'.back) && (i in s.back ==> s'.back[i] == s.back[i])
          && (i in s.finalized <==> i in s'.finalized))
  }

  lemma OtherIds(s: State, s': State, c: CallId, id: Id, i: Id)
    requires Elsewhere(s, s', c, id) && i != id && i in s.owner && IdOk(s, i)
    ensures IdOk(s', i)
  {
    assert s.owner[i] != c;
  }

  lemma OtherCalls(s: State, s': State, c: CallId, id: Id, x: CallId)
    requires Elsewhere(s, s', c, id) && x in s.calls && x != c && CallOk(s, x)
    requires s.calls[x].next.GiveBack? && s.calls[x].id == id ==> s'.flipped == s.flipped && s'.back == s.back
    ensures CallOk(s', x)
  {
  }

  /** A step keeps the structure if it keeps its own reservation, its own call and the index in order. */
  lemma LocalStep(s: State, s': State, c: CallId, id: Id)
    requires Structure(s) && Elsewhere(s, s', c, id)
    requires id in s.owner ==> IdOk(s', id)
    requires CallOk(s', c) && KeysUnique(s'.docs) && (Known(s', id) ==> id in s.owner)
    requires forall x :: x in s.calls && x != c && s.calls[x].next.GiveBack? && s.calls[x].id == id ==>
               s'.flipped == s.flipped && s'.back == s.back
    ensures Structure(s')
  {
    forall i | i in s'.owner
      ensures IdOk(s', i)
    {
      if i != id { OtherIds(s, s', c, id, i); }
    }
    forall x | x in s'.calls
      ensures CallOk(s', x)
    {
      if x != c { OtherCalls(s, s', c, id, x); }
    }
    forall i | Known(s', i)
      ensures i in s'.owner
    {
      assert i != id ==> Known(s, i);
    }
  }

  /** A command that writes no document moves a reserve call to a point with the same knowledge. */
  lemma ReserveMoves(s: State, c: CallId, used: Option<int>, next: Next)
    requires Structure(s) && c in s.calls && s.calls[c].kind.Reserve? && (s.used.Some? ==> used.Some?)
    requires OwnerOk(s.(used := used), s.calls[c].(next := next))
    ensures Structure(Goto(s.(used := used), c, next))
  {
    var s', id := Goto(s.(used := used), c, next), s.calls[c].id;
    assert CallOk(s, c) && IdOk(s, id);
    assert IdOk(s', id);
    LocalStep(s, s', c, id);
  }

  lemma SettleMoves(s: State, c: CallId, next: Next)
    requires Structure(s) && c in s.calls && !s.calls[c].kind.Reserve? && !s.calls[c].next.GiveBack?
    requires next == Look || next.Done?
    ensures Structure(Goto(s, c, next))
  {
    var s', id := Goto(s, c, next), s.calls[c].id;
    if id in s.owner {
      assert IdOk(s, id);
      assert s.owner[id] != c;
      assert IdOk(s', id);
    }
    LocalStep(s, s', c, id);
  }

  lemma InsertKeeps(s: State, c: CallId)
    requires Structure(s) && c in s.calls && s.calls[c].kind.Reserve? && s.calls[c].next == Insert
    requires forall w :: !Taken(s.docs, s.calls[c].kind.idempotencyKey, w)
    ensures Structure(Inserted(s, c))
  {
    var s', id := Inserted(s, c), s.calls[c].id;
    assert CallOk(s, c) && IdOk(s, id);
    assert IdOk(s', id);
    assert KeysUnique(s'.docs) by {
      forall a, b | a in s'.docs && b in s'.docs && a != b && s'.docs[a].idempotencyKey.Some?
        ensures s'.docs[a].idempotencyKey != s'.docs[b].idempotencyKey
      {
        assert !Taken(s.docs, s.calls[c].kind.idempotencyKey, a) && !Taken(s.docs, s.calls[c].kind.idempotencyKey, b);
      }
    }
    LocalStep(s, s', c, id);
  }

  lemma PayKeeps(s: State, c: CallId)
    requires Structure(s) && c in s.calls && s.calls[c].kind.Reserve? && s.calls[c].next == Charge && s.used.Some?
    ensures Structure(Paid(s, c)) && s.calls[c].id !in s.paid && s.calls[c].kind.cost > 0
  {
    var s', id := Paid(s, c), s.calls[c].id;
    assert CallOk(s, c) && IdOk(s, id);
    assert IdOk(s', id);
    LocalStep(s, s', c, id);
  }

  lemma UndoKeeps(s: State, c: CallId)
    requires Structure(s) && c in s.calls && s.calls[c].kind.Reserve? && s.calls[c].next == Undo
    ensures Structure(Undone(s, c))
  {
    var s', id := Undone(s, c), s.calls[c].id;
    assert CallOk(s, c) && IdOk(s, id);
    assert IdOk(s', id);
    LocalStep(s, s', c, id);
  }

  /** A reservation that nobody flipped is being given back by nobody. */
  lemma NobodyGivesBack(s: State, id: Id)
    requires forall c :: c in s.calls ==> CallOk(s, c)
    requires forall c :: c in s.calls && s.calls[c].kind.Reserve? ==> !s.calls[c].next.GiveBack?
    requires id !in s.flipped
    ensures forall x :: x in s.calls && s.calls[x].id == id ==> !s.calls[x].next.GiveBack?
  {
    forall x | x in s.calls && s.calls[x].id == id
      ensures !s.calls[x].next.GiveBack?
    {
      assert CallOk(s, x);
    }
  }

  lemma ReservesGiveNothingBack(s: State)
    requires Structure(s)
    ensures forall c :: c in s.calls && s.calls[c].kind.Reserve? ==> !s.calls[c].next.GiveBack?
  {
    forall c | c in s.calls && s.calls[c].kind.Reserve?
      ensures !s.calls[c].next.GiveBack?
    {
      assert CallOk(s, c) && IdOk(s, s.calls[c].id);
    }
  }

  lemma FlipElsewhere(s: State, c: CallId)
    requires c in s.calls && s.calls[c].id in s.docs
    ensures Elsewhere(s, Flip(s, c), c, s.calls[c].id)
    ensures KeysUnique(s.docs) ==> KeysUnique(Flip(s, c).docs)
  {
  }

  lemma FlipOwn(s: State, c: CallId)
    requires c in s.calls && s.calls[c].kind.Refund? && CallOk(s, c) && IdOk(s, s.calls[c].id)
    requires s.calls[c].id in s.docs && s.docs[s.calls[c].id].status == Reserved
    ensures IdOk(Flip(s, c), s.calls[c].id) && CallOk(Flip(s, c), c) && s.calls[c].id !in s.flipped
  {
    assert s.owner[s.calls[c].id] != c;
  }

  lemma FlipKeeps(s: State, c: CallId)
    requires Structure(s) && c in s.calls && s.calls[c].kind.Refund? && s.calls[c].next == Claim
    requires s.calls[c].id in s.docs && s.docs[s.calls[c].id].status == Reserved
    ensures Structure(Flip(s, c))
  {
    var id := s.calls[c].id;
    assert Known(s, id) && IdOk(s, id) && CallOk(s, c);
    FlipOwn(s, c);
    FlipElsewhere(s, c);
    ReservesGiveNothingBack(s);
    NobodyGivesBack(s, id);
    LocalStep(s, Flip(s, c), c, id);
  }

  lemma FixElsewhere(s: State, c: CallId)
    requires c in s.calls && s.calls[c].id in s.docs
    ensures Elsewhere(s, Fixed(s, c), c, s.calls[c].id)
    ensures KeysUnique(s.docs) ==> KeysUnique(Fixed(s, c).docs)
  {
  }

  lemma FixOwn(s: State, c: CallId)
    requires c in s.calls && s.calls[c].kind.Finalize? && CallOk(s, c) && IdOk(s, s.calls[c].id)
    requires s.calls[c].id in s.docs && s.docs[s.calls[c].id].status == Reserved
    ensures IdOk(Fixed(s, c), s.calls[c].id) && CallOk(Fixed(s, c), c)
  {
    assert s.owner[s.calls[c].id] != c;
  }

  lemma FixKeeps(s: State, c: CallId)
    requires Structure(s) && c in s.calls && s.calls[c].kind.Finalize? && s.calls[c].next == Claim
    requires s.calls[c].id in s.docs && s.docs[s.calls[c].id].status == Reserved
    ensures Structure(Fixed(s, c))
  {
    var id := s.calls[c].id;
    assert Known(s, id) && IdOk(s, id) && CallOk(s, c);
    FixOwn(s, c);
    FixElsewhere(s, c);
    LocalStep(s, Fixed(s, c), c, id);
  }

  lemma GiveBackElsewhere(s: State, c: CallId)
    requires c in s.calls && s.calls[c].next.GiveBack? && s.used.Some?
    ensures Elsewhere(s, GaveBack(s, c), c, s.calls[c].id)
  {
  }

  lemma GiveBackOwn(s: State, c: CallId)
    requires c in s.calls && !s.calls[c].kind.Reserve? && s.calls[c].next.GiveBack?
    requires CallOk(s, c) && IdOk(s, s.calls[c].id)
    ensures s.used.Some? && s.calls[c].id !in s.back && s.calls[c].next.cost > 0
    ensures IdOk(GaveBack(s, c), s.calls[c].id) && CallOk(GaveBack(s, c), c)
  {
    assert s.owner[s.calls[c].id] != c;
  }

  /** Only the call that flipped a reservation gives it back. */
  lemma NobodyElseGivesBack(s: State, c: CallId)
    requires Structure(s) && c in s.calls && !s.calls[c].kind.Reserve? && s.calls[c].next.GiveBack?
    ensures forall x :: x in s.calls && x != c && s.calls[x].id == s.calls[c].id ==> !s.calls[x].next.GiveBack?
  {
    ReservesGiveNothingBack(s);
    assert CallOk(s, c);
    forall x | x in s.calls && x != c && s.calls[x].id == s.calls[c].id
      ensures !s.calls[x].next.GiveBack?
    {
      assert CallOk(s, x);
    }
  }

  lemma GiveBackKeeps(s: State, c: CallId)
    requires Structure(s) && c in s.calls && !s.calls[c].kind.Reserve? && s.calls[c].next.GiveBack?
    ensures s.used.Some? && Structure(GaveBack(s, c)) && s.calls[c].id !in s.back && s.calls[c].next.cost > 0
  {
    var id := s.calls[c].id;
    assert CallOk(s, c) && Known(s, id) && IdOk(s, id);
    GiveBackOwn(s, c);
    GiveBackElsewhere(s, c);
    NobodyElseGivesBack(s, c);
    LocalStep(s, GaveBack(s, c), c, id);
  }

  lemma FindKeeps(s: State, limit: int, c: CallId)
    requires Structure(s) && Enabled(s, c) && s.calls[c].kind.Reserve?
    requires s.calls[c].next in {Find, FindWinner}
    ensures Structure(ReserveStep(s, limit, c))
  {
    var s' := ReserveStep(s, limit, c);
    assert CallOk(s, c) && IdOk(s, s.calls[c].id);
    var next := s'.calls[c].next;
    assert s' == Goto(s, c, next);
    ReserveMoves(s, c, s.used, next);
  }

  lemma ReserveKeeps(s: State, limit: int, c: CallId)
    requires Structure(s) && Enabled(s, c) && s.calls[c].kind.Reserve?
    ensures Structure(ReserveStep(s, limit, c))
  {
    var Call(id, Reserve(cost, key), next) := s.calls[c];
    assert CallOk(s, c) && IdOk(s, id);
    if next in {Find, FindWinner} {
      FindKeeps(s, limit, c);
    } else if next == Ensure {
      ReserveMoves(s, c, if s.used.None? then Some(0) else s.used, Insert);
    } else if next == Undo {
      UndoKeeps(s, c);
    } else if next == Charge {
      if s.used.Some? && s.used.value + cost <= limit { PayKeeps(s, c); } else { ReserveMoves(s, c, s.used, Undo); }
    } else {
      if id in s.docs || exists w :: Taken(s.docs, key, w) { ReserveMoves(s, c, s.used, FindWinner); }
      else { InsertKeeps(s, c); }
    }
  }

  lemma PayBalances(s: State, limit: int, c: CallId)
    requires Balance(s, limit) && c in s.calls && s.calls[c].kind.Reserve? && s.calls[c].id !in s.paid
    requires s.used.Some? && s.used.value + s.calls[c].kind.cost <= limit
    ensures Balance(Paid(s, c), limit)
  {
    TotalInsert(s.paid, s.calls[c].id, s.calls[c].kind.cost, Value());
  }

  lemma ReserveBalances(s: State, limit: int, c: CallId)
    requires Balance(s, limit) && Enabled(s, c) && s.calls[c].kind.Reserve? && limit >= 0
    requires s.calls[c].next == Charge ==> s.calls[c].id !in s.paid
    ensures Balance(ReserveStep(s, limit, c), limit)
  {
    if s.calls[c].next == Charge && s.used.Some? && s.used.value + s.calls[c].kind.cost <= limit {
      PayBalances(s, limit, c);
    } else {
      var s' := ReserveStep(s, limit, c);
      assert s'.paid == s.paid && s'.back == s.back;
    }
  }

  lemma SettleKeeps(s: State, c: CallId)
    requires Structure(s) && Enabled(s, c) && !s.calls[c].kind.Reserve?
    ensures Structure(SettleStep(s, c))
  {
    var Call(id, kind, next) := s.calls[c];
    assert CallOk(s, c);
    if next.GiveBack? {
      GiveBackKeeps(s, c);
    } else if next == Claim && id in s.docs && s.docs[id].status == Reserved {
      if kind.Refund? { FlipKeeps(s, c); } else { FixKeeps(s, c); }
    } else {
      SettleMoves(s, c, SettleStep(s, c).calls[c].next);
    }
  }

  lemma SettleBalances(s: State, limit: int, c: CallId)
    requires Balance(s, limit) && Enabled(s, c)
    requires s.calls[c].next.GiveBack? ==> s.calls[c].id !in s.back && s.calls[c].next.cost > 0
    ensures Balance(SettleStep(s, c), limit)
  {
    var next := s.calls[c].next;
    if next.GiveBack? { TotalInsert(s.back, s.calls[c].id, next.cost, Value()); }
  }

  lemma InvStep(s: State, limit: int, c: CallId)
    requires Inv(s, limit) && Enabled(s, c) && limit >= 0
    ensures Inv(Step(s, limit, c), limit)
  {
    if s.calls[c].kind.Reserve? {
      ReserveKeeps(s, limit, c);
      assert CallOk(s, c) && IdOk(s, s.calls[c].id);
      ReserveBalances(s, limit, c);
    } else {
      SettleKeeps(s, c);
      if s.calls[c].next.GiveBack? { GiveBackKeeps(s, c); }
      SettleBalances(s, limit, c);
    }
  }

  ghost predicate Run(st: seq<State>, ops: seq<CallId>, limit: int) {
    && |st| == |ops| + 1 && Init(st[0]) && limit >= 0
    && forall i {:trigger ops[i]} :: 0 <= i < |ops| ==>
         Enabled(st[i], ops[i]) && st[i + 1] == Step(st[i], limit, ops[i])
  }

  lemma {:induction false} InvHolds(st: seq<State>, ops: seq<CallId>, limit: int, k: nat)
    requires Run(st, ops, limit) && k <= |ops|
    ensures Inv(st[k], limit)
  {
    if k == 0 {
    } else {
      InvHolds(st, ops, limit, k - 1);
      InvStep(st[k - 1], limit, ops[k - 1]);
    }
  }

  // ----- what follows for every run -----

  /** Charges, refunds and finalizations are never taken back, and a call keeps its id and kind. */
  ghost predicate Grows(s: State, s': State) {
    && s.owner == s'.owner && s.paid.Keys <= s'.paid.Keys && s.back.Keys <= s'.back.Keys
    && s.flipped.Keys <= s'.flipped.Keys && s.finalized <= s'.finalized
    && (forall c :: c in s.calls ==>
          c in s'.calls && s'.calls[c].id == s.calls[c].id && s'.calls[c].kind == s.calls[c].kind)
  }

  lemma GotoGrows(s: State, c: CallId, next: Next)
    requires c in s.calls
    ensures Grows(s, Goto(s, c, next)) && Grows(s, Ensured(s, c)) && Grows(s, Undone(s, c))
  {
  }

  lemma PaidGrows(s: State, c: CallId)
    requires c in s.calls && s.calls[c].kind.Reserve? && s.used.Some?
    ensures Grows(s, Paid(s, c))
  {
  }

  lemma InsertedGrows(s: State, c: CallId)
    requires c in s.calls && s.calls[c].kind.Reserve?
    ensures Grows(s, Inserted(s, c))
  {
  }

  lemma FlipGrows(s: State, c: CallId)
    requires c in s.calls && s.calls[c].id in s.docs
    ensures Grows(s, Flip(s, c)) && Grows(s, Fixed(s, c))
  {
  }

  lemma GaveBackGrows(s: State, c: CallId)
    requires c in s.calls && s.calls[c].next.GiveBack? && s.used.Some?
    ensures Grows(s, GaveBack(s, c))
  {
  }

  lemma ReserveGrows(s: State, limit: int, c: CallId)
    requires c in s.calls && s.calls[c].kind.Reserve?
    ensures Grows(s, ReserveStep(s, limit, c))
  {
    var key := s.calls[c].kind.idempotencyKey;
    match s.calls[c].next
    case Find => GotoGrows(s, c, Found(s.docs, key, Ensure));
    case Ensure => GotoGrows(s, c, Insert);
    case Insert => GotoGrows(s, c, FindWinner); InsertedGrows(s, c);
    case FindWinner => GotoGrows(s, c, Found(s.docs, key, Done(Raised)));
    case Charge => if s.used.Some? { PaidGrows(s, c); } GotoGrows(s, c, Undo);
    case Undo => GotoGrows(s, c, Done(Refused));
    case _ =>
  }

  lemma ClaimGrows(s: State, c: CallId)
    requires c in s.calls && s.calls[c].next == Claim
    ensures Grows(s, SettleStep(s, c))
  {
    if !Shows(s, c, Reserved) {
      assert SettleStep(s, c) == Goto(s, c, Look);
      GotoGrows(s, c, Look);
    } else {
      FlipGrows(s, c);
      assert SettleStep(s, c) == if s.calls[c].kind.Refund? then Flip(s, c) else Fixed(s, c);
    }
  }

  lemma SettleGrows(s: State, c: CallId)
    requires c in s.calls
    ensures Grows(s, SettleStep(s, c))
  {
    match s.calls[c].next
    case Claim => ClaimGrows(s, c);
    case Look =>
      assert SettleStep(s, c) == Goto(s, c, Looked(s.docs, s.calls[c]));
      GotoGrows(s, c, Looked(s.docs, s.calls[c]));
    case GiveBack(_) => if s.used.Some? { GaveBackGrows(s, c); } else { GotoGrows(s, c, Done(Raised)); }
    case _ => assert SettleStep(s, c) == s;
  }

  lemma {:induction false} Monotone(st: seq<State>, ops: seq<CallId>, limit: int, i: nat, j: nat)
    requires Run(st, ops, limit) && i <= j <= |ops|
    ensures Grows(st[i], st[j])
    decreases j - i
  {
    if i == j {
    } else {
      Monotone(st, ops, limit, i, j - 1);
      var s, c := st[j - 1], ops[j - 1];
      if s.calls[c].kind.Reserve? { ReserveGrows(s, limit, c); } else { SettleGrows(s, c); }
    }
  }

  /** The counter never exceeds the limit. */
  lemma NeverOverTheLimit(st: seq<State>, ops: seq<CallId>, limit: int, k: nat)
    requires Run(st, ops, limit) && k <= |ops|
    ensures st[k].used.Some? ==> st[k].used.value <= limit
  {
    InvHolds(st, ops, limit, k);
  }

  /** The step charges the counter for the calling reserve. */
  ghost predicate Charges(s: State, limit: int, c: CallId) {
    && Enabled(s, c) && s.calls[c].kind.Reserve? && s.calls[c].next == Charge
    && s.used.Some? && s.used.value + s.calls[c].kind.cost <= limit
  }

  lemma ChargeIsNew(st: seq<State>, ops: seq<CallId>, limit: int, i: nat)
    requires Run(st, ops, limit) && i < |ops| && Charges(st[i], limit, ops[i])
    ensures st[i].calls[ops[i]].id !in st[i].paid && st[i].calls[ops[i]].id in st[i + 1].paid
  {
    InvHolds(st, ops, limit, i);
    PayKeeps(st[i], ops[i]);
    assert st[i + 1] == Paid(st[i], ops[i]);
  }

  lemma ChargeStays(st: seq<State>, ops: seq<CallId>, limit: int, i: nat, k: nat)
    requires Run(st, ops, limit) && i < k <= |ops| && Charges(st[i], limit, ops[i])
    ensures var c := st[i].calls[ops[i]];
            && ops[i] in st[k].calls && st[k].calls[ops[i]].id == c.id && st[k].calls[ops[i]].kind == c.kind
            && c.id in st[k].paid
  {
    ChargeIsNew(st, ops, limit, i);
    Monotone(st, ops, limit, i, k);
    Monotone(st, ops, limit, i + 1, k);
  }

  lemma PaidKeysDiffer(st: seq<State>, ops: seq<CallId>, limit: int, k: nat, a: CallId, b: CallId)
    requires Run(st, ops, limit) && k <= |ops| && a in st[k].calls && b in st[k].calls
    requires var c, d := st[k].calls[a], st[k].calls[b];
             c.kind.Reserve? && d.kind.Reserve? && c.id in st[k].paid && d.id in st[k].paid && c.id != d.id
    ensures var key := st[k].calls[a].kind.idempotencyKey;
            key.None? || key != st[k].calls[b].kind.idempotencyKey
  {
    InvHolds(st, ops, limit, k);
    PaidIsStored(st[k], st[k].calls[a].id, a);
    PaidIsStored(st[k], st[k].calls[b].id, b);
  }

  /** Two charges in one run are for two reservations, and never for the same idempotency key. */
  lemma EachKeyIsChargedOnce(st: seq<State>, ops: seq<CallId>, limit: int, i: nat, j: nat)
    requires Run(st, ops, limit) && i < j < |ops| && Charges(st[i], limit, ops[i]) && Charges(st[j], limit, ops[j])
    ensures st[i].calls[ops[i]].id != st[j].calls[ops[j]].id
    ensures var key := st[i].calls[ops[i]].kind.idempotencyKey;
            key.None? || key != st[j].calls[ops[j]].kind.idempotencyKey
  {
    ChargeIsNew(st, ops, limit, j);
    ChargeStays(st, ops, limit, i, j);
    ChargeStays(st, ops, limit, i, j + 1);
    ChargeStays(st, ops, limit, j, j + 1);
    PaidKeysDiffer(st, ops, limit, j + 1, ops[i], ops[j]);
  }

  lemma PaidIsStored(s: State, id: Id, c: CallId)
    requires Structure(s) && id in s.paid && c in s.calls && s.calls[c].id == id && s.calls[c].kind.Reserve?
    ensures id in s.docs && s.docs[id].idempotencyKey == s.calls[c].kind.idempotencyKey
  {
    assert Known(s, id) && IdOk(s, id) && CallOk(s, c);
  }

  /** Two decrements of the counter are for two reservations. */
  lemma EachReservationIsGivenBackOnce(st: seq<State>, ops: seq<CallId>, limit: int, i: nat, j: nat)
    requires Run(st, ops, limit) && i < j < |ops|
    requires Enabled(st[i], ops[i]) && st[i].calls[ops[i]].next.GiveBack?
    requires Enabled(st[j], ops[j]) && st[j].calls[ops[j]].next.GiveBack?
    ensures st[i].calls[ops[i]].id != st[j].calls[ops[j]].id
  {
    InvHolds(st, ops, limit, i);
    InvHolds(st, ops, limit, j);
    GiveBackSettles(st[i], limit, ops[i]);
    GiveBackSettles(st[j], limit, ops[j]);
    Monotone(st, ops, limit, i + 1, j);
  }

  lemma GiveBackSettles(s: State, limit: int, c: CallId)
    requires Structure(s) && Enabled(s, c) && s.calls[c].next.GiveBack?
    ensures s.calls[c].id !in s.back && s.calls[c].id in Step(s, limit, c).back
  {
    assert CallOk(s, c) && (s.calls[c].id in s.owner ==> IdOk(s, s.calls[c].id));
    GiveBackKeeps(s, c);
  }

  /** No reservation is both given back and finalized, whichever comes first. */
  lemma NeverBothSettled(st: seq<State>, ops: seq<CallId>, limit: int, i: nat, j: nat, id: Id)
    requires Run(st, ops, limit) && i <= |ops| && j <= |ops| && id in st[i].back
    ensures id !in st[j].finalized
  {
    var k := if i < j then j else i;
    Monotone(st, ops, limit, i, k);
    Monotone(st, ops, limit, j, k);
    InvHolds(st, ops, limit, k);
    assert Known(st[k], id) && IdOk(st[k], id);
  }

  /** The document of the call's reservation has the status. */
  predicate Shows(s: State, c: CallId, status: Status)
    requires c in s.calls
  {
    s.calls[c].id in s.docs && s.docs[s.calls[c].id].status == status
  }

  /**
   * How a reserve goes on after its look-up: the insert stores its reservation unless the key
   * is held by then, in which case it looks the holder up; the charge grants exactly if the
   * cost still fits; and a refused one is taken back, document and all.
   */
  lemma ReservesGoOn(st: seq<State>, ops: seq<CallId>, limit: int, i: nat)
    requires Run(st, ops, limit) && i < |ops| && st[i].calls[ops[i]].kind.Reserve?
    ensures ops[i] in st[i + 1].calls
    ensures var s, c, s' := st[i], ops[i], st[i + 1];
            var was, next := s.calls[c], s'.calls[c].next;
            match was.next
            case Ensure => next == Insert && s'.used.Some? && (s.used.Some? ==> s'.used == s.used)
            case Insert =>
              if KeyIsHeld(s, c) then next == FindWinner && s'.docs == s.docs
              else
                && next == Charge && was.id in s'.docs
                && s'.docs[was.id] == Doc(was.kind.cost, Reserved, was.kind.idempotencyKey)
            case Charge =>
              s.used.Some? &&
              if s.used.value + was.kind.cost <= limit
              then next == Done(Granted) && s'.used == Some(s.used.value + was.kind.cost)
              else next == Undo && s'.used == s.used
            case Undo => next == Done(Refused) && was.id !in s'.docs && s'.used == s.used
            case _ => true
  {
    var s, c := st[i], ops[i];
    InvHolds(st, ops, limit, i);
    assert CallOk(s, c) && IdOk(s, s.calls[c].id) && st[i + 1] == ReserveStep(s, limit, c);
    Monotone(st, ops, limit, i, i + 1);
    ReserveGoesOn(s, limit, c);
  }

  lemma ReserveGoesOn(s: State, limit: int, c: CallId)
    requires c in s.calls && s.calls[c].kind.Reserve? && OwnerOk(s, s.calls[c])
    ensures var s', was := ReserveStep(s, limit, c), s.calls[c];
            && c in s'.calls
            && match was.next
               case Ensure => s' == Ensured(s, c)
               case Insert => s' == if KeyIsHeld(s, c) then Goto(s, c, FindWinner) else Inserted(s, c)
               case Charge =>
                 s.used.Some? &&
                 s' == if s.used.value + was.kind.cost <= limit then Paid(s, c) else Goto(s, c, Undo)
               case Undo => s' == Undone(s, c)
               case _ => true
  {
    var key := s.calls[c].kind.idempotencyKey;
    assert KeyIsHeld(s, c) <==> exists w :: Taken(s.docs, key, w) by {
      if KeyIsHeld(s, c) {
        var id :| id in s.docs && key.Some? && s.docs[id].idempotencyKey == key;
        assert Taken(s.docs, key, id);
      }
    }
  }

  /** The status that a settling call of this kind cannot accept. */
  function OtherWay(kind: Kind): Status { if kind.Refund? then Finalized else Refunded }

  lemma ClaimsGoOn(s: State, c: CallId)
    requires c in s.calls && s.calls[c].next == Claim
    ensures c in SettleStep(s, c).calls
    ensures var s', was := SettleStep(s, c), s.calls[c];
            if !Shows(s, c, Reserved) then s'.calls[c].next == Look && s'.docs == s.docs
            else if was.kind.Refund? then
              s'.calls[c].next == GiveBack(s.docs[was.id].cost) && s'.calls[c].id == was.id && Shows(s', c, Refunded)
            else s'.calls[c].next == Done(Settled) && s'.calls[c].id == was.id && Shows(s', c, Finalized)
  {
    if !Shows(s, c, Reserved) {
      assert SettleStep(s, c) == Goto(s, c, Look);
    } else if s.calls[c].kind.Refund? {
      assert SettleStep(s, c) == Flip(s, c);
    } else {
      assert SettleStep(s, c) == Fixed(s, c);
    }
  }

  lemma LooksGoOn(s: State, c: CallId)
    requires c in s.calls && s.calls[c].next == Look
    ensures c in SettleStep(s, c).calls
    ensures SettleStep(s, c).calls[c].next
         == if s.calls[c].id !in s.docs || Shows(s, c, OtherWay(s.calls[c].kind)) then Done(Raised) else Done(Settled)
  {
    assert SettleStep(s, c) == Goto(s, c, Looked(s.docs, s.calls[c]));
  }

  /**
   * How a finalize or refund goes on: a reserved document is taken, and a finalize is done
   * then; otherwise a look decides, and it raises exactly if there is no document or one
   * that was settled the other way. The call that gives back is done.
   */
  lemma SettlesAnswer(st: seq<State>, ops: seq<CallId>, limit: int, i: nat)
    requires Run(st, ops, limit) && i < |ops| && !st[i].calls[ops[i]].kind.Reserve?
    ensures ops[i] in st[i + 1].calls
    ensures var s, c, next := st[i], ops[i], st[i + 1].calls[ops[i]].next;
            match s.calls[c].next
            case Claim =>
              if !Shows(s, c, Reserved) then next == Look
              else if s.calls[c].kind.Refund? then next.GiveBack? && Shows(st[i + 1], c, Refunded)
              else next == Done(Settled) && Shows(st[i + 1], c, Finalized)
            case Look =>
              var raises := s.calls[c].id !in s.docs || Shows(s, c, OtherWay(s.calls[c].kind));
              next == if raises then Done(Raised) else Done(Settled)
            case GiveBack(_) => next == Done(Settled)
            case _ => false
  {
    var s, c := st[i], ops[i];
    InvHolds(st, ops, limit, i);
    assert CallOk(s, c) && st[i + 1] == SettleStep(s, c);
    Monotone(st, ops, limit, i, i + 1);
    if s.calls[c].next == Claim {
      ClaimsGoOn(s, c);
    } else if s.calls[c].next == Look {
      LooksGoOn(s, c);
    } else {
      GiveBackKeeps(s, c);
      assert SettleStep(s, c) == GaveBack(s, c);
    }
  }

  /** Some stored reservation holds the idempotency key of the call. */
  ghost predicate KeyIsHeld(s: State, c: CallId)
    requires c in s.calls && s.calls[c].kind.Reserve?
  {
    exists id :: id in s.docs && s.calls[c].kind.idempotencyKey.Some?
                 && s.docs[id].idempotencyKey == s.calls[c].kind.idempotencyKey
  }

  /**
   * A look-up by idempotency key ends the call with the one reservation that holds the key,
   * whoever made it; without such a reservation the call goes on, or raises after its insert
   * was refused.
   */
  lemma RetriesGetTheHolder(st: seq<State>, ops: seq<CallId>, limit: int, i: nat)
    requires Run(st, ops, limit) && i < |ops| && st[i].calls[ops[i]].kind.Reserve?
    requires st[i].calls[ops[i]].next in {Find, FindWinner}
    ensures ops[i] in st[i + 1].calls
    ensures var next, key := st[i + 1].calls[ops[i]].next, st[i].calls[ops[i]].kind.idempotencyKey;
            if KeyIsHeld(st[i], ops[i]) then
              && next.Done? && next.result.Replayed? && next.result.id in st[i].docs
              && st[i].docs[next.result.id].idempotencyKey == key
              && forall id :: id in st[i].docs && st[i].docs[id].idempotencyKey == key ==> id == next.result.id
            else next == if st[i].calls[ops[i]].next == Find then Ensure else Done(Raised)
  {
    InvHolds(st, ops, limit, i);
    LookUpFinds(st[i], ops[i], if st[i].calls[ops[i]].next == Find then Ensure else Done(Raised));
    assert st[i + 1] == Step(st[i], limit, ops[i]);
  }

  lemma LookUpFinds(s: State, c: CallId, otherwise: Next)
    requires c in s.calls && s.calls[c].kind.Reserve? && KeysUnique(s.docs)
    ensures var key := s.calls[c].kind.idempotencyKey;
            var next := Found(s.docs, key, otherwise);
            if KeyIsHeld(s, c) then
              && next.Done? && next.result.Replayed? && next.result.id in s.docs
              && s.docs[next.result.id].idempotencyKey == key
              && forall id :: id in s.docs && s.docs[id].idempotencyKey == key ==> id == next.result.id
            else next == otherwise
  {
    var key := s.calls[c].kind.idempotencyKey;
    if KeyIsHeld(s, c) {
      var id :| id in s.docs && key.Some? && s.docs[id].idempotencyKey == key;
      assert Taken(s.docs, key, id);
    } else if w :| Taken(s.docs, key, w) {
      assert KeyIsHeld(s, c);
    }
  }

  // ----- at rest -----

  ghost predicate AtRest(s: State) { forall c :: c in s.calls ==> s.calls[c].next.Done? }

  function Cost(): (Id, Doc) -> int { (id: Id, d: Doc) => d.cost }

  /** What a document says is in use. */
  function Live(): (Id, Doc) -> int { (id: Id, d: Doc) => if d.status == Refunded then 0 else d.cost }

  function Dead(): (Id, Doc) -> int { (id: Id, d: Doc) => if d.status == Refunded then d.cost else 0 }

  function In(ids: set<Id>): (Id, int) -> int { (id: Id, v: int) => if id in ids then v else 0 }

  function NotIn(ids: set<Id>): (Id, int) -> int { (id: Id, v: int) => if id in ids then 0 else v }

  function Used(s: State): int { if s.used.None? then 0 else s.used.value }

  /** With every call done, documents and charges match, and so do refunds and decrements. */
  lemma RestMatches(s: State, id: Id)
    requires Structure(s) && AtRest(s)
    ensures id in s.docs <==> id in s.paid
    ensures id in s.docs ==> s.docs[id].cost == s.paid[id] && (s.docs[id].status == Refunded <==> id in s.back)
    ensures id in s.flipped <==> id in s.back
    ensures id in s.back ==> s.back[id] > 0 && (id in s.docs ==> s.back[id] == s.docs[id].cost)
  {
    if Known(s, id) {
      assert IdOk(s, id);
      assert s.calls[s.owner[id]].next.Done?;
    }
  }

  /** At rest the counter is the live documents, less what was given back without ever being charged. */
  lemma RestBalance(s: State, limit: int)
    requires Inv(s, limit) && AtRest(s)
    ensures Used(s) == Total(s.docs, Live()) - Total(s.back, NotIn(s.docs.Keys))
  {
    forall id ensures id in s.docs <==> id in s.paid { RestMatches(s, id); }
    forall id | id in s.docs ensures s.docs[id].cost == s.paid[id] { RestMatches(s, id); }
    assert s.docs.Keys == s.paid.Keys;
    TotalSame(s.docs, s.paid, Cost(), Value());
    TotalSplit(s.docs, Cost(), Live(), Dead());
    TotalSplit(s.back, Value(), In(s.docs.Keys), NotIn(s.docs.Keys));
    RestRefunds(s);
  }

  lemma RestRefunds(s: State)
    requires Structure(s) && AtRest(s)
    ensures Total(s.docs, Dead()) == Total(s.back, In(s.docs.Keys))
  {
    var d, b := s.docs - (s.docs.Keys - s.back.Keys), s.back - (s.back.Keys - s.docs.Keys);
    forall id | id in s.docs ensures s.docs[id].status == Refunded <==> id in s.back { RestMatches(s, id); }
    TotalDrop(s.docs, s.docs.Keys - s.back.Keys, Dead());
    TotalDrop(s.back, s.back.Keys - s.docs.Keys, In(s.docs.Keys));
    assert d.Keys == b.Keys;
    forall id | id in d ensures Dead()(id, d[id]) == In(s.docs.Keys)(id, b[id]) { RestMatches(s, id); }
    TotalSame(d, b, Dead(), In(s.docs.Keys));
  }

  /**
   * At rest the counter equals the summed cost of the reserved and finalized documents if and
   * only if every reservation that a refund claimed had been charged by its reserve.
   */
  lemma RestIsExactUnlessUnchargedWasRefunded(st: seq<State>, ops: seq<CallId>, limit: int)
    requires Run(st, ops, limit) && AtRest(st[|ops|])
    ensures Used(st[|ops|]) == Total(st[|ops|].docs, Live()) <==>
            (forall id :: id in st[|ops|].flipped ==> id in st[|ops|].paid)
  {
    var s := st[|ops|];
    InvHolds(st, ops, limit, |ops|);
    RestBalance(s, limit);
    forall id ensures id in s.docs <==> id in s.paid { RestMatches(s, id); }
    forall id ensures id in s.flipped <==> id in s.back { RestMatches(s, id); }
    forall id | id in s.back ensures s.back[id] > 0 { RestMatches(s, id); }
    TotalBound(s.back, NotIn(s.docs.Keys));
    if forall id :: id in s.flipped ==> id in s.paid {
      TotalDrop(s.back, s.back.Keys, NotIn(s.docs.Keys));
      assert s.back - s.back.Keys == map[];
    } else {
      var id :| id in s.flipped && id !in s.paid;
      assert NotIn(s.docs.Keys)(id, s.back[id]) > 0;
    }
  }

  /** Callers settle only what was granted: a refund claims no reservation that is still uncharged. */
  ghost predicate RefundsFollowGrants(st: seq<State>, ops: seq<CallId>, limit: int)
    requires Run(st, ops, limit)
  {
    forall i {:trigger ops[i]} :: 0 <= i < |ops| ==>
      var c := st[i].calls[ops[i]];
      c.kind.Refund? && c.next == Claim && c.id in st[i].docs ==> c.id in st[i].paid
  }

  lemma {:induction false} GrantedBeforeRefunded(st: seq<State>, ops: seq<CallId>, limit: int, k: nat)
    requires Run(st, ops, limit) && k <= |ops| && RefundsFollowGrants(st, ops, limit)
    ensures forall id :: id in st[k].flipped ==> id in st[k].paid
  {
    if k == 0 {
    } else {
      GrantedBeforeRefunded(st, ops, limit, k - 1);
      Monotone(st, ops, limit, k - 1, k);
      var s, c := st[k - 1], ops[k - 1];
      if s.calls[c].kind.Reserve? { FlipsNothing(s, limit, c); } else { FlippedBy(s, c); }
    }
  }

  lemma FlipsNothing(s: State, limit: int, c: CallId)
    requires c in s.calls && s.calls[c].kind.Reserve?
    ensures ReserveStep(s, limit, c).flipped == s.flipped
  {
    match s.calls[c].next
    case Find => assert ReserveStep(s, limit, c) == Goto(s, c, ReserveStep(s, limit, c).calls[c].next);
    case Ensure =>
    case Insert =>
    case FindWinner =>
    case Charge =>
    case Undo =>
    case _ =>
  }

  lemma FlippedBy(s: State, c: CallId)
    requires c in s.calls && !s.calls[c].kind.Reserve?
    ensures forall id :: id in SettleStep(s, c).flipped && id !in s.flipped ==>
              s.calls[c].kind.Refund? && s.calls[c].next == Claim && s.calls[c].id == id && id in s.docs
  {
  }

  /** With that discipline the counter is never negative, and at rest it is exactly what is live. */
  lemma DisciplinedCallersBalance(st: seq<State>, ops: seq<CallId>, limit: int, k: nat)
    requires Run(st, ops, limit) && k <= |ops| && RefundsFollowGrants(st, ops, limit)
    ensures Used(st[k]) >= 0
    ensures k == |ops| && AtRest(st[k]) ==> Used(st[k]) == Total(st[k].docs, Live())
  {
    GrantedBeforeRefunded(st, ops, limit, k);
    InvHolds(st, ops, limit, k);
    var s := st[k];
    forall id | id in s.back ensures id in s.paid && s.back[id] == s.paid[id] { PaidIsBack(s, id); }
    forall id | id in s.paid ensures s.paid[id] > 0 { PaidIsBack(s, id); }
    TotalSplit(s.paid, Value(), In(s.back.Keys), NotIn(s.back.Keys));
    TotalBound(s.paid, NotIn(s.back.Keys));
    TotalDrop(s.paid, s.paid.Keys - s.back.Keys, In(s.back.Keys));
    assert (s.paid - (s.paid.Keys - s.back.Keys)).Keys == s.back.Keys;
    TotalSame(s.paid - (s.paid.Keys - s.back.Keys), s.back, In(s.back.Keys), Value());
    if k == |ops| && AtRest(s) { RestIsExactUnlessUnchargedWasRefunded(st, ops, limit); }
  }

  lemma PaidIsBack(s: State, id: Id)
    requires Structure(s)
    ensures id in s.paid ==> s.paid[id] > 0
    ensures id in s.back ==> id in s.flipped && (id in s.paid ==> s.back[id] == s.paid[id])
  {
    if Known(s, id) { assert IdOk(s, id); }
  }

  // ----- the discipline is needed -----

  /** A reserve of one more than the limit (call 0) and a refund of the same id (call 1). */
  function Slip(
    limit: int, used: Option<int>, docs: map<Id, Doc>, reserve: Next, refund: Next,
    flipped: map<Id, CallId>, back: map<Id, int>): State
  {
    State(used, docs, map[0 := Call("r", Reserve(limit + 1, None), reserve), 1 := Call("r", Refund, refund)],
          map["r" := 0], map[], flipped, back, {})
  }

  ghost predicate Reachable(s: State, limit: int) { exists st, ops :: Run(st, ops, limit) && st[|ops|] == s }

  lemma Extend(s: State, limit: int, c: CallId, s': State)
    requires Reachable(s, limit) && Enabled(s, c) && s' == Step(s, limit, c)
    ensures Reachable(s', limit)
  {
    var st, ops :| Run(st, ops, limit) && st[|ops|] == s;
    assert Run(st + [s'], ops + [c], limit);
  }

  function Starts(limit: int): State { Slip(limit, None, map[], Find, Claim, map[], map[]) }

  function Looks(limit: int): State { Slip(limit, None, map[], Ensure, Claim, map[], map[]) }

  function Counts(limit: int): State { Slip(limit, Some(0), map[], Insert, Claim, map[], map[]) }

  function Stores(limit: int): State {
    Slip(limit, Some(0), map["r" := Doc(limit + 1, Reserved, None)], Charge, Claim, map[], map[])
  }

  function Flips(limit: int): State {
    Slip(limit, Some(0), map["r" := Doc(limit + 1, Refunded, None)], Charge, GiveBack(limit + 1), map["r" := 1], map[])
  }

  function Refuses(limit: int): State {
    Slip(limit, Some(0), map["r" := Doc(limit + 1, Refunded, None)], Undo, GiveBack(limit + 1), map["r" := 1], map[])
  }

  function Deletes(limit: int): State {
    Slip(limit, Some(0), map[], Done(Refused), GiveBack(limit + 1), map["r" := 1], map[])
  }

  lemma LookReaches(limit: int)
    requires limit >= 0
    ensures Reachable(Looks(limit), limit)
  {
    assert Run([Starts(limit)], [], limit);
    assert Looks(limit) == Goto(Starts(limit), 0, Ensure);
    Extend(Starts(limit), limit, 0, Looks(limit));
  }

  lemma EnsureReaches(limit: int)
    requires limit >= 0
    ensures Reachable(Counts(limit), limit)
  {
    LookReaches(limit);
    assert Counts(limit) == Ensured(Looks(limit), 0);
    Extend(Looks(limit), limit, 0, Counts(limit));
  }

  lemma InsertReaches(limit: int)
    requires limit >= 0
    ensures Reachable(Stores(limit), limit)
  {
    EnsureReaches(limit);
    assert Stores(limit) == Inserted(Counts(limit), 0);
    Extend(Counts(limit), limit, 0, Stores(limit));
  }

  lemma FlipReaches(limit: int)
    requires limit >= 0
    ensures Reachable(Flips(limit), limit)
  {
    InsertReaches(limit);
    assert Flips(limit) == Flip(Stores(limit), 1);
    Extend(Stores(limit), limit, 1, Flips(limit));
  }

  lemma RefusalReaches(limit: int)
    requires limit >= 0
    ensures Reachable(Refuses(limit), limit)
  {
    FlipReaches(limit);
    assert Refuses(limit) == Goto(Flips(limit), 0, Undo);
    Extend(Flips(limit), limit, 0, Refuses(limit));
  }

  lemma UndoReaches(limit: int)
    requires limit >= 0
    ensures Reachable(Deletes(limit), limit)
  {
    RefusalReaches(limit);
    assert Deletes(limit) == Undone(Refuses(limit), 0);
    Extend(Refuses(limit), limit, 0, Deletes(limit));
  }

  /**
   * A refund that gets in between the insert and the refused charge gives back what was never
   * charged: the counter ends below zero with no document left.
   */
  lemma RefundOutrunsTheCharge(limit: int) returns (s: State)
    requires limit >= 0
    ensures Reachable(s, limit) && AtRest(s) && s.docs == map[] && s.used == Some(-limit - 1)
  {
    UndoReaches(limit);
    s := Slip(limit, Some(-limit - 1), map[], Done(Refused), Done(Settled), map["r" := 1], map["r" := limit + 1]);
    assert s == GaveBack(Deletes(limit), 1);
    Extend(Deletes(limit), limit, 1, s);
  }
}
