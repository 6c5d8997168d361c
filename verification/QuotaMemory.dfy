/** Quota commands, usage and reservations, as every store sees them. */
module QuotaModels {
  import opened Prelude

  type Id = string

  datatype Status = Reserved | Finalized | Refunded

  datatype CounterKey = CounterKey(subject: string, resource: string, window: string)

  datatype IdempotencyKey = IdempotencyKey(counter: CounterKey, key: string)

  datatype Command = Command(
    key: CounterKey, limit: int, cost: int, resetAt: Time, id: Id, idempotencyKey: Option<string>)

  datatype Query = Query(key: CounterKey, limit: int, resetAt: Time)

  /** What the command's own constructor checks. */
  predicate WellFormed(c: Command) {
    c.key.subject != "" && c.key.resource != "" && c.key.window != "" && c.limit > 0 && c.cost > 0
  }

  datatype Counter = Counter(used: int, limit: int, resetAt: Time)

  datatype Usage = Usage(key: CounterKey, used: int, limit: int, remaining: int, resetAt: Time)

  datatype Reservation = Reservation(
    id: Id, key: CounterKey, cost: int, status: Status, usage: Usage, idempotencyKey: Option<string>)

  function UsageOf(key: CounterKey, c: Counter): Usage {
    Usage(key, c.used, c.limit, Max(c.limit - c.used, 0), c.resetAt)
  }

  function NoUsage(q: Query): Usage { Usage(q.key, 0, q.limit, q.limit, q.resetAt) }

  datatype Outcome =
    | Given(reservation: Reservation)     // a new reservation
    | Replayed(reservation: Reservation)  // the one an earlier command made
    | OverLimit
    | Current(usage: Usage)   // the counter as it stands
    | Snapshot(usage: Usage)  // the usage a settled reservation reports
    | Nothing
    | NotFound
    | NotAllowed
    | StoreClosed
    | Conflict
}

/** The in-memory store: three dictionaries that must agree with each other. */
module QuotaMemory {
  import opened Prelude
  import opened QuotaModels

  datatype State = State(
    counters: map<CounterKey, Counter>,
    reservations: map<Id, Reservation>,
    idempotency: map<IdempotencyKey, Id>,
    closed: bool)

  const EMPTY := State(map[], map[], map[], false)

  // ----- the operations -----

  function CounterFor(s: State, c: Command): Counter {
    if c.key in s.counters then s.counters[c.key] else Counter(0, c.limit, c.resetAt)
  }

  /** The reservation an earlier command with the same idempotency key made. */
  function Earlier(s: State, c: Command): Option<Id> {
    if c.idempotencyKey.Some? && IdempotencyKey(c.key, c.idempotencyKey.value) in s.idempotency
    then Some(s.idempotency[IdempotencyKey(c.key, c.idempotencyKey.value)]) else None
  }

  function Charged(c: Command, counter: Counter): Counter { Counter(counter.used + c.cost, c.limit, c.resetAt) }

  function NewReservation(c: Command, counter: Counter): Reservation {
    Reservation(c.id, c.key, c.cost, Reserved, UsageOf(c.key, Charged(c, counter)), c.idempotencyKey)
  }

  function ReserveIn(s: State, c: Command): State {
    if s.closed || Earlier(s, c).Some? then s
    else
      var counter := CounterFor(s, c);
      if counter.used + c.cost > c.limit then s.(counters := s.counters[c.key := counter])
      else State(s.counters[c.key := Charged(c, counter)],
                 s.reservations[c.id := NewReservation(c, counter)],
                 if c.idempotencyKey.Some?
                 then s.idempotency[IdempotencyKey(c.key, c.idempotencyKey.value) := c.id] else s.idempotency,
                 false)
  }

  function ReserveOut(s: State, c: Command): Outcome {
    if s.closed then StoreClosed
    else
      match Earlier(s, c)
      case Some(id) => if id in s.reservations then Replayed(s.reservations[id]) else NotFound
      case None =>
        if CounterFor(s, c).used + c.cost > c.limit then OverLimit else Given(NewReservation(c, CounterFor(s, c)))
  }

  /** The reservation is there, still reserved, and so is its counter. */
  predicate Settleable(s: State, id: Id) {
    !s.closed && id in s.reservations && s.reservations[id].status == Reserved && s.reservations[id].key in s.counters
  }

  function FinalizeIn(s: State, id: Id): State {
    if !Settleable(s, id) then s
    else
      var r := s.reservations[id];
      s.(reservations := s.reservations[id := r.(status := Finalized, usage := UsageOf(r.key, s.counters[r.key]))])
  }

  function FinalizeOut(s: State, id: Id): Outcome {
    if s.closed then StoreClosed
    else if id !in s.reservations then NotFound
    else if s.reservations[id].status == Refunded then NotAllowed
    else if s.reservations[id].status == Finalized then Snapshot(s.reservations[id].usage)
    else if !Settleable(s, id) then NotFound
    else Current(UsageOf(s.reservations[id].key, s.counters[s.reservations[id].key]))
  }

  function RefundedCounter(s: State, id: Id): Counter
    requires Settleable(s, id)
  {
    var r := s.reservations[id];
    s.counters[r.key].(used := Max(s.counters[r.key].used - r.cost, 0))
  }

  function RefundIn(s: State, id: Id): State {
    if !Settleable(s, id) then s
    else
      var r, counter := s.reservations[id], RefundedCounter(s, id);
      s.(counters := s.counters[r.key := counter],
         reservations := s.reservations[id := r.(status := Refunded, usage := UsageOf(r.key, counter))])
  }

  function RefundOut(s: State, id: Id): Outcome {
    if s.closed then StoreClosed
    else if id !in s.reservations then NotFound
    else if s.reservations[id].status == Finalized then NotAllowed
    else if s.reservations[id].status == Refunded then Snapshot(s.reservations[id].usage)
    else if !Settleable(s, id) then NotFound
    else Current(UsageOf(s.reservations[id].key, RefundedCounter(s, id)))
  }

  function GetUsageIn(s: State, q: Query): State {
    if s.closed || q.key !in s.counters then s
    else s.(counters := s.counters[q.key := s.counters[q.key].(limit := q.limit, resetAt := q.resetAt)])
  }

  function GetUsageOut(s: State, q: Query): Outcome {
    if s.closed then StoreClosed
    else if q.key !in s.counters then Current(NoUsage(q))
    else Current(UsageOf(q.key, GetUsageIn(s, q).counters[q.key]))
  }

  /** What a reset spares: everything outside the resource, or outside one subject's share of it. */
  predicate Spared(key: CounterKey, subject: Option<string>, resource: string) {
    key.resource != resource || (subject.Some? && key.subject != subject.value)
  }

  function ResetIn(s: State, subject: Option<string>, resource: string): State {
    if s.closed then s
    else State(map k | k in s.counters && Spared(k, subject, resource) :: s.counters[k],
               map id | id in s.reservations && Spared(s.reservations[id].key, subject, resource) :: s.reservations[id],
               map k | k in s.idempotency && Spared(k.counter, subject, resource) :: s.idempotency[k],
               false)
  }

  // ----- the invariant -----

  /** What a reservation takes up of the counter `key`. */
  function Share(key: CounterKey): (Id, Reservation) -> int {
    (id: Id, r: Reservation) => if r.key == key && r.status != Refunded then r.cost else 0
  }

  ghost predicate Ledger(s: State) {
    forall k :: k in s.counters ==> s.counters[k].used == Total(s.reservations, Share(k))
  }

  ghost predicate Links(s: State) {
    && (forall id :: id in s.reservations ==>
          && s.reservations[id].id == id && s.reservations[id].cost > 0
          && s.reservations[id].key in s.counters && s.reservations[id].usage.key == s.reservations[id].key)
    && (forall k :: k in s.idempotency ==>
          && s.idempotency[k] in s.reservations
          && s.reservations[s.idempotency[k]].key == k.counter
          && s.reservations[s.idempotency[k]].idempotencyKey == Some(k.key))
    && (forall id :: id in s.reservations && s.reservations[id].idempotencyKey.Some? ==>
          var k := IdempotencyKey(s.reservations[id].key, s.reservations[id].idempotencyKey.value);
          k in s.idempotency && s.idempotency[k] == id)
  }

  ghost predicate Inv(s: State) { Ledger(s) && Links(s) }

  lemma ReserveKeepsLedger(s: State, c: Command)
    requires Inv(s) && c.id !in s.reservations
    ensures Ledger(ReserveIn(s, c))
  {
    var s' := ReserveIn(s, c);
    forall k | k in s'.counters
      ensures s'.counters[k].used == Total(s'.reservations, Share(k))
    {
      if s'.reservations != s.reservations {
        TotalInsert(s.reservations, c.id, s'.reservations[c.id], Share(k));
      }
      if k !in s.counters {
        NoShare(s, k);
      }
    }
  }

  lemma ReserveKeepsLinks(s: State, c: Command)
    requires Links(s) && WellFormed(c) && c.id !in s.reservations
    ensures Links(ReserveIn(s, c))
  {
  }

  lemma ReserveKeeps(s: State, c: Command)
    requires Inv(s) && WellFormed(c) && c.id !in s.reservations
    ensures Inv(ReserveIn(s, c))
  {
    ReserveKeepsLedger(s, c);
    ReserveKeepsLinks(s, c);
  }

  /** Without a counter there is nothing to sum up. */
  lemma NoShare(s: State, k: CounterKey)
    requires Links(s) && k !in s.counters
    ensures Total(s.reservations, Share(k)) == 0
  {
    TotalDrop(s.reservations, s.reservations.Keys, Share(k));
    assert s.reservations - s.reservations.Keys == map[];
  }

  lemma StatusKeeps(s: State, id: Id, r: Reservation, k: CounterKey)
    requires Inv(s) && id in s.reservations && k in s.counters
    requires r == s.reservations[id].(status := r.status, usage := r.usage)
    ensures Total(s.reservations[id := r], Share(k))
         == s.counters[k].used - Share(k)(id, s.reservations[id]) + Share(k)(id, r)
  {
    TotalUpdate(s.reservations, id, r, Share(k));
  }

  lemma FinalizeKeeps(s: State, id: Id)
    requires Inv(s)
    ensures Inv(FinalizeIn(s, id))
  {
    var s' := FinalizeIn(s, id);
    if Settleable(s, id) {
      forall k | k in s.counters
        ensures s'.counters[k].used == Total(s'.reservations, Share(k))
      {
        StatusKeeps(s, id, s'.reservations[id], k);
      }
    }
  }

  /** The clamp at zero never fires: the counter holds at least what the reservation was charged. */
  lemma RefundNeverClamps(s: State, id: Id)
    requires Inv(s) && Settleable(s, id)
    ensures RefundedCounter(s, id).used == s.counters[s.reservations[id].key].used - s.reservations[id].cost
    ensures RefundedCounter(s, id).used >= 0
  {
    TotalBound(s.reservations, Share(s.reservations[id].key));
    assert Share(s.reservations[id].key)(id, s.reservations[id]) == s.reservations[id].cost;
  }

  lemma RefundKeepsLedger(s: State, id: Id)
    requires Inv(s) && Settleable(s, id)
    ensures Ledger(RefundIn(s, id))
  {
    var s' := RefundIn(s, id);
    RefundNeverClamps(s, id);
    forall k | k in s'.counters
      ensures s'.counters[k].used == Total(s'.reservations, Share(k))
    {
      StatusKeeps(s, id, s'.reservations[id], k);
    }
  }

  lemma RefundKeeps(s: State, id: Id)
    requires Inv(s)
    ensures Inv(RefundIn(s, id))
  {
    if Settleable(s, id) {
      RefundKeepsLedger(s, id);
      RefundKeepsLinks(s, id);
    }
  }

  lemma RefundKeepsLinks(s: State, id: Id)
    requires Links(s)
    ensures Links(RefundIn(s, id))
  {
  }

  lemma ResetKeepsLedger(s: State, subject: Option<string>, resource: string)
    requires Ledger(s) && !s.closed
    ensures Ledger(ResetIn(s, subject, resource))
  {
    var s' := ResetIn(s, subject, resource);
    var gone := set id | id in s.reservations && !Spared(s.reservations[id].key, subject, resource);
    assert s'.reservations == s.reservations - gone;
    forall k | k in s'.counters
      ensures s'.counters[k].used == Total(s'.reservations, Share(k))
    {
      TotalDrop(s.reservations, gone, Share(k));
    }
  }

  lemma ResetKeepsLinks(s: State, subject: Option<string>, resource: string)
    requires Links(s)
    ensures Links(ResetIn(s, subject, resource))
  {
  }

  lemma ResetKeeps(s: State, subject: Option<string>, resource: string)
    requires Inv(s)
    ensures Inv(ResetIn(s, subject, resource))
  {
    ResetKeepsLinks(s, subject, resource);
    if !s.closed {
      ResetKeepsLedger(s, subject, resource);
    }
  }

  // ----- runs -----

  datatype Op =
    | Reserve(command: Command)
    | Finalize(id: Id)
    | Refund(id: Id)
    | GetUsage(query: Query)
    | ResetUsage(query: Query)
    | ResetResource(resource: string)
    | Close

  /** Commands are well formed and carry a new reservation id. */
  predicate Legal(s: State, op: Op) {
    op.Reserve? ==> WellFormed(op.command) && op.command.id !in s.reservations
  }

  function Apply(s: State, op: Op): State {
    match op
    case Reserve(c) => ReserveIn(s, c)
    case Finalize(id) => FinalizeIn(s, id)
    case Refund(id) => RefundIn(s, id)
    case GetUsage(q) => GetUsageIn(s, q)
    case ResetUsage(q) => ResetIn(s, Some(q.key.subject), q.key.resource)
    case ResetResource(resource) => ResetIn(s, None, resource)
    case Close => State(map[], map[], map[], true)
  }

  function Respond(s: State, op: Op): Outcome {
    match op
    case Reserve(c) => ReserveOut(s, c)
    case Finalize(id) => FinalizeOut(s, id)
    case Refund(id) => RefundOut(s, id)
    case GetUsage(q) => GetUsageOut(s, q)
    case ResetUsage(q) => if s.closed then StoreClosed else Current(NoUsage(q))
    case ResetResource(_) => if s.closed then StoreClosed else Nothing
    case Close => Nothing
  }

  lemma InvStep(s: State, op: Op)
    requires Inv(s) && Legal(s, op)
    ensures Inv(Apply(s, op))
  {
    match op
    case Reserve(c) => ReserveKeeps(s, c);
    case Finalize(id) => FinalizeKeeps(s, id);
    case Refund(id) => RefundKeeps(s, id);
    case GetUsage(q) =>
    case ResetUsage(q) => ResetKeeps(s, Some(q.key.subject), q.key.resource);
    case ResetResource(resource) => ResetKeeps(s, None, resource);
    case Close =>
  }

  ghost predicate Run(st: seq<State>, ops: seq<Op>) {
    && |st| == |ops| + 1 && st[0] == EMPTY
    && forall i {:trigger ops[i]} :: 0 <= i < |ops| ==> Legal(st[i], ops[i]) && st[i + 1] == Apply(st[i], ops[i])
  }

  /**
   * Over every sequence of operations: each counter's usage is the summed cost of its
   * reserved and finalized reservations, every reservation has its counter, and the
   * idempotency index and the reservations point at each other.
   */
  lemma {:induction false} DictionariesAgree(st: seq<State>, ops: seq<Op>, k: nat)
    requires Run(st, ops) && k <= |ops|
    ensures Inv(st[k])
  {
    if k == 0 {
    } else {
      DictionariesAgree(st, ops, k - 1);
      InvStep(st[k - 1], ops[k - 1]);
    }
  }

  ghost predicate Capped(s: State, key: CounterKey, limit: int) { key in s.counters ==> s.counters[key].used <= limit }

  lemma CapStep(s: State, op: Op, key: CounterKey, limit: int)
    requires Inv(s) && Legal(s, op) && Capped(s, key, limit) && limit > 0
    requires op.Reserve? && op.command.key == key ==> op.command.limit == limit
    ensures Capped(Apply(s, op), key, limit)
  {
    if op.Refund? && Settleable(s, op.id) {
      RefundNeverClamps(s, op.id);
    }
  }

  lemma {:induction false} CapHolds(st: seq<State>, ops: seq<Op>, k: nat, key: CounterKey, limit: int)
    requires Run(st, ops) && k <= |ops| && limit > 0
    requires forall i :: 0 <= i < |ops| && ops[i].Reserve? && ops[i].command.key == key ==>
               ops[i].command.limit == limit
    ensures Capped(st[k], key, limit)
  {
    if k == 0 {
    } else {
      CapHolds(st, ops, k - 1, key, limit);
      DictionariesAgree(st, ops, k - 1);
      CapStep(st[k - 1], ops[k - 1], key, limit);
    }
  }

  lemma UsageIsNotNegative(s: State, key: CounterKey)
    requires Inv(s) && key in s.counters
    ensures 0 <= s.counters[key].used
  {
    TotalBound(s.reservations, Share(key));
  }

  /** With one limit per counter, usage lies between zero and that limit at all times. */
  lemma NeverOverTheLimit(st: seq<State>, ops: seq<Op>, k: nat, key: CounterKey, limit: int)
    requires Run(st, ops) && k <= |ops| && limit > 0
    requires forall i :: 0 <= i < |ops| && ops[i].Reserve? && ops[i].command.key == key ==>
               ops[i].command.limit == limit
    ensures key in st[k].counters ==> 0 <= st[k].counters[key].used <= limit
  {
    CapHolds(st, ops, k, key, limit);
    DictionariesAgree(st, ops, k);
    if key in st[k].counters { UsageIsNotNegative(st[k], key); }
  }

  /** The counter belongs to the resource, and to the subject if one is given. */
  predicate BelongsTo(key: CounterKey, subject: Option<string>, resource: string) {
    key.resource == resource && (subject.None? || key.subject == subject.value)
  }

  /**
   * A reset of a subject's resource, or of a whole resource, removes exactly what belongs to
   * it: counters, reservations and idempotency entries. Everything else is as it was.
   */
  lemma ResetRemovesExactly(s: State, subject: Option<string>, resource: string)
    requires Inv(s) && !s.closed
    ensures var s' := ResetIn(s, subject, resource);
            && (forall k :: k in s'.counters <==> k in s.counters && !BelongsTo(k, subject, resource))
            && (forall k :: k in s'.counters ==> s'.counters[k] == s.counters[k])
            && (forall id :: id in s'.reservations <==>
                  id in s.reservations && !BelongsTo(s.reservations[id].key, subject, resource))
            && (forall id :: id in s'.reservations ==> s'.reservations[id] == s.reservations[id])
            && (forall k :: k in s'.idempotency <==> k in s.idempotency && !BelongsTo(k.counter, subject, resource))
            && (forall k :: k in s'.idempotency ==> s'.idempotency[k] == s.idempotency[k])
  {
    var s' := ResetIn(s, subject, resource);
    assert forall k :: Spared(k, subject, resource) <==> !BelongsTo(k, subject, resource);
  }

  /** After a reset the subject starts from nothing, in every window, and nobody else notices. */
  lemma ResetStartsOver(s: State, q: Query, other: Query)
    requires Inv(s) && !s.closed && other.key.resource == q.key.resource
    ensures GetUsageOut(Apply(s, ResetUsage(q)), other)
         == if other.key.subject == q.key.subject then Current(NoUsage(other)) else GetUsageOut(s, other)
  {
    ResetRemovesExactly(s, Some(q.key.subject), q.key.resource);
  }

  /** Giving back and charging cancel: a granted reservation refunded at once leaves the counter as it was. */
  lemma RefundUndoesReserve(s: State, c: Command)
    requires Inv(s) && WellFormed(c) && c.id !in s.reservations && !s.closed && Earlier(s, c).None?
    requires ReserveOut(s, c).Given?
    ensures Inv(ReserveIn(s, c))
    ensures RefundIn(ReserveIn(s, c), c.id).counters[c.key].used == CounterFor(s, c).used
  {
    ReserveKeeps(s, c);
    RefundNeverClamps(ReserveIn(s, c), c.id);
  }

  /** A retry with the same idempotency key gets the same reservation and changes nothing. */
  lemma RetryIsFree(s: State, c: Command, retry: Command)
    requires Inv(s) && WellFormed(c) && c.id !in s.reservations && !s.closed && c.idempotencyKey.Some?
    requires ReserveOut(s, c).Given? || ReserveOut(s, c).Replayed?
    requires retry.key == c.key && retry.idempotencyKey == c.idempotencyKey
    ensures Inv(ReserveIn(s, c)) && ReserveIn(ReserveIn(s, c), retry) == ReserveIn(s, c)
    ensures ReserveOut(ReserveIn(s, c), retry) == Replayed(ReserveOut(s, c).reservation)
  {
    ReserveKeeps(s, c);
  }

  // ----- what the reported usage means -----

  /** A usage of the counter: whoever goes by its remaining amount is right. */
  ghost predicate Tells(s: State, u: Usage) {
    && 0 <= u.used && u.used == (if u.key in s.counters then s.counters[u.key].used else 0)
    && forall c: Command :: WellFormed(c) && c.key == u.key && c.limit == u.limit && Earlier(s, c).None? ==>
         (ReserveOut(s, c).Given? <==> c.cost <= u.remaining)
  }

  /** The usage that a query reports is for the query's limit, and says exactly which costs will be granted. */
  lemma QueriesTell(s: State, q: Query)
    requires Inv(s) && !s.closed && q.limit > 0
    ensures GetUsageOut(s, q).Current?
    ensures var u := GetUsageOut(s, q).usage;
            u.key == q.key && u.limit == q.limit && u.resetAt == q.resetAt && Tells(GetUsageIn(s, q), u)
  {
    if q.key in s.counters { UsageIsNotNegative(s, q.key); }
  }

  /** So does the usage that comes with a grant. */
  lemma GrantsTell(s: State, c: Command)
    requires Inv(s) && WellFormed(c) && c.id !in s.reservations && !s.closed && ReserveOut(s, c).Given?
    ensures var r := ReserveOut(s, c).reservation;
            && r.id == c.id && r.key == c.key && r.cost == c.cost && r.status == Reserved
            && r.usage.key == c.key && r.usage.limit == c.limit && r.usage.resetAt == c.resetAt
            && r.usage.used == CounterFor(s, c).used + c.cost && Tells(ReserveIn(s, c), r.usage)
  {
    ReserveKeeps(s, c);
    UsageIsNotNegative(ReserveIn(s, c), c.key);
  }

  /** A reservation is settled once: settling it again reports the very same usage, settling it the other way raises. */
  lemma SettledOnce(s: State, id: Id)
    requires Inv(s) && Settleable(s, id)
    ensures FinalizeOut(s, id).Current? && RefundOut(s, id).Current?
    ensures FinalizeOut(FinalizeIn(s, id), id) == Snapshot(FinalizeOut(s, id).usage)
    ensures FinalizeIn(FinalizeIn(s, id), id) == FinalizeIn(s, id) && RefundOut(FinalizeIn(s, id), id) == NotAllowed
    ensures RefundOut(RefundIn(s, id), id) == Snapshot(RefundOut(s, id).usage)
    ensures RefundIn(RefundIn(s, id), id) == RefundIn(s, id) && FinalizeOut(RefundIn(s, id), id) == NotAllowed
    ensures RefundOut(s, id).usage.used == s.counters[s.reservations[id].key].used - s.reservations[id].cost
    ensures FinalizeOut(s, id).usage.used == s.counters[s.reservations[id].key].used
  {
    RefundNeverClamps(s, id);
  }

  /** What a step sets the limit and reset time of a counter to. */
  function LimitSet(s: State, op: Op, key: CounterKey): Option<(int, Time)> {
    match op
    case Reserve(c) =>
      if !s.closed && c.key == key && Earlier(s, c).None? && (key !in s.counters || ReserveOut(s, c).Given?)
      then Some((c.limit, c.resetAt)) else None
    case GetUsage(q) =>
      if !s.closed && q.key == key && key in s.counters then Some((q.limit, q.resetAt)) else None
    case _ => None
  }

  ghost function LastLimit(st: seq<State>, ops: seq<Op>, k: nat, key: CounterKey): Option<(int, Time)>
    requires |st| == |ops| + 1 && k <= |ops|
  {
    if k == 0 then None
    else
      var now := LimitSet(st[k - 1], ops[k - 1], key);
      if now.Some? then now else LastLimit(st, ops, k - 1, key)
  }

  lemma LimitStep(s: State, op: Op, key: CounterKey, last: Option<(int, Time)>)
    requires Inv(s) && Legal(s, op) && key in Apply(s, op).counters
    requires key in s.counters ==> Some((s.counters[key].limit, s.counters[key].resetAt)) == last
    ensures var counter, now := Apply(s, op).counters[key], LimitSet(s, op, key);
            Some((counter.limit, counter.resetAt)) == if now.Some? then now else last
  {
  }

  /** A counter has the limit and reset time of the latest grant or query that reached it, or of its creation. */
  lemma {:induction false} LimitsAreTheLatest(st: seq<State>, ops: seq<Op>, k: nat, key: CounterKey)
    requires Run(st, ops) && k <= |ops| && key in st[k].counters
    ensures Some((st[k].counters[key].limit, st[k].counters[key].resetAt)) == LastLimit(st, ops, k, key)
  {
    if k == 0 {
    } else {
      DictionariesAgree(st, ops, k - 1);
      if key in st[k - 1].counters { LimitsAreTheLatest(st, ops, k - 1, key); }
      LimitStep(st[k - 1], ops[k - 1], key, LastLimit(st, ops, k - 1, key));
    }
  }

  /** Closing forgets everything, and a closed store answers nothing else for good. */
  lemma {:induction false} ClosedForGood(st: seq<State>, ops: seq<Op>, i: nat, k: nat)
    requires Run(st, ops) && i < k <= |ops| && ops[i].Close?
    ensures st[k] == State(map[], map[], map[], true)
    ensures k < |ops| && !ops[k].Close? ==> Respond(st[k], ops[k]) == StoreClosed
    decreases k
  {
    assert st[k] == Apply(st[k - 1], ops[k - 1]);
    if k == i + 1 {
    } else {
      ClosedForGood(st, ops, i, k - 1);
    }
  }

  // ----- the store: each method is the matching transition, which keeps `Inv` by `InvStep` -----

  class MemoryQuotaStore {
    var counters: map<CounterKey, Counter>
    var reservations: map<Id, Reservation>
    var idempotency: map<IdempotencyKey, Id>
    var closed: bool

    function View(): State
      reads this
    {
      State(counters, reservations, idempotency, closed)
    }

    constructor ()
      ensures View() == EMPTY
    {
      counters, reservations, idempotency, closed := map[], map[], map[], false;
    }

    method Reserve(c: Command) returns (r: Outcome)
      requires WellFormed(c)
      modifies this
      ensures View() == ReserveIn(old(View()), c) && r == ReserveOut(old(View()), c)
    {
      if closed { return StoreClosed; }
      if c.idempotencyKey.Some? {
        var key := IdempotencyKey(c.key, c.idempotencyKey.value);
        if key in idempotency {
          if idempotency[key] !in reservations { return NotFound; }
          return Replayed(reservations[idempotency[key]]);
        }
      }
      if c.key !in counters {
        counters := counters[c.key := Counter(0, c.limit, c.resetAt)];
      }
      if counters[c.key].used + c.cost > c.limit { return OverLimit; }
      counters := counters[c.key := Counter(counters[c.key].used + c.cost, c.limit, c.resetAt)];
      var reservation := Reservation(c.id, c.key, c.cost, Reserved, UsageOf(c.key, counters[c.key]), c.idempotencyKey);
      reservations := reservations[c.id := reservation];
      if c.idempotencyKey.Some? {
        idempotency := idempotency[IdempotencyKey(c.key, c.idempotencyKey.value) := c.id];
      }
      r := Given(reservation);
    }

    method Finalize(id: Id) returns (r: Outcome)
      modifies this`reservations
      ensures View() == FinalizeIn(old(View()), id) && r == FinalizeOut(old(View()), id)
    {
      if closed { return StoreClosed; }
      if id !in reservations { return NotFound; }
      var reservation := reservations[id];
      if reservation.status == Refunded { return NotAllowed; }
      if reservation.status != Reserved { return Snapshot(reservation.usage); }
      if reservation.key !in counters { return NotFound; }
      var usage := UsageOf(reservation.key, counters[reservation.key]);
      reservations := reservations[id := reservation.(status := Finalized, usage := usage)];
      r := Current(usage);
    }

    method Refund(id: Id) returns (r: Outcome)
      modifies this`reservations, this`counters
      ensures View() == RefundIn(old(View()), id) && r == RefundOut(old(View()), id)
    {
      if closed { return StoreClosed; }
      if id !in reservations { return NotFound; }
      var reservation := reservations[id];
      if reservation.status == Finalized { return NotAllowed; }
      if reservation.status == Refunded { return Snapshot(reservation.usage); }
      if reservation.key !in counters { return NotFound; }
      var counter := counters[reservation.key];
      counter := counter.(used := Max(counter.used - reservation.cost, 0));
      counters := counters[reservation.key := counter];
      var usage := UsageOf(reservation.key, counter);
      reservations := reservations[id := reservation.(status := Refunded, usage := usage)];
      r := Current(usage);
    }

    method GetUsage(q: Query) returns (r: Outcome)
      modifies this`counters
      ensures View() == GetUsageIn(old(View()), q) && r == GetUsageOut(old(View()), q)
    {
      if closed { return StoreClosed; }
      if q.key !in counters { return Current(NoUsage(q)); }
      counters := counters[q.key := counters[q.key].(limit := q.limit, resetAt := q.resetAt)];
      r := Current(UsageOf(q.key, counters[q.key]));
    }

    method Reset(subject: Option<string>, resource: string) returns (open: bool)
      modifies this
      ensures open == !old(closed)
      ensures View() == ResetIn(old(View()), subject, resource)
    {
      open := !closed;
      if closed { return; }
      counters := map k | k in counters && Spared(k, subject, resource) :: counters[k];
      reservations :=
        map id | id in reservations && Spared(reservations[id].key, subject, resource) :: reservations[id];
      idempotency := map k | k in idempotency && Spared(k.counter, subject, resource) :: idempotency[k];
    }
  }
}
