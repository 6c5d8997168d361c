/**
 * The Postgres store: insert the reservation, charge the counter under a condition, delete
 * the reservation again when that is refused, all in one transaction. It does to the two
 * tables what the in-memory store does to its dictionaries.
 */
module QuotaPostgres {
  import opened Prelude
  import opened QuotaModels
  import M = QuotaMemory

  datatype Row = Row(key: CounterKey, cost: int, status: Status, idempotencyKey: Option<string>, resetAt: Time)

  type Counters = map<CounterKey, Counter>
  type Rows = map<Id, Row>

  predicate Matches(row: Row, c: Command) {
    c.idempotencyKey.Some? && row.key == c.key && row.idempotencyKey == c.idempotencyKey
  }

  ghost predicate SameReservation(r: Reservation, row: Row) {
    r.key == row.key && r.cost == row.cost && r.status == row.status && r.idempotencyKey == row.idempotencyKey
  }

  datatype Tables = Tables(counters: Counters, rows: Rows)

  /** Equal usage per counter and equal reservations; stored limits, reset times and snapshots may differ. */
  ghost predicate Agrees(m: M.State, t: Tables) {
    && !m.closed
    && m.counters.Keys == t.counters.Keys
    && (forall k :: k in t.counters ==> m.counters[k].used == t.counters[k].used)
    && m.reservations.Keys == t.rows.Keys
    && (forall id :: id in t.rows ==> SameReservation(m.reservations[id], t.rows[id]))
  }

  /**
   * The caller learns the same: the same grant or refusal, reservation, status and error, and
   * the same usage whenever the command took effect. A replay shows the usage stored with the
   * reservation in one store and that of the counter in the other.
   */
  ghost predicate SameOutcome(a: Outcome, b: Outcome) {
    match (a, b)
    case (Given(r), Given(r')) =>
      r' == r.(usage := r'.usage) && r'.usage.key == r.usage.key && r'.usage.used == r.usage.used
    case (Replayed(r), Replayed(r')) => r' == r.(usage := r'.usage)
    case (Current(u), Current(u')) => u.key == u'.key && u.used == u'.used
    case (Snapshot(u), Snapshot(u')) => u.key == u'.key
    case _ => a == b
  }

  // ----- the transactions -----

  function UsageIn(t: Tables, key: CounterKey): Usage
    requires key in t.counters
  {
    UsageOf(key, t.counters[key])
  }

  /** A stored row with the usage of its counter. */
  function ReservationAt(t: Tables, id: Id): Reservation
    requires id in t.rows && t.rows[id].key in t.counters
  {
    var row := t.rows[id];
    Reservation(id, row.key, row.cost, row.status, UsageIn(t, row.key), row.idempotencyKey)
  }

  /** The answer to a retry; a missing counter row raises. */
  function Replay(t: Tables, id: Id): Outcome
    requires id in t.rows
  {
    if t.rows[id].key !in t.counters then NotFound else Replayed(ReservationAt(t, id))
  }

  /** The upsert that precedes every insert. */
  function Ensured(counters: Counters, c: Command): Counters {
    counters[c.key := Counter(if c.key in counters then counters[c.key].used else 0, c.limit, c.resetAt)]
  }

  /** `found` is a right answer to the lookup by idempotency key. */
  ghost predicate IsLookup(rows: Rows, c: Command, found: Option<Id>) {
    match found
    case Some(id) => id in rows && Matches(rows[id], c)
    case None => forall id :: id in rows ==> !Matches(rows[id], c)
  }

  /** The tables after a reserve transaction; `missed` means the first lookup ran too early to see `found`. */
  ghost function ReserveIn(t: Tables, c: Command, found: Option<Id>, missed: bool): Tables {
    var counters := Ensured(t.counters, c);
    if found.Some? then (if missed then t.(counters := counters) else t)
    else if c.id in t.rows then t  // raised and rolled back
    else if counters[c.key].used + c.cost > c.limit then t.(counters := counters)
    else Tables(counters[c.key := Counter(counters[c.key].used + c.cost, c.limit, c.resetAt)],
                t.rows[c.id := Row(c.key, c.cost, Reserved, c.idempotencyKey, c.resetAt)])
  }

  ghost function ReserveOut(t: Tables, c: Command, found: Option<Id>, missed: bool): Outcome
    requires IsLookup(t.rows, c, found)
  {
    var t' := ReserveIn(t, c, found, missed);
    if found.Some? then Replay(t', found.value)
    else if c.id in t.rows then Conflict
    else if c.id !in t'.rows then OverLimit
    else Given(ReservationAt(t', c.id))
  }

  function FinalizeIn(t: Tables, id: Id): Tables {
    if id in t.rows && t.rows[id].status == Reserved && t.rows[id].key in t.counters
    then t.(rows := t.rows[id := t.rows[id].(status := Finalized)]) else t
  }

  function FinalizeOut(t: Tables, id: Id): Outcome {
    if id !in t.rows then NotFound
    else if t.rows[id].status == Refunded then NotAllowed
    else if t.rows[id].key !in t.counters then NotFound
    else if t.rows[id].status == Finalized then Snapshot(UsageIn(t, t.rows[id].key))
    else Current(UsageIn(t, t.rows[id].key))
  }

  function GivenBack(counter: Counter, cost: int): Counter {
    counter.(used := if counter.used >= cost then counter.used - cost else 0)
  }

  function RefundIn(t: Tables, id: Id): Tables {
    if id !in t.rows || t.rows[id].status != Reserved || t.rows[id].key !in t.counters then t
    else Tables(t.counters[t.rows[id].key := GivenBack(t.counters[t.rows[id].key], t.rows[id].cost)],
                t.rows[id := t.rows[id].(status := Refunded)])
  }

  function RefundOut(t: Tables, id: Id): Outcome {
    if id !in t.rows then NotFound
    else if t.rows[id].status == Finalized then NotAllowed
    else if t.rows[id].key !in t.counters then NotFound
    else if t.rows[id].status == Refunded then Snapshot(UsageIn(t, t.rows[id].key))
    else Current(UsageIn(RefundIn(t, id), t.rows[id].key))
  }

  function ResetIn(t: Tables, subject: Option<string>, resource: string): Tables {
    Tables(map k | k in t.counters && M.Spared(k, subject, resource) :: t.counters[k],
           map id | id in t.rows && M.Spared(t.rows[id].key, subject, resource) :: t.rows[id])
  }

  /**
   * What a reserve leaves of the limit and reset time: nothing changes for an early replay or
   * a taken id, which raises; otherwise the counter of the command takes them over, whatever
   * the outcome, and a granted row is stored with the command's.
   */
  lemma ReserveWrites(t: Tables, c: Command, found: Option<Id>, missed: bool)
    requires IsLookup(t.rows, c, found)
    ensures var t', out := ReserveIn(t, c, found, missed), ReserveOut(t, c, found, missed);
            if found.None? && c.id in t.rows then t' == t && out == Conflict
            else if found.Some? && !missed then t' == t
            else
              && c.key in t'.counters && t'.counters[c.key].limit == c.limit && t'.counters[c.key].resetAt == c.resetAt
              && (forall k :: k != c.key ==> (k in t'.counters <==> k in t.counters))
              && (forall k :: k != c.key && k in t.counters ==> t'.counters[k] == t.counters[k])
              && (if out.Given? then
                    t'.rows == t.rows[c.id := Row(c.key, c.cost, Reserved, c.idempotencyKey, c.resetAt)]
                  else t'.rows == t.rows)
  {
  }

  /** The usage is that of the counter as the transaction leaves it. */
  ghost predicate Fresh(t: Tables, u: Usage) {
    && u.key in t.counters && u.used == t.counters[u.key].used && u.limit == t.counters[u.key].limit
    && u.resetAt == t.counters[u.key].resetAt && u.remaining == Max(u.limit - u.used, 0)
  }

  /** Every usage this store reports is fresh, replays included. */
  lemma UsageIsFresh(t: Tables, id: Id, c: Command, found: Option<Id>, missed: bool)
    requires IsLookup(t.rows, c, found)
    ensures var out := FinalizeOut(t, id); out.Snapshot? || out.Current? ==> Fresh(FinalizeIn(t, id), out.usage)
    ensures var out := RefundOut(t, id); out.Snapshot? || out.Current? ==> Fresh(RefundIn(t, id), out.usage)
    ensures var out := ReserveOut(t, c, found, missed);
            out.Given? || out.Replayed? ==> Fresh(ReserveIn(t, c, found, missed), out.reservation.usage)
  {
  }

  // ----- each transaction refines the in-memory operation -----

  lemma LookupIsIndex(m: M.State, t: Tables, c: Command, found: Option<Id>)
    requires M.Links(m) && Agrees(m, t) && IsLookup(t.rows, c, found)
    ensures M.Earlier(m, c) == found
  {
    match found
    case Some(id) => assert SameReservation(m.reservations[id], t.rows[id]);
    case None =>
  }

  lemma ReserveAgrees(m: M.State, t: Tables, c: Command, found: Option<Id>, missed: bool)
    requires M.Links(m) && Agrees(m, t) && IsLookup(t.rows, c, found) && (c.id !in t.rows || found.Some?)
    ensures Agrees(M.ReserveIn(m, c), ReserveIn(t, c, found, missed))
  {
    LookupIsIndex(m, t, c, found);
  }

  lemma ReserveAnswers(m: M.State, t: Tables, c: Command, found: Option<Id>, missed: bool)
    requires M.Links(m) && Agrees(m, t) && IsLookup(t.rows, c, found) && (c.id !in t.rows || found.Some?)
    ensures SameOutcome(M.ReserveOut(m, c), ReserveOut(t, c, found, missed))
  {
    LookupIsIndex(m, t, c, found);
    if found.Some? { assert SameReservation(m.reservations[found.value], t.rows[found.value]); }
  }

  /**
   * Insert, charge conditionally, delete on refusal: with a fresh reservation id this grants,
   * refuses and replays exactly as the check-then-charge under the lock.
   */
  lemma ReserveRefines(m: M.State, t: Tables, c: Command, found: Option<Id>, missed: bool)
    requires M.Links(m) && Agrees(m, t) && IsLookup(t.rows, c, found) && (c.id !in t.rows || found.Some?)
    ensures Agrees(M.ReserveIn(m, c), ReserveIn(t, c, found, missed))
    ensures SameOutcome(M.ReserveOut(m, c), ReserveOut(t, c, found, missed))
  {
    ReserveAgrees(m, t, c, found, missed);
    ReserveAnswers(m, t, c, found, missed);
  }

  lemma FinalizeRefines(m: M.State, t: Tables, id: Id)
    requires M.Links(m) && Agrees(m, t)
    ensures Agrees(M.FinalizeIn(m, id), FinalizeIn(t, id)) && SameOutcome(M.FinalizeOut(m, id), FinalizeOut(t, id))
  {
    if id in t.rows {
      assert SameReservation(m.reservations[id], t.rows[id]);
    }
  }

  lemma RefundRefines(m: M.State, t: Tables, id: Id)
    requires M.Links(m) && Agrees(m, t)
    ensures Agrees(M.RefundIn(m, id), RefundIn(t, id)) && SameOutcome(M.RefundOut(m, id), RefundOut(t, id))
  {
    if id in t.rows {
      assert SameReservation(m.reservations[id], t.rows[id]);
    }
  }

  lemma ResetRefines(m: M.State, t: Tables, subject: Option<string>, resource: string)
    requires Agrees(m, t)
    ensures Agrees(M.ResetIn(m, subject, resource), ResetIn(t, subject, resource))
  {
    forall id | id in t.rows ensures m.reservations[id].key == t.rows[id].key {
      assert SameReservation(m.reservations[id], t.rows[id]);
    }
  }

  // ----- the store -----

  class PostgresQuotaStore {
    var counters: Counters
    var rows: Rows

    function View(): Tables
      reads this
    {
      Tables(counters, rows)
    }

    constructor ()
      ensures counters == map[] && rows == map[]
    {
      counters, rows := map[], map[];
    }

    method FindIdempotent(c: Command) returns (r: Option<Id>)
      ensures IsLookup(rows, c, r)
    {
      if id :| id in rows && Matches(rows[id], c) {
        r := Some(id);
      } else {
        r := None;
      }
    }

    /** One transaction, statement by statement; `found` is what the lookups return. */
    method Reserve(c: Command, missed: bool) returns (r: Outcome, ghost found: Option<Id>)
      modifies this
      ensures IsLookup(old(rows), c, found)
      ensures View() == ReserveIn(old(View()), c, found, missed) && r == ReserveOut(old(View()), c, found, missed)
    {
      var existing := FindIdempotent(c);
      found := existing;
      if existing.Some? && !missed { return Replay(View(), existing.value), found; }
      var before := counters;
      counters := Ensured(counters, c);
      if existing.Some? || c.id in rows {
        // the insert did nothing: a concurrent request won, or the id is taken
        if existing.None? {
          counters := before;
          return Conflict, found;
        }
        return Replay(View(), existing.value), found;
      }
      rows := rows[c.id := Row(c.key, c.cost, Reserved, c.idempotencyKey, c.resetAt)];
      if counters[c.key].used + c.cost > c.limit {
        rows := rows - {c.id};
        assert rows == old(rows);
        return OverLimit, found;
      }
      counters := counters[c.key := Counter(counters[c.key].used + c.cost, c.limit, c.resetAt)];
      r := Given(Reservation(c.id, c.key, c.cost, Reserved, UsageOf(c.key, counters[c.key]), c.idempotencyKey));
    }

    /** The conditional update `reserved` -> `status`; says whether it matched. */
    method ClaimReserved(id: Id, status: Status) returns (claimed: bool)
      modifies this`rows
      ensures claimed <==> id in old(rows) && old(rows)[id].status == Reserved
      ensures rows == if claimed then old(rows)[id := old(rows)[id].(status := status)] else old(rows)
    {
      claimed := id in rows && rows[id].status == Reserved;
      if claimed { rows := rows[id := rows[id].(status := status)]; }
    }

    method Finalize(id: Id) returns (r: Outcome)
      modifies this`rows
      ensures View() == FinalizeIn(old(View()), id) && r == FinalizeOut(old(View()), id)
    {
      var claimed := ClaimReserved(id, Finalized);
      if id !in rows { return NotFound; }
      if !claimed && rows[id].status == Refunded { return NotAllowed; }
      if rows[id].key !in counters {
        // no counter row comes back: raise and roll back
        if claimed { rows := rows[id := rows[id].(status := Reserved)]; }
        assert rows == old(rows);
        return NotFound;
      }
      r := if claimed then Current(UsageIn(View(), rows[id].key)) else Snapshot(UsageIn(View(), rows[id].key));
    }

    method Refund(id: Id) returns (r: Outcome)
      modifies this
      ensures View() == RefundIn(old(View()), id) && r == RefundOut(old(View()), id)
    {
      ghost var was := rows;
      var claimed := ClaimReserved(id, Refunded);
      if !claimed {
        if id !in rows { return NotFound; }
        if rows[id].status == Finalized { return NotAllowed; }
        if rows[id].key !in counters { return NotFound; }
        return Snapshot(UsageIn(View(), rows[id].key));
      }
      var key, cost := rows[id].key, rows[id].cost;
      if key !in counters {
        // no counter row comes back: raise and roll back
        rows := rows[id := rows[id].(status := Reserved)];
        assert rows == was;
        return NotFound;
      }
      counters := counters[key := GivenBack(counters[key], cost)];
      r := Current(UsageIn(View(), key));
    }

    method GetUsage(q: Query) returns (r: Outcome)
      ensures r == Current(if q.key in counters then UsageOf(q.key, counters[q.key]) else NoUsage(q))
    {
      r := Current(if q.key in counters then UsageOf(q.key, counters[q.key]) else NoUsage(q));
    }

    method Reset(subject: Option<string>, resource: string)
      modifies this
      ensures View() == ResetIn(old(View()), subject, resource)
    {
      rows := map id | id in rows && M.Spared(rows[id].key, subject, resource) :: rows[id];
      counters := map k | k in counters && M.Spared(k, subject, resource) :: counters[k];
    }

    /** One command, answered as the in-memory store in a state `m` that agrees would answer it. */
    method Execute(op: M.Op, missed: bool, ghost m: M.State) returns (r: Outcome)
      requires M.Links(m) && M.Legal(m, op) && !op.Close? && Agrees(m, View())
      modifies this
      ensures Agrees(M.Apply(m, op), View()) && SameOutcome(M.Respond(m, op), r)
    {
      ghost var t := View();
      match op
      case Reserve(c) =>
        ghost var found;
        r, found := Reserve(c, missed);
        ReserveRefines(m, t, c, found, missed);
      case Finalize(id) => r := Finalize(id); FinalizeRefines(m, t, id);
      case Refund(id) => r := Refund(id); RefundRefines(m, t, id);
      case GetUsage(q) => r := GetUsage(q);
      case ResetUsage(q) =>
        Reset(Some(q.key.subject), q.key.resource);
        ResetRefines(m, t, Some(q.key.subject), q.key.resource);
        r := Current(NoUsage(q));
      case ResetResource(resource) =>
        Reset(None, resource);
        ResetRefines(m, t, None, resource);
        r := Nothing;
    }
  }

  /** The next command of a run meets what a single command asks for. */
  lemma NextCommand(st: seq<M.State>, ops: seq<M.Op>, k: nat)
    requires M.Run(st, ops) && k < |ops|
    ensures M.Links(st[k]) && M.Legal(st[k], ops[k]) && st[k + 1] == M.Apply(st[k], ops[k])
  {
    M.DictionariesAgree(st, ops, k);
  }

  /** The answer is the one the in-memory store gives in that state. */
  ghost predicate AnswersAs(m: M.State, op: M.Op, r: Outcome) { SameOutcome(M.Respond(m, op), r) }

  method ExecuteNext(store: PostgresQuotaStore, ops: seq<M.Op>, k: nat, missed: bool, ghost st: seq<M.State>)
    returns (r: Outcome)
    requires M.Run(st, ops) && k < |ops| && !ops[k].Close? && Agrees(st[k], store.View())
    modifies store
    ensures Agrees(st[k + 1], store.View()) && AnswersAs(st[k], ops[k], r)
  {
    NextCommand(st, ops, k);
    r := store.Execute(ops[k], missed, st[k]);
  }

  /**
   * Refinement over whole runs: for every sequence of commands and every pattern of missed
   * first lookups, the transactions give the answers of the in-memory store, command by
   * command, and end with the same usage and the same reservations.
   */
  method RefinesMemory(ops: seq<M.Op>, missed: seq<bool>, ghost st: seq<M.State>)
    returns (store: PostgresQuotaStore, answers: seq<Outcome>)
    requires M.Run(st, ops) && |missed| == |ops| && forall i :: 0 <= i < |ops| ==> !ops[i].Close?
    ensures fresh(store) && |answers| == |ops|
    ensures forall i :: 0 <= i < |ops| ==> AnswersAs(st[i], ops[i], answers[i])
    ensures Agrees(st[|ops|], store.View())
  {
    store := new PostgresQuotaStore();
    answers := [];
    for k := 0 to |ops|
      invariant |answers| == k && fresh(store)
      invariant Agrees(st[k], store.View())
      invariant forall i :: 0 <= i < k ==> AnswersAs(st[i], ops[i], answers[i])
    {
      var r := ExecuteNext(store, ops, k, missed[k], st);
      answers := answers + [r];
    }
  }
}
