/**
 * The task table: what a claim, a completion, a reclaim and a purge do to a row,
 * and what holds over every run of such steps. One run covers every store with
 * atomic steps, since a reclaim or purge may settle any batch of eligible rows.
 */
module Tasks {
  import opened Prelude

  type Id = string

  datatype Status = Queued | Processing | Completed | Failed

  datatype Task = Task(
    kind: string,
    requestId: Option<string>,
    status: Status,
    attempts: nat,
    lockedUntil: Option<Time>,
    expiresAt: Time,
    result: Option<string>,
    error: Option<string>)

  type Table = map<Id, Task>

  const MAX_ATTEMPTS_EXCEEDED := "max_attempts_exceeded"

  predicate Terminal(t: Task) { t.status == Completed || t.status == Failed }

  predicate LeaseExpired(t: Task, now: Time) {
    t.status == Processing && t.lockedUntil.Some? && t.lockedUntil.value <= now
  }

  predicate Claimable(t: Task, now: Time) { t.status == Queued || LeaseExpired(t, now) }

  function NewTask(kind: string, requestId: Option<string>, expiresAt: Time): Task {
    Task(kind, requestId, Queued, 0, None, expiresAt, None, None)
  }

  function Claimed(t: Task, now: Time, lease: Time): Task {
    t.(status := Processing, attempts := t.attempts + 1, lockedUntil := Some(now + lease))
  }

  /** The unfenced terminal write: a missing result or error leaves the stored one in place. */
  function Settled(t: Task, status: Status, result: Option<string>, error: Option<string>): Task {
    t.(status := status,
       lockedUntil := None,
       result := if result.Some? then result else t.result,
       error := if error.Some? then error else t.error)
  }

  function Reclaimed(t: Task, maxAttempts: int): Task {
    if t.attempts >= maxAttempts
    then t.(status := Failed, error := Some(MAX_ATTEMPTS_EXCEEDED), lockedUntil := None)
    else t.(status := Queued, lockedUntil := None)
  }

  function ReclaimAll(s: Table, ids: set<Id>, maxAttempts: int): Table {
    map id | id in s :: if id in ids then Reclaimed(s[id], maxAttempts) else s[id]
  }

  // ----- runs -----

  datatype Op =
    | Submit(id: Id, now: Time, kind: string, requestId: Option<string>, expiresAt: Time)
    | Claim(id: Id, now: Time, lease: Time)
    | Complete(id: Id, now: Time, result: string)
    | Fail(id: Id, now: Time, error: string)
    | Reclaim(ids: set<Id>, now: Time, maxAttempts: int)
    | Purge(ids: set<Id>, now: Time)

  /** What a caller and the row selection guarantee about a step. */
  predicate Legal(s: Table, op: Op) {
    match op
    case Claim(_, _, lease) => lease > 0.0
    case Reclaim(ids, now, _) => forall id :: id in ids ==> id in s && LeaseExpired(s[id], now)
    case Purge(ids, now) => forall id :: id in ids ==> id in s && s[id].expiresAt <= now
    case _ => true
  }

  predicate Granted(s: Table, op: Op) { op.Claim? && op.id in s && Claimable(s[op.id], op.now) }

  predicate Creates(s: Table, op: Op) { op.Submit? && op.id !in s }

  function Apply(s: Table, op: Op): Table {
    match op
    case Submit(id, _, kind, requestId, expiresAt) =>
      if id in s then s else s[id := NewTask(kind, requestId, expiresAt)]
    case Claim(id, now, lease) => if Granted(s, op) then s[id := Claimed(s[id], now, lease)] else s
    case Complete(id, _, result) => if id in s then s[id := Settled(s[id], Completed, Some(result), None)] else s
    case Fail(id, _, error) => if id in s then s[id := Settled(s[id], Failed, None, Some(error))] else s
    case Reclaim(ids, _, maxAttempts) => ReclaimAll(s, ids, maxAttempts)
    case Purge(ids, _) => s - ids
  }

  ghost predicate Step(s: Table, op: Op, s': Table) { Legal(s, op) && s' == Apply(s, op) }

  /** `st[i]` is the table before the `i`-th step. */
  ghost predicate Run(st: seq<Table>, ops: seq<Op>) {
    |st| == |ops| + 1 && forall i {:trigger ops[i]} :: 0 <= i < |ops| ==> Step(st[i], ops[i], st[i + 1])
  }

  ghost predicate ClockAdvances(ops: seq<Op>) {
    forall i, j :: 0 <= i <= j < |ops| ==> ops[i].now <= ops[j].now
  }

  /** A new row for `id` was created between `i` and `k`; a submit that finds the id taken creates none. */
  ghost predicate Recreated(st: seq<Table>, ops: seq<Op>, i: nat, k: nat, id: Id)
    requires |st| == |ops| + 1 && k <= |ops|
  {
    exists m :: i <= m < k && Creates(st[m], ops[m]) && ops[m].id == id
  }

  // ----- two claims of one task are a lease apart -----

  /** Nobody can claim `t` before `deadline`: it is over, leased past it, or the time has come. */
  ghost predicate Fenced(t: Task, deadline: Time, now: Time) {
    || Terminal(t)
    || (t.status == Processing && t.lockedUntil.Some? && deadline <= t.lockedUntil.value)
    || deadline <= now
  }

  lemma FencedStep(s: Table, op: Op, s': Table, id: Id, deadline: Time, now: Time)
    requires Step(s, op, s') && now <= op.now && !(Creates(s, op) && op.id == id)
    requires id in s ==> Fenced(s[id], deadline, now)
    ensures id in s' ==> id in s && Fenced(s'[id], deadline, op.now)
  {
  }

  lemma {:induction false} FencedUntil(st: seq<Table>, ops: seq<Op>, i: nat, k: nat)
    requires Run(st, ops) && ClockAdvances(ops) && i < k <= |ops|
    requires Granted(st[i], ops[i]) && !Recreated(st, ops, i, k, ops[i].id)
    ensures ops[i].id in st[k] ==> Fenced(st[k][ops[i].id], ops[i].now + ops[i].lease, ops[k - 1].now)
  {
    if i + 1 == k {
    } else {
      FencedUntil(st, ops, i, k - 1);
      FencedStep(st[k - 1], ops[k - 1], st[k], ops[i].id, ops[i].now + ops[i].lease, ops[k - 2].now);
    }
  }

  /**
   * Mutual exclusion in time: whatever redeliveries, takeovers, reclaims and late
   * completions come between, the next granted claim of the same task comes no
   * earlier than the end of the previous claim's lease.
   */
  lemma ClaimsAreLeaseApart(st: seq<Table>, ops: seq<Op>, i: nat, j: nat)
    requires Run(st, ops) && ClockAdvances(ops) && i < j < |ops|
    requires Granted(st[i], ops[i]) && Granted(st[j], ops[j]) && ops[i].id == ops[j].id
    requires !Recreated(st, ops, i, j, ops[i].id)
    ensures ops[i].now + ops[i].lease <= ops[j].now
  {
    FencedUntil(st, ops, i, j);
  }

  /** The bound is exact: a takeover is granted from the moment the lease has run out, and not before. */
  lemma TakeoverAtExpiry(s: Table, id: Id, now: Time, lease: Time, later: Time, lease': Time)
    requires id in s && Claimable(s[id], now)
    ensures Granted(Apply(s, Claim(id, now, lease)), Claim(id, later, lease')) <==> now + lease <= later
  {
    assert Granted(s, Claim(id, now, lease));
  }

  // ----- lifecycle -----

  /** Granted claims of `id` since its row was created. */
  ghost function Claims(st: seq<Table>, ops: seq<Op>, k: nat, id: Id): nat
    requires |st| == |ops| + 1 && k <= |ops|
  {
    if k == 0 then 0
    else if Creates(st[k - 1], ops[k - 1]) && ops[k - 1].id == id then 0
    else Claims(st, ops, k - 1, id) + if Granted(st[k - 1], ops[k - 1]) && ops[k - 1].id == id then 1 else 0
  }

  ghost predicate Lifecycle(t: Task, claims: nat, maxAttempts: int) {
    && (t.status == Processing <==> t.lockedUntil.Some?)
    && t.attempts == claims
    && (t.status == Queued ==> t.attempts < maxAttempts)
  }

  /**
   * From submitted tasks and one attempt limit: the lease is set exactly while a task
   * is processing, attempts counts its granted claims, and a queued task has one left.
   */
  lemma {:induction false} LifecycleHolds(st: seq<Table>, ops: seq<Op>, k: nat, maxAttempts: int)
    requires Run(st, ops) && k <= |ops| && st[0] == map[] && maxAttempts >= 1
    requires forall i :: 0 <= i < |ops| && ops[i].Reclaim? ==> ops[i].maxAttempts == maxAttempts
    ensures forall id :: id in st[k] ==> Lifecycle(st[k][id], Claims(st, ops, k, id), maxAttempts)
  {
    if k == 0 {
    } else {
      LifecycleHolds(st, ops, k - 1, maxAttempts);
      assert Step(st[k - 1], ops[k - 1], st[k]);
    }
  }

  // ----- how a task ends -----

  /** What a step writes to the row `id` that tells how its task ended. */
  datatype Write = Nothing | Created | Succeeded(result: string) | Broke(error: string)

  ghost function WriteTo(s: Table, op: Op, id: Id): Write {
    if Creates(s, op) && op.id == id then Created
    else if id !in s then Nothing
    else
      match op
      case Complete(x, _, result) => if x == id then Succeeded(result) else Nothing
      case Fail(x, _, error) => if x == id then Broke(error) else Nothing
      case Reclaim(ids, _, maxAttempts) =>
        if id in ids && s[id].attempts >= maxAttempts then Broke(MAX_ATTEMPTS_EXCEEDED) else Nothing
      case _ => Nothing
  }

  /** The latest write of that kind. */
  ghost function LastWrite(st: seq<Table>, ops: seq<Op>, k: nat, id: Id): Write
    requires |st| == |ops| + 1 && k <= |ops|
  {
    if k == 0 then Nothing
    else
      var w := WriteTo(st[k - 1], ops[k - 1], id);
      if w.Nothing? then LastWrite(st, ops, k - 1, id) else w
  }

  /** The result of the latest success since the row was created. */
  ghost function LastResult(st: seq<Table>, ops: seq<Op>, k: nat, id: Id): Option<string>
    requires |st| == |ops| + 1 && k <= |ops|
  {
    if k == 0 then None
    else
      match WriteTo(st[k - 1], ops[k - 1], id)
      case Created => None
      case Succeeded(result) => Some(result)
      case _ => LastResult(st, ops, k - 1, id)
  }

  /** The error of the latest failure since the row was created. */
  ghost function LastFailure(st: seq<Table>, ops: seq<Op>, k: nat, id: Id): Option<string>
    requires |st| == |ops| + 1 && k <= |ops|
  {
    if k == 0 then None
    else
      match WriteTo(st[k - 1], ops[k - 1], id)
      case Created => None
      case Broke(error) => Some(error)
      case _ => LastFailure(st, ops, k - 1, id)
  }

  /** The row ended as `w` says, and keeps the latest result and error. */
  ghost predicate Ended(t: Task, w: Write, result: Option<string>, error: Option<string>) {
    && (t.status == Completed <==> w.Succeeded?) && (t.status == Failed <==> w.Broke?)
    && t.result == result && t.error == error
  }

  /** A completion completes and a failure fails, and each leaves what the other wrote. */
  lemma SettlingSettles(s: Table, op: Op, s': Table)
    requires Step(s, op, s') && (op.Complete? || op.Fail?) && op.id in s
    ensures op.id in s' && s'[op.id].lockedUntil == None && s'[op.id].attempts == s[op.id].attempts
    ensures op.Complete? ==>
              s'[op.id].status == Completed && s'[op.id].result == Some(op.result) && s'[op.id].error == s[op.id].error
    ensures op.Fail? ==>
              s'[op.id].status == Failed && s'[op.id].error == Some(op.error) && s'[op.id].result == s[op.id].result
  {
  }

  /** One step keeps a row in line with the latest writes. */
  lemma EndedStep(s: Table, op: Op, s': Table, id: Id, w: Write, result: Option<string>, error: Option<string>)
    requires Step(s, op, s') && id in s' && (id in s ==> Ended(s[id], w, result, error))
    ensures var v := WriteTo(s, op, id);
            Ended(s'[id], if v.Nothing? then w else v,
                  if v.Created? then None else if v.Succeeded? then Some(v.result) else result,
                  if v.Created? then None else if v.Broke? then Some(v.error) else error)
  {
  }

  /**
   * A task is completed exactly if the latest of its completions, failures and exhausted
   * reclaims was a completion, and failed exactly if it was one of the others. Its result is
   * that of the latest completion and its error that of the latest failure.
   */
  lemma {:induction false} EndsAsLastWritten(st: seq<Table>, ops: seq<Op>, k: nat, id: Id)
    requires Run(st, ops) && k <= |ops| && st[0] == map[] && id in st[k]
    ensures st[k][id].status == Completed <==> LastWrite(st, ops, k, id).Succeeded?
    ensures st[k][id].status == Failed <==> LastWrite(st, ops, k, id).Broke?
    ensures st[k][id].result == LastResult(st, ops, k, id) && st[k][id].error == LastFailure(st, ops, k, id)
  {
    if k == 0 {
    } else {
      if id in st[k - 1] { EndsAsLastWritten(st, ops, k - 1, id); }
      EndedStep(st[k - 1], ops[k - 1], st[k], id,
                LastWrite(st, ops, k - 1, id), LastResult(st, ops, k - 1, id), LastFailure(st, ops, k - 1, id));
    }
  }

  lemma StaysAsSubmitted(s: Table, op: Op, s': Table, id: Id)
    requires Step(s, op, s') && id in s' && !(Creates(s, op) && op.id == id)
    ensures id in s && s'[id].kind == s[id].kind && s'[id].requestId == s[id].requestId
    ensures s'[id].expiresAt == s[id].expiresAt
  {
  }

  lemma CreatedAsSubmitted(s: Table, op: Op, s': Table)
    requires Step(s, op, s') && Creates(s, op)
    ensures op.id in s' && s'[op.id].kind == op.kind && s'[op.id].requestId == op.requestId
    ensures s'[op.id].expiresAt == op.expiresAt
  {
  }

  /** Nothing else about a task ever changes: it is what its submit said. */
  lemma {:induction false} SubmittedOnce(st: seq<Table>, ops: seq<Op>, k: nat, id: Id) returns (m: nat)
    requires Run(st, ops) && k <= |ops| && st[0] == map[] && id in st[k]
    ensures m < k && Creates(st[m], ops[m]) && ops[m].id == id
    ensures st[k][id].kind == ops[m].kind && st[k][id].requestId == ops[m].requestId
    ensures st[k][id].expiresAt == ops[m].expiresAt
    ensures !Recreated(st, ops, m + 1, k, id)
  {
    assert k > 0 && Step(st[k - 1], ops[k - 1], st[k]);
    if Creates(st[k - 1], ops[k - 1]) && ops[k - 1].id == id {
      m := k - 1;
      CreatedAsSubmitted(st[k - 1], ops[k - 1], st[k]);
    } else {
      StaysAsSubmitted(st[k - 1], ops[k - 1], st[k], id);
      m := SubmittedOnce(st, ops, k - 1, id);
    }
  }

  /** Completed and failed are final: only deleting the row and submitting the id anew leaves them. */
  lemma {:induction false} TerminalIsFinal(st: seq<Table>, ops: seq<Op>, i: nat, k: nat, id: Id)
    requires Run(st, ops) && i <= k <= |ops|
    requires id in st[i] && Terminal(st[i][id]) && !Recreated(st, ops, i, k, id)
    ensures id in st[k] ==> Terminal(st[k][id])
  {
    if i == k {
    } else {
      TerminalIsFinal(st, ops, i, k - 1, id);
      assert Step(st[k - 1], ops[k - 1], st[k]);
    }
  }
}

/** The process-local store: a dictionary of task records, iterated in insertion order. */
module TaskMemory {
  import opened Prelude
  import opened Tasks

  datatype ClaimResult = BadLease | Missing | Refused | Won

  datatype Ref = Ref(id: Id, kind: string, requestId: Option<string>)

  /** How far one reclaim pass has come: the table, the settled rows and the requeued ones. */
  datatype Sweep = Sweep(table: Table, settled: seq<Id>, requeued: seq<Ref>)

  function RefOf(id: Id, t: Task): Ref { Ref(id, t.kind, t.requestId) }

  function Elems(ids: seq<Id>): set<Id> { set id | id in ids }

  ghost predicate Distinct(ids: seq<Id>) { forall i, j :: 0 <= i < j < |ids| ==> ids[i] != ids[j] }

  predicate Known(s: Table, ids: seq<Id>) { forall i :: 0 <= i < |ids| ==> ids[i] in s }

  /** The pass looks at one more row. */
  function SweepOne(w: Sweep, id: Id, now: Time, limit: int, maxAttempts: int): Sweep {
    if |w.settled| < limit && id in w.table && LeaseExpired(w.table[id], now)
    then
      var t := Reclaimed(w.table[id], maxAttempts);
      Sweep(w.table[id := t],
            w.settled + [id],
            if t.status == Queued then w.requeued + [RefOf(id, t)] else w.requeued)
    else w
  }

  /** The pass after it has looked at `order[..k]`. */
  function SweepTo(s: Table, order: seq<Id>, k: nat, now: Time, limit: int, maxAttempts: int): Sweep
    requires k <= |order|
  {
    if k == 0 then Sweep(s, [], [])
    else SweepOne(SweepTo(s, order, k - 1, now, limit, maxAttempts), order[k - 1], now, limit, maxAttempts)
  }

  /** Once the limit is reached the rest of the dictionary is left alone. */
  lemma {:induction false} SweepStops(s: Table, order: seq<Id>, k: nat, now: Time, limit: int, maxAttempts: int)
    requires k <= |order|
    requires |SweepTo(s, order, k, now, limit, maxAttempts).settled| >= limit || k == |order|
    ensures SweepTo(s, order, |order|, now, limit, maxAttempts) == SweepTo(s, order, k, now, limit, maxAttempts)
    decreases |order| - k
  {
    if k == |order| {
    } else {
      SweepStops(s, order, k + 1, now, limit, maxAttempts);
    }
  }

  /** The table with the rows `settled` reclaimed, row by row. */
  ghost predicate Settles(s: Table, settled: seq<Id>, maxAttempts: int, s': Table) {
    && s'.Keys == s.Keys
    && forall id :: id in s ==> s'[id] == if id in settled then Reclaimed(s[id], maxAttempts) else s[id]
  }

  ghost predicate AllExpired(s: Table, settled: seq<Id>, now: Time) {
    forall id :: id in settled ==> id in s && LeaseExpired(s[id], now)
  }

  lemma SettlesOneMore(s: Table, settled: seq<Id>, id: Id, maxAttempts: int, s': Table)
    requires Settles(s, settled, maxAttempts, s') && id in s && id !in settled
    ensures s'[id] == s[id] && Settles(s, settled + [id], maxAttempts, s'[id := Reclaimed(s[id], maxAttempts)])
  {
  }

  /** A pass settles expired rows among those it has seen, each once, and changes no other. */
  lemma {:induction false} SweepSettles(s: Table, order: seq<Id>, k: nat, now: Time, limit: nat, maxAttempts: int)
    requires k <= |order| && Known(s, order) && Distinct(order)
    ensures var w := SweepTo(s, order, k, now, limit, maxAttempts);
            && Settles(s, w.settled, maxAttempts, w.table)
            && AllExpired(s, w.settled, now) && Distinct(w.settled) && |w.settled| <= limit
            && (forall id :: id in w.settled ==> id in order[..k])
  {
    if k == 0 {
    } else {
      SweepSettles(s, order, k - 1, now, limit, maxAttempts);
      var w, id := SweepTo(s, order, k - 1, now, limit, maxAttempts), order[k - 1];
      assert order[..k] == order[..k - 1] + [id] && id !in order[..k - 1];
      SettlesOneMore(s, w.settled, id, maxAttempts, w.table);
    }
  }

  /** Below the limit it settles every expired row it has seen. */
  lemma {:induction false} SweepCovers(
    s: Table, order: seq<Id>, k: nat, now: Time, limit: nat, maxAttempts: int, j: nat)
    requires j < k <= |order| && Known(s, order) && Distinct(order) && LeaseExpired(s[order[j]], now)
    requires |SweepTo(s, order, k, now, limit, maxAttempts).settled| < limit
    ensures order[j] in SweepTo(s, order, k, now, limit, maxAttempts).settled
  {
    var w, id := SweepTo(s, order, k - 1, now, limit, maxAttempts), order[k - 1];
    if j == k - 1 {
      SweepSettles(s, order, k - 1, now, limit, maxAttempts);
      assert id !in order[..k - 1];
      SettlesOneMore(s, w.settled, id, maxAttempts, w.table);
    } else {
      SweepCovers(s, order, k - 1, now, limit, maxAttempts, j);
    }
  }

  /** The refs of those rows that have an attempt left. */
  ghost function Refs(s: Table, ids: seq<Id>, maxAttempts: int): seq<Ref>
    requires Known(s, ids)
  {
    if ids == [] then []
    else
      var rest, id := ids[..|ids| - 1], ids[|ids| - 1];
      Refs(s, rest, maxAttempts) + if s[id].attempts < maxAttempts then [RefOf(id, s[id])] else []
  }

  lemma RefsSnoc(s: Table, ids: seq<Id>, id: Id, maxAttempts: int)
    requires Known(s, ids) && id in s
    ensures Known(s, ids + [id])
    ensures Refs(s, ids + [id], maxAttempts)
         == Refs(s, ids, maxAttempts) + if s[id].attempts < maxAttempts then [RefOf(id, s[id])] else []
  {
    assert (ids + [id])[..|ids|] == ids;
  }

  /** The refs name no row twice and no row that is not among `ids`, and leave out none with an attempt left. */
  lemma {:induction false} RefsAreExact(s: Table, ids: seq<Id>, maxAttempts: int)
    requires Known(s, ids) && Distinct(ids)
    ensures var refs := Refs(s, ids, maxAttempts);
            && (forall id :: id in s ==> (RefOf(id, s[id]) in refs <==> id in ids && s[id].attempts < maxAttempts))
            && (forall r :: r in refs ==> r.id in s && r.id in ids && r == RefOf(r.id, s[r.id]))
            && (forall i, j :: 0 <= i < j < |refs| ==> refs[i].id != refs[j].id)
  {
    if ids == [] {
    } else {
      var rest, id := ids[..|ids| - 1], ids[|ids| - 1];
      RefsAreExact(s, rest, maxAttempts);
      assert ids == rest + [id] && id !in rest;
    }
  }

  lemma {:induction false} SweepLists(s: Table, order: seq<Id>, k: nat, now: Time, limit: nat, maxAttempts: int)
    requires k <= |order| && Known(s, order) && Distinct(order)
    ensures var w := SweepTo(s, order, k, now, limit, maxAttempts);
            Known(s, w.settled) && w.requeued == Refs(s, w.settled, maxAttempts)
  {
    if k == 0 {
    } else {
      SweepLists(s, order, k - 1, now, limit, maxAttempts);
      SweepSettles(s, order, k - 1, now, limit, maxAttempts);
      var w, id := SweepTo(s, order, k - 1, now, limit, maxAttempts), order[k - 1];
      assert id !in order[..k - 1];
      SettlesOneMore(s, w.settled, id, maxAttempts, w.table);
      RefsSnoc(s, w.settled, id, maxAttempts);
    }
  }

  /**
   * A whole in-memory reclaim is one legal `Reclaim` step of the run model. It settles at
   * most `limit` rows and leaves an expired lease behind only when it settled that many.
   */
  lemma ReclaimIsOneStep(s: Table, order: seq<Id>, now: Time, limit: nat, maxAttempts: int)
    requires Known(s, order) && Distinct(order) && forall id :: id in s ==> id in order
    ensures var w := SweepTo(s, order, |order|, now, limit, maxAttempts);
            && Step(s, Reclaim(Elems(w.settled), now, maxAttempts), w.table)
            && |w.settled| <= limit
            && (|w.settled| < limit ==> forall id :: id in w.table ==> !LeaseExpired(w.table[id], now))
  {
    SweepSettles(s, order, |order|, now, limit, maxAttempts);
    var w := SweepTo(s, order, |order|, now, limit, maxAttempts);
    assert w.table == ReclaimAll(s, Elems(w.settled), maxAttempts);
    forall id | |w.settled| < limit && id in w.table
      ensures !LeaseExpired(w.table[id], now)
    {
      if LeaseExpired(s[id], now) {
        var j :| 0 <= j < |order| && order[j] == id;
        SweepCovers(s, order, |order|, now, limit, maxAttempts, j);
      }
    }
  }

  /** The refs handed back for announcing are exactly those of the settled rows left queued, each once. */
  lemma ReclaimReturnsTheQueued(s: Table, order: seq<Id>, now: Time, limit: nat, maxAttempts: int)
    requires Known(s, order) && Distinct(order)
    ensures var w := SweepTo(s, order, |order|, now, limit, maxAttempts);
            && (forall id :: id in w.table ==>
                  (RefOf(id, w.table[id]) in w.requeued <==> id in w.settled && w.table[id].status == Queued))
            && (forall r :: r in w.requeued ==>
                  && r.id in w.table && r == RefOf(r.id, w.table[r.id])
                  && r.kind == w.table[r.id].kind && r.requestId == w.table[r.id].requestId)
            && (forall i, j :: 0 <= i < j < |w.requeued| ==> w.requeued[i].id != w.requeued[j].id)
  {
    var w := SweepTo(s, order, |order|, now, limit, maxAttempts);
    SweepSettles(s, order, |order|, now, limit, maxAttempts);
    SweepLists(s, order, |order|, now, limit, maxAttempts);
    RefsAreExact(s, w.settled, maxAttempts);
    forall id | id in w.table
      ensures RefOf(id, w.table[id]) == RefOf(id, s[id])
      ensures id in w.settled ==> (w.table[id].status == Queued <==> s[id].attempts < maxAttempts)
    {
    }
  }

  class InMemoryTaskStore {
    var tasks: map<Id, Task>
    var order: seq<Id>  // insertion order of the dictionary

    ghost predicate Valid()
      reads this
    {
      && (forall id :: id in order <==> id in tasks)
      && (forall i, j :: 0 <= i < j < |order| ==> order[i] != order[j])
    }

    constructor ()
      ensures Valid() && tasks == map[]
    {
      tasks, order := map[], [];
    }

    method Create(id: Id, task: Task) returns (ok: bool)
      requires Valid()
      modifies this
      ensures Valid()
      ensures ok <==> id !in old(tasks)
      ensures tasks == if ok then old(tasks)[id := task] else old(tasks)
    {
      ok := id !in tasks;
      if ok {
        tasks, order := tasks[id := task], order + [id];
      }
    }

    /** The compare-and-set claim; it is a `Claim` step of the run model whenever the lease is positive. */
    method MarkProcessing(id: Id, lease: Time, now: Time) returns (r: ClaimResult)
      requires Valid()
      modifies this`tasks
      ensures Valid()
      ensures r == BadLease <==> lease <= 0.0
      ensures r == BadLease ==> tasks == old(tasks)
      ensures lease > 0.0 ==> tasks == Apply(old(tasks), Claim(id, now, lease))
      ensures lease > 0.0 ==> (r == Won <==> Granted(old(tasks), Claim(id, now, lease)))
      ensures lease > 0.0 ==> (r == Missing <==> id !in old(tasks))
    {
      if lease <= 0.0 { return BadLease; }
      if id !in tasks { return Missing; }
      if !Claimable(tasks[id], now) { return Refused; }
      var t := tasks[id];
      t := t.(status := Processing);
      t := t.(attempts := t.attempts + 1);
      t := t.(lockedUntil := Some(now + lease));
      tasks := tasks[id := t];
      r := Won;
    }

    method MarkCompleted(id: Id, result: string, now: Time) returns (found: bool)
      requires Valid()
      modifies this`tasks
      ensures Valid()
      ensures found <==> id in old(tasks)
      ensures tasks == Apply(old(tasks), Complete(id, now, result))
    {
      found := UpdateStatus(id, Completed, Some(result), None);
    }

    method MarkFailed(id: Id, error: string, now: Time) returns (found: bool)
      requires Valid()
      modifies this`tasks
      ensures Valid()
      ensures found <==> id in old(tasks)
      ensures tasks == Apply(old(tasks), Fail(id, now, error))
    {
      found := UpdateStatus(id, Failed, None, Some(error));
    }

    method UpdateStatus(id: Id, status: Status, result: Option<string>, error: Option<string>) returns (found: bool)
      requires Valid()
      modifies this`tasks
      ensures Valid()
      ensures found <==> id in old(tasks)
      ensures tasks == if found then old(tasks)[id := Settled(old(tasks)[id], status, result, error)] else old(tasks)
    {
      if id !in tasks { return false; }
      var t := tasks[id].(status := status);
      if result.Some? { t := t.(result := result); }
      if error.Some? { t := t.(error := error); }
      tasks := tasks[id := t.(lockedUntil := None)];
      found := true;
    }

    /** Walks the dictionary, settling expired leases until `limit` of them are done. */
    method ReclaimStaleProcessing(now: Time, limit: int, maxAttempts: int) returns (ok: bool, reclaimed: seq<Ref>)
      requires Valid()
      modifies this`tasks
      ensures Valid()
      ensures ok <==> limit > 0
      ensures !ok ==> tasks == old(tasks)
      ensures ok ==> var w := SweepTo(old(tasks), order, |order|, now, limit, maxAttempts);
                     tasks == w.table && reclaimed == w.requeued
    {
      ok, reclaimed := limit > 0, [];
      if !ok { return; }
      ghost var was, done := tasks, [];
      var ids, settled, k := order, 0, 0;
      while k < |ids| && settled < limit
        invariant k <= |ids| && settled == |done| <= limit
        invariant Sweep(tasks, done, reclaimed) == SweepTo(was, ids, k, now, limit, maxAttempts)
        invariant tasks.Keys == was.Keys
      {
        var id := ids[k];
        if LeaseExpired(tasks[id], now) {
          settled, done := settled + 1, done + [id];
          var t := tasks[id].(lockedUntil := None);
          if t.attempts >= maxAttempts {
            t := t.(status := Failed, error := Some(MAX_ATTEMPTS_EXCEEDED));
          } else {
            t := t.(status := Queued);
            reclaimed := reclaimed + [Ref(id, t.kind, t.requestId)];
          }
          tasks := tasks[id := t];
        }
        k := k + 1;
      }
      SweepStops(was, ids, k, now, limit, maxAttempts);
    }
  }
}
