/** Capped exponential backoff with full jitter, as used for errors. */
module Retry {
  import opened Prelude

  datatype Policy = Policy(
    maxAttempts: int, retryStatusCodes: set<int>, retryExceptions: bool, baseDelay: Time, maxDelay: Time)

  predicate Valid(p: Policy) { p.maxAttempts > 0 && 0.0 <= p.baseDelay <= p.maxDelay }

  /** What went wrong: an error, with what `retry_on` says of it and the hint it carries, or a status code. */
  datatype Cause = Error(retryable: bool, hint: Option<Time>) | Status(code: Option<int>)

  predicate Retries(p: Policy, cause: Cause) {
    match cause
    case Error(retryable, _) => p.retryExceptions && retryable
    case Status(code) => code.Some? && code.value in p.retryStatusCodes
  }

  datatype Decision = GiveUp | RetryAfter(delay: Time)

  function MinTime(a: Time, b: Time): Time { if a <= b then a else b }

  function TwoTo(n: int): (r: real)
    ensures r > 0.0
    decreases if n < 0 then -n else n
  {
    if n == 0 then 1.0 else if n > 0 then 2.0 * TwoTo(n - 1) else TwoTo(n + 1) / 2.0
  }

  lemma ProductIsNonNegative(a: real, b: real)
    requires 0.0 <= a && 0.0 <= b
    ensures 0.0 <= a * b
  {
  }

  /** The uncapped ceiling: the base delay doubled per earlier attempt. */
  function Grown(p: Policy, attempt: int): (r: Time)
    requires Valid(p)
    ensures 0.0 <= r
  {
    ProductIsNonNegative(TwoTo(attempt - 1), p.baseDelay);
    TwoTo(attempt - 1) * p.baseDelay
  }

  function Jitter(rng: real, ceiling: Time): (r: Time)
    requires 0.0 <= rng <= 1.0 && 0.0 <= ceiling
    ensures 0.0 <= r <= ceiling
  {
    ProductIsNonNegative(rng, ceiling);
    ProductIsNonNegative(1.0 - rng, ceiling);
    assert (1.0 - rng) * ceiling == ceiling - rng * ceiling;
    rng * ceiling
  }

  /** The wait before the next attempt never exceeds the cap and never undercuts a hint below the cap. */
  function Delay(p: Policy, attempt: int, hint: Option<Time>, rng: real): (d: Time)
    requires Valid(p) && 0.0 <= rng <= 1.0
    ensures 0.0 <= d <= p.maxDelay
    ensures hint.Some? && 0.0 <= hint.value ==> MinTime(hint.value, p.maxDelay) <= d
    ensures hint.None? ==> d <= Grown(p, attempt)
  {
    var delay := Jitter(rng, MinTime(p.maxDelay, Grown(p, attempt)));
    match hint
    case None => delay
    case Some(h) => var h' := MinTime(h, p.maxDelay); if delay >= h' then delay else h'
  }

  /** The base delay comes first, and each attempt doubles it. */
  lemma DelayDoubles(p: Policy, attempt: int)
    requires Valid(p)
    ensures Grown(p, 1) == p.baseDelay
    ensures attempt >= 1 ==> Grown(p, attempt + 1) == 2.0 * Grown(p, attempt)
  {
    assert TwoTo(0) == 1.0 && Grown(p, 1) == 1.0 * p.baseDelay;
    if attempt >= 1 {
      assert TwoTo(attempt) == 2.0 * TwoTo(attempt - 1);
      Associate(TwoTo(attempt - 1), p.baseDelay);
    }
  }

  lemma Associate(a: real, b: real)
    ensures (2.0 * a) * b == 2.0 * (a * b)
  {
  }

  /** Without a hint the delay is the draw's share of the capped ceiling. */
  lemma DelayIsTheDrawsShare(p: Policy, attempt: int, rng: real, ceiling: Time)
    requires Valid(p) && 0.0 <= rng <= 1.0 && ceiling == MinTime(p.maxDelay, Grown(p, attempt))
    ensures Delay(p, attempt, None, rng) == rng * ceiling
  {
    assert Delay(p, attempt, None, rng) == Jitter(rng, ceiling);
  }

  /** Nothing for a draw of zero and the whole ceiling for one. */
  lemma DelayRangesOverTheCeiling(p: Policy, attempt: int)
    requires Valid(p)
    ensures Delay(p, attempt, None, 0.0) == 0.0
    ensures Delay(p, attempt, None, 1.0) == MinTime(p.maxDelay, Grown(p, attempt))
  {
    var ceiling := MinTime(p.maxDelay, Grown(p, attempt));
    DelayIsTheDrawsShare(p, attempt, 0.0, ceiling);
    DelayIsTheDrawsShare(p, attempt, 1.0, ceiling);
    Zero(ceiling);
  }

  /** And no less for a higher draw. */
  lemma DelayGrowsWithTheDraw(p: Policy, attempt: int, low: real, high: real)
    requires Valid(p) && 0.0 <= low <= high <= 1.0
    ensures Delay(p, attempt, None, low) <= Delay(p, attempt, None, high)
  {
    var ceiling := MinTime(p.maxDelay, Grown(p, attempt));
    var a, b := low * ceiling, high * ceiling;
    assert a <= b by { Share(low, high, ceiling); }
    DelayIsTheDrawsShare(p, attempt, low, ceiling);
    DelayIsTheDrawsShare(p, attempt, high, ceiling);
  }

  lemma Zero(c: real)
    ensures 0.0 * c == 0.0 && 1.0 * c == c
  {
  }

  lemma Share(low: real, high: real, c: real)
    requires low <= high && 0.0 <= c
    ensures low * c <= high * c
  {
    var d := high - low;
    ProductIsNonNegative(d, c);
    Distribute(low, d, c);
  }

  lemma Distribute(a: real, b: real, c: real)
    ensures (a + b) * c == a * c + b * c
  {
  }

  /** A hint only ever raises the delay, to itself or to the cap. */
  lemma HintRaises(p: Policy, attempt: int, hint: Time, rng: real)
    requires Valid(p) && 0.0 <= rng <= 1.0
    ensures var plain, raised := Delay(p, attempt, None, rng), Delay(p, attempt, Some(hint), rng);
            && plain <= raised && MinTime(hint, p.maxDelay) <= raised
            && (raised == plain || raised == MinTime(hint, p.maxDelay))
  {
  }

  /** The hint that counts: the caller's, or else the one the error carries. */
  function HintOf(cause: Cause, hint: Option<Time>): Option<Time> {
    if hint.None? && cause.Error? then cause.hint else hint
  }

  function Decide(p: Policy, attempt: int, cause: Cause, hint: Option<Time>, rng: real): (d: Decision)
    requires Valid(p) && 0.0 <= rng <= 1.0
    ensures d.GiveUp? <==> attempt >= p.maxAttempts || !Retries(p, cause)
    ensures d.RetryAfter? ==> 0.0 <= d.delay <= p.maxDelay
    ensures d.RetryAfter? && HintOf(cause, hint).Some? && 0.0 <= HintOf(cause, hint).value ==>
              MinTime(HintOf(cause, hint).value, p.maxDelay) <= d.delay
  {
    if attempt >= p.maxAttempts then GiveUp
    else if cause.Error? then
      if !(p.retryExceptions && cause.retryable) then GiveUp
      else RetryAfter(Delay(p, attempt, if hint.None? then cause.hint else hint, rng))
    else if cause.code.None? || cause.code.value !in p.retryStatusCodes then GiveUp
    else RetryAfter(Delay(p, attempt, hint, rng))
  }
}

/** Outbox rows, the store's atomic statements and the publisher's claim / send / settle loop. */
module Outbox {
  import opened Prelude
  import Retry

  type Id = nat

  datatype Status = Pending | Published | Failed

  datatype Event = Event(
    kind: string,
    payload: string,
    status: Status,
    attempts: nat,
    availableAt: Time,
    lockedUntil: Option<Time>,
    publishedAt: Option<Time>,
    error: Option<string>)

  type Table = map<Id, Event>

  function NewEvent(kind: string, payload: string, now: Time): Event {
    Event(kind, payload, Pending, 0, now, None, None, None)
  }

  predicate Due(e: Event, now: Time) {
    && e.status == Pending
    && e.availableAt <= now
    && (e.lockedUntil.None? || e.lockedUntil.value <= now)
  }

  function Elems(rows: seq<Id>): set<Id> { set id | id in rows }

  function LockAll(s: Table, ids: set<Id>, until: Time): Table {
    map id | id in s :: if id in ids then s[id].(lockedUntil := Some(until)) else s[id]
  }

  function PublishedEvent(e: Event, at: Time): Event {
    e.(status := Published, publishedAt := Some(at), lockedUntil := None, error := None)
  }

  /** A retry time sends the event back to pending; without one it has failed for good. */
  function FailedEvent(e: Event, error: string, retryAt: Option<Time>): Event {
    e.(status := if retryAt.Some? then Pending else Failed,
       error := Some(error),
       attempts := e.attempts + 1,
       lockedUntil := None,
       availableAt := if retryAt.Some? then retryAt.value else e.availableAt)
  }

  /**
   * What the sink did with one record. If it raised: what the policy's `retry_on` says of the
   * error, the hint the error carries, and the jitter drawn.
   */
  datatype SinkResult = Delivered | Raised(error: string, retryable: bool, hint: Option<Time>, rng: real)

  /** An error that is not retried: it is the last attempt, or not one the policy retries. */
  predicate GivesUp(attempts: nat, r: SinkResult, p: Retry.Policy)
    requires r.Raised?
  {
    attempts + 1 >= p.maxAttempts || !Retry.Retries(p, Retry.Error(r.retryable, r.hint))
  }

  /** The row after its record was settled; `attempts` is what the claim read. */
  function Settled(e: Event, attempts: nat, r: SinkResult, p: Retry.Policy, now: Time): Event
    requires Retry.Valid(p) && (r.Raised? ==> 0.0 <= r.rng <= 1.0)
  {
    match r
    case Delivered => PublishedEvent(e, now)
    case Raised(error, retryable, hint, rng) =>
      match Retry.Decide(p, attempts + 1, Retry.Error(retryable, hint), None, rng)
      case GiveUp => FailedEvent(e, error, None)
      case RetryAfter(delay) => FailedEvent(e, error, Some(now + delay))
  }

  /** Due, and of the publisher's family of events. */
  predicate Wanted(e: Event, now: Time, prefix: Option<string>) {
    Due(e, now) && (prefix.Some? ==> prefix.value <= e.kind)
  }

  predicate NotAfter(s: Table, a: Id, b: Id) { a in s && b in s && s[a].availableAt <= s[b].availableAt }

  /** Each row once, in the order of the times at which they are due. */
  ghost predicate Ascending(s: Table, rows: seq<Id>) {
    && (forall i :: 0 <= i < |rows| ==> rows[i] in s)
    && (forall i, j :: 0 <= i < j < |rows| ==> rows[i] != rows[j] && NotAfter(s, rows[i], rows[j]))
  }

  lemma AscendingSnoc(s: Table, rows: seq<Id>, id: Id)
    requires Ascending(s, rows) && id in s && id !in rows && forall r :: r in rows ==> NotAfter(s, r, id)
    ensures Ascending(s, rows + [id])
  {
  }

  /**
   * What the pending query may return: at most `limit` wanted rows that no other transaction
   * holds, earliest first, and a wanted free row is left out only by a full batch of rows
   * that are not due later.
   */
  ghost predicate Selected(s: Table, rows: seq<Id>, limit: int, now: Time, prefix: Option<string>, busy: set<Id>) {
    && |rows| <= limit && Ascending(s, rows)
    && (forall id :: id in rows ==> id in s && id !in busy && Wanted(s[id], now, prefix))
    && (forall id :: id in s && id !in busy && Wanted(s[id], now, prefix) && id !in rows ==>
          |rows| == limit && forall r :: r in rows ==> NotAfter(s, r, id))
  }

  class PostgresOutboxStore {
    var events: Table

    constructor ()
      ensures events == map[]
    {
      events := map[];
    }

    /** The earliest of some rows. */
    method Earliest(ids: set<Id>) returns (first: Id)
      requires ids != {} && ids <= events.Keys
      ensures first in ids && forall id :: id in ids ==> events[first].availableAt <= events[id].availableAt
    {
      first :| first in ids;
      var left := ids - {first};
      while left != {}
        invariant first in ids && left <= ids
        invariant forall id :: id in ids && id !in left ==> events[first].availableAt <= events[id].availableAt
      {
        var id :| id in left;
        if events[id].availableAt < events[first].availableAt { first := id; }
        left := left - {id};
      }
    }

    /** The query: pending rows that are due and of the family, earliest first; `busy` rows are skipped. */
    method SelectPending(limit: nat, now: Time, prefix: Option<string>, busy: set<Id>) returns (rows: seq<Id>)
      ensures Selected(events, rows, limit, now, prefix, busy)
    {
      var left := set id | id in events && id !in busy && Wanted(events[id], now, prefix);
      ghost var all := left;
      rows := [];
      while |rows| < limit && left != {}
        invariant |rows| <= limit && left <= all
        invariant forall id :: id in all <==> id in rows || id in left
        invariant forall id :: id in left ==> id !in rows
        invariant Ascending(events, rows) && forall id, r :: id in left && r in rows ==> NotAfter(events, r, id)
        decreases |left|
      {
        var id := Earliest(left);
        AscendingSnoc(events, rows, id);
        rows := rows + [id];
        left := left - {id};
      }
    }

    /** Selects and locks one batch. */
    method ClaimPending(limit: int, now: Time, lock: Time, prefix: Option<string>, busy: set<Id>)
      returns (ok: bool, rows: seq<Id>)
      modifies this
      ensures ok <==> limit > 0 && lock > 0.0
      ensures ok ==> Selected(old(events), rows, limit, now, prefix, busy)
      ensures events == if ok then LockAll(old(events), Elems(rows), now + lock) else old(events)
    {
      rows := [];
      if limit <= 0 || lock <= 0.0 { return false, rows; }
      rows := SelectPending(limit, now, prefix, busy);
      LockRows(rows, now + lock);
      ok := true;
    }

    method LockRows(rows: seq<Id>, until: Time)
      requires forall i :: 0 <= i < |rows| ==> rows[i] in events
      modifies this
      ensures events == LockAll(old(events), Elems(rows), until)
    {
      ghost var was := events;
      for i := 0 to |rows|
        invariant events.Keys == was.Keys
        invariant forall id :: id in was ==>
                    events[id] == if id in rows[..i] then was[id].(lockedUntil := Some(until)) else was[id]
      {
        assert rows[..i + 1] == rows[..i] + [rows[i]];
        events := events[rows[i] := events[rows[i]].(lockedUntil := Some(until))];
      }
      assert rows[..|rows|] == rows;
    }

    method MarkPublished(id: Id, at: Time) returns (found: bool)
      modifies this
      ensures found <==> id in old(events)
      ensures events == if found then old(events)[id := PublishedEvent(old(events)[id], at)] else old(events)
    {
      found := id in events;
      if found { events := events[id := PublishedEvent(events[id], at)]; }
    }

    method MarkFailed(id: Id, error: string, retryAt: Option<Time>) returns (found: bool)
      modifies this
      ensures found <==> id in old(events)
      ensures events == if found then old(events)[id := FailedEvent(old(events)[id], error, retryAt)] else old(events)
    {
      found := id in events;
      if found {
        var e := events[id].(status := Failed, error := Some(error), lockedUntil := None);
        e := e.(attempts := e.attempts + 1);
        if retryAt.Some? { e := e.(availableAt := retryAt.value, status := Pending); }
        events := events[id := e];
      }
    }
  }

  datatype Report = Report(total: nat, published: nat, retried: nat, failed: nat)

  datatype Kind = WasPublished | WasRetried | WasFailed

  function KindOf(attempts: nat, r: SinkResult, p: Retry.Policy): Kind {
    if r.Delivered? then WasPublished else if GivesUp(attempts, r, p) then WasFailed else WasRetried
  }

  /** The report's word for a record is the state in which its row is left. */
  lemma KindIsHowItEnded(e: Event, attempts: nat, r: SinkResult, p: Retry.Policy, now: Time)
    requires Retry.Valid(p) && (r.Raised? ==> 0.0 <= r.rng <= 1.0)
    ensures KindOf(attempts, r, p) == WasPublished <==> Settled(e, attempts, r, p, now).status == Published
    ensures KindOf(attempts, r, p) == WasRetried <==> Settled(e, attempts, r, p, now).status == Pending
    ensures KindOf(attempts, r, p) == WasFailed <==> Settled(e, attempts, r, p, now).status == Failed
  {
  }

  /** What the sink will do with each record. */
  type Script = map<Id, SinkResult>

  ghost predicate Plays(script: Script, rows: seq<Id>) {
    && (forall i :: 0 <= i < |rows| ==> rows[i] in script)
    && (forall id :: id in script && script[id].Raised? ==> 0.0 <= script[id].rng <= 1.0)
  }

  ghost predicate Batch(s: Table, rows: seq<Id>, script: Script) {
    Plays(script, rows) && forall i :: 0 <= i < |rows| ==> rows[i] in s
  }

  /** How often each fate befell the first `k` records of a batch. */
  ghost function Tally(s: Table, rows: seq<Id>, script: Script, k: nat, p: Retry.Policy, kind: Kind): nat
    requires Batch(s, rows, script) && k <= |rows|
  {
    if k == 0 then 0
    else Tally(s, rows, script, k - 1, p, kind)
         + if KindOf(s[rows[k - 1]].attempts, script[rows[k - 1]], p) == kind then 1 else 0
  }

  /** One record; a row that is gone raises, which ends the batch. */
  method SettleRecord(store: PostgresOutboxStore, id: Id, attempts: nat, r: SinkResult, p: Retry.Policy, now: Time)
    returns (found: bool, kind: Kind)
    requires Retry.Valid(p) && (r.Raised? ==> 0.0 <= r.rng <= 1.0)
    modifies store
    ensures found <==> id in old(store.events)
    ensures store.events == if found then old(store.events)[id := Settled(old(store.events)[id], attempts, r, p, now)]
                            else old(store.events)
    ensures kind == KindOf(attempts, r, p)
  {
    match r
    case Delivered =>
      kind := WasPublished;
      found := store.MarkPublished(id, now);
    case Raised(error, retryable, hint, rng) =>
      match Retry.Decide(p, attempts + 1, Retry.Error(retryable, hint), None, rng)
      case RetryAfter(delay) =>
        kind := WasRetried;
        found := store.MarkFailed(id, error, Some(now + delay));
      case GiveUp =>
        kind := WasFailed;
        found := store.MarkFailed(id, error, None);
  }

  /** The table after the first `k` records were settled; `s` is what the claim read. */
  ghost function SettleTo(s: Table, rows: seq<Id>, script: Script, k: nat, p: Retry.Policy, now: Time): (r: Table)
    requires Retry.Valid(p) && Batch(s, rows, script) && k <= |rows|
    ensures r.Keys == s.Keys
  {
    if k == 0 then s
    else
      var before, id := SettleTo(s, rows, script, k - 1, p, now), rows[k - 1];
      before[id := Settled(before[id], s[id].attempts, script[id], p, now)]
  }

  /** Settling a batch leaves every row alone that is not among the settled records. */
  lemma {:induction false} BatchLeavesOthers(
    s: Table, rows: seq<Id>, script: Script, k: nat, p: Retry.Policy, now: Time, id: Id)
    requires Retry.Valid(p) && Batch(s, rows, script) && k <= |rows|
    requires id in s && forall i :: 0 <= i < k ==> rows[i] != id
    ensures SettleTo(s, rows, script, k, p, now)[id] == s[id]
  {
    if k == 0 {
    } else {
      BatchLeavesOthers(s, rows, script, k - 1, p, now, id);
    }
  }

  /** Each record of a batch without repetition ends as its own send ended. */
  lemma {:induction false} BatchSettlesEach(
    s: Table, rows: seq<Id>, script: Script, k: nat, p: Retry.Policy, now: Time, i: nat)
    requires Retry.Valid(p) && Batch(s, rows, script) && i < k <= |rows|
    requires forall i, j :: 0 <= i < j < |rows| ==> rows[i] != rows[j]
    ensures SettleTo(s, rows, script, k, p, now)[rows[i]]
         == Settled(s[rows[i]], s[rows[i]].attempts, script[rows[i]], p, now)
  {
    if i == k - 1 {
      BatchLeavesOthers(s, rows, script, k - 1, p, now, rows[i]);
    } else {
      BatchSettlesEach(s, rows, script, k - 1, p, now, i);
    }
  }

  /** Every record of a batch is published, retried or failed. */
  lemma {:induction false} TallyIsTotal(s: Table, rows: seq<Id>, script: Script, k: nat, p: Retry.Policy)
    requires Batch(s, rows, script) && k <= |rows|
    ensures k == Tally(s, rows, script, k, p, WasPublished)
                 + Tally(s, rows, script, k, p, WasRetried)
                 + Tally(s, rows, script, k, p, WasFailed)
  {
    if k == 0 {
    } else {
      TallyIsTotal(s, rows, script, k - 1, p);
    }
  }

  /** The report counts each fate of the batch that was claimed. */
  ghost predicate Counts(report: Report, s: Table, rows: seq<Id>, script: Script, p: Retry.Policy)
    requires Batch(s, rows, script)
  {
    && report.total == |rows| == report.published + report.retried + report.failed
    && report.published == Tally(s, rows, script, |rows|, p, WasPublished)
    && report.retried == Tally(s, rows, script, |rows|, p, WasRetried)
    && report.failed == Tally(s, rows, script, |rows|, p, WasFailed)
  }

  /** The claimed records one by one: send, settle, count. */
  method SettleAll(store: PostgresOutboxStore, rows: seq<Id>, script: Script, p: Retry.Policy, now: Time)
    returns (report: Report)
    requires Retry.Valid(p) && Batch(store.events, rows, script)
    modifies store
    ensures store.events == SettleTo(old(store.events), rows, script, |rows|, p, now)
    ensures Counts(report, old(store.events), rows, script, p)
  {
    var records := store.events;  // the claim returns the rows as it wrote them
    var published, retried, failed := 0, 0, 0;
    for i := 0 to |rows|
      invariant store.events == SettleTo(records, rows, script, i, p, now)
      invariant published == Tally(records, rows, script, i, p, WasPublished)
      invariant retried == Tally(records, rows, script, i, p, WasRetried)
      invariant failed == Tally(records, rows, script, i, p, WasFailed)
    {
      var found, kind := SettleRecord(store, rows[i], records[rows[i]].attempts, script[rows[i]], p, now);
      match kind
      case WasPublished => published := published + 1;
      case WasRetried => retried := retried + 1;
      case WasFailed => failed := failed + 1;
    }
    TallyIsTotal(records, rows, script, |rows|, p);
    report := Report(|rows|, published, retried, failed);
  }

  /** One uninterrupted batch. */
  method PublishPending(store: PostgresOutboxStore, script: Script, p: Retry.Policy, limit: int, now: Time, lock: Time,
                        prefix: Option<string>, busy: set<Id>) returns (ok: bool, report: Report, rows: seq<Id>)
    requires Retry.Valid(p) && Plays(script, []) && store.events.Keys <= script.Keys
    modifies store
    ensures ok <==> limit > 0 && lock > 0.0
    ensures !ok ==> store.events == old(store.events)
    ensures ok ==> var s := LockAll(old(store.events), Elems(rows), now + lock);
                   && Selected(old(store.events), rows, limit, now, prefix, busy)
                   && Batch(s, rows, script)
                   && store.events == SettleTo(s, rows, script, |rows|, p, now)
                   && Counts(report, s, rows, script, p)
  {
    report, rows := Report(0, 0, 0, 0), [];
    ok := limit > 0 && lock > 0.0;
    if !ok { return; }
    ok, rows := store.ClaimPending(limit, now, lock, prefix, busy);
    report := SettleAll(store, rows, script, p, now);
  }
}
