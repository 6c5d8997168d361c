/** HTTP idempotency records: a claim token, an in-progress timeout, an expiry and a purge. */
module Idempotency {
  import opened Prelude

  type Token = string
  type Body = string

  datatype Status = InProgress | Completed

  /** `token` is absent only on rows older than the column. */
  datatype Record = Record(
    hash: string, status: Status, token: Option<Token>, code: Option<int>, body: Option<Body>,
    expiresAt: Time, updatedAt: Time)

  datatype Request = Request(token: Token, hash: string, expiresAt: Time, timeout: Time)

  datatype Outcome =
    | Claim(token: Token)
    | Cached(code: int, body: Body)
    | KeyConflict
    | KeyInProgress
    | Vanished

  function NewClaim(r: Request, now: Time): Record {
    Record(r.hash, InProgress, Some(r.token), None, None, r.expiresAt, now)
  }

  predicate Stuck(rec: Record, timeout: Time, now: Time) { rec.status == InProgress && now - rec.updatedAt >= timeout }

  predicate Reclaimable(rec: Record, timeout: Time, now: Time) { rec.expiresAt <= now || Stuck(rec, timeout, now) }

  /** The request wins the key. `raced` says that a row was in the way of the insert and gone at the look-up. */
  predicate Wins(row: Option<Record>, r: Request, raced: bool, now: Time) {
    if row.None? then !raced else Reclaimable(row.value, r.timeout, now)
  }

  /** The store completes the record: it is still this token's claim. */
  predicate Completes(row: Option<Record>, token: Token) {
    row.Some? && row.value.token == Some(token) && row.value.status == InProgress
  }

  function CompletedRecord(rec: Record, code: int, body: Body, now: Time): Record {
    rec.(status := Completed, code := Some(code), body := Some(body), updatedAt := now)
  }

  predicate Expired(row: Option<Record>, before: Time) { row.Some? && row.value.expiresAt < before }

  // ----- the steps of one key -----

  datatype Op =
    | Check(at: Time, request: Request, raced: bool)
    | Store(at: Time, token: Token, code: int, body: Body)
    | Purge(at: Time, before: Time)

  function Apply(row: Option<Record>, op: Op): Option<Record> {
    match op
    case Check(at, r, raced) => if Wins(row, r, raced, at) then Some(NewClaim(r, at)) else row
    case Store(at, token, code, body) =>
      if Completes(row, token) then Some(CompletedRecord(row.value, code, body, at)) else row
    case Purge(_, before) => if Expired(row, before) then None else row
  }

  /** What a check answers. */
  function Answer(row: Option<Record>, r: Request, raced: bool, now: Time): Outcome {
    if Wins(row, r, raced, now) then Claim(r.token)
    else if row.None? then Vanished
    else if row.value.hash != r.hash then KeyConflict
    else if row.value.status == Completed && row.value.body.Some?
    then Cached(if row.value.code in {None, Some(0)} then 200 else row.value.code.value, row.value.body.value)
    else KeyInProgress
  }

  type Key = (string, string)

  function Row(rows: map<Key, Record>, k: Key): Option<Record> { if k in rows then Some(rows[k]) else None }

  // ----- the table -----

  class IdempotencyStore {
    var rows: map<Key, Record>

    constructor ()
      ensures rows == map[]
    {
      rows := map[];
    }

    /** Insert unless a row is there. */
    method TryInsert(k: Key, r: Request, now: Time) returns (inserted: bool)
      modifies this
      ensures inserted <==> k !in old(rows)
      ensures rows == if inserted then old(rows)[k := NewClaim(r, now)] else old(rows)
    {
      inserted := k !in rows;
      if inserted {
        rows := rows[k := Record(r.hash, InProgress, Some(r.token), None, None, r.expiresAt, now)];
      }
    }

    method ResetExpired(k: Key, r: Request, now: Time)
      requires k in rows
      modifies this
      ensures rows == old(rows)[k := NewClaim(r, now)]
    {
      rows := rows[k := rows[k].(hash := r.hash, token := Some(r.token), status := InProgress)];
      rows := rows[k := rows[k].(code := None, body := None, expiresAt := r.expiresAt, updatedAt := now)];
    }

    /**
     * A row deleted between the refused insert and the locking read is `raced`; otherwise the
     * two statements see the same row.
     */
    method CheckOrStore(k: Key, r: Request, raced: bool, now: Time) returns (outcome: Outcome)
      requires raced ==> k !in rows
      modifies this
      ensures outcome == Answer(Row(old(rows), k), r, raced, now)
      ensures Row(rows, k) == Apply(Row(old(rows), k), Check(now, r, raced))
      ensures forall other :: other != k ==> Row(rows, other) == Row(old(rows), other)
    {
      if raced { return Vanished; }
      var inserted := TryInsert(k, r, now);
      if inserted { return Claim(r.token); }
      var record := rows[k];
      if record.expiresAt <= now || Stuck(record, r.timeout, now) {
        ResetExpired(k, r, now);
        return Claim(r.token);
      }
      if record.hash != r.hash { return KeyConflict; }
      if record.status == Completed && record.body.Some? {
        var code := if record.code.None? || record.code.value == 0 then 200 else record.code.value;
        return Cached(code, record.body.value);
      }
      return KeyInProgress;
    }

    method StoreResponse(k: Key, token: Token, code: int, body: Body, now: Time) returns (completed: bool)
      modifies this
      ensures completed <==> Completes(Row(old(rows), k), token)
      ensures Row(rows, k) == Apply(Row(old(rows), k), Store(now, token, code, body))
      ensures forall other :: other != k ==> Row(rows, other) == Row(old(rows), other)
    {
      completed := k in rows && rows[k].token == Some(token) && rows[k].status == InProgress;
      if completed {
        rows := rows[k := rows[k].(status := Completed, code := Some(code), body := Some(body), updatedAt := now)];
      }
    }

    /** `chosen` is whatever the subquery picked; without a positive limit nothing happens. */
    method DeleteExpired(before: Time, limit: int, chosen: set<Key>) returns (deleted: Option<nat>)
      requires forall k :: k in chosen ==> Expired(Row(rows, k), before)
      requires limit > 0 ==> |chosen| <= limit
      modifies this
      ensures deleted == if limit <= 0 then None else Some(|chosen|)
      ensures forall k :: Row(rows, k)
                == var was := Row(old(rows), k);
                   if limit > 0 && k in chosen then Apply(was, Purge(before, before)) else was
      ensures deleted.Some? ==> |rows| == |old(rows)| - deleted.value
    {
      if limit <= 0 { return None; }
      assert rows.Keys - chosen == (rows - chosen).Keys && chosen <= rows.Keys by {
        assert forall k :: k in chosen ==> Expired(Row(rows, k), before);
      }
      deleted := Some(|chosen|);
      rows := rows - chosen;
    }
  }

  // ----- the runs of one key -----

  /** One key from no record on: fresh tokens, one timeout, a clock that does not go back, purges of the past. */
  ghost predicate Run(st: seq<Option<Record>>, ops: seq<Op>, timeout: Time) {
    && |st| == |ops| + 1 && st[0] == None
    && (forall i {:trigger ops[i]} :: 0 <= i < |ops| ==> st[i + 1] == Apply(st[i], ops[i]))
    && (forall i, j :: 0 <= i < j < |ops| ==> ops[i].at <= ops[j].at)
    && (forall i, j :: 0 <= i < j < |ops| && ops[i].Check? && ops[j].Check? ==>
          ops[i].request.token != ops[j].request.token)
    && (forall i {:trigger ops[i]} :: 0 <= i < |ops| ==>
          match ops[i]
          case Check(_, r, _) => r.timeout == timeout
          case Store(_, _, _, _) => true
          case Purge(at, before) => before <= at)
  }

  ghost predicate ClaimsAt(st: seq<Option<Record>>, ops: seq<Op>, i: nat)
    requires |st| == |ops| + 1
  {
    i < |ops| && ops[i].Check? && Wins(st[i], ops[i].request, ops[i].raced, ops[i].at)
  }

  ghost predicate CompletesAt(st: seq<Option<Record>>, ops: seq<Op>, i: nat)
    requires |st| == |ops| + 1
  {
    i < |ops| && ops[i].Store? && Completes(st[i], ops[i].token)
  }

  ghost predicate NoClaimBetween(st: seq<Option<Record>>, ops: seq<Op>, i: nat, j: nat)
    requires |st| == |ops| + 1
  {
    forall m: nat :: i < m < j ==> !ClaimsAt(st, ops, m)
  }

  /** The record is what claim `c` wrote, completed by store `s` if it is completed. */
  ghost predicate From(st: seq<Option<Record>>, ops: seq<Op>, k: nat, c: nat, s: nat)
    requires |st| == |ops| + 1 && k <= |ops| && st[k].Some?
  {
    && c < k && ClaimsAt(st, ops, c) && NoClaimBetween(st, ops, c, k)
    && (if st[k].value.status == InProgress then st[k].value == NewClaim(ops[c].request, ops[c].at)
        else
          && c < s < k && CompletesAt(st, ops, s) && ops[s].token == ops[c].request.token
          && st[k].value == CompletedRecord(NewClaim(ops[c].request, ops[c].at), ops[s].code, ops[s].body, ops[s].at))
  }

  /** Every record there ever is comes from the latest claim, and a completed one from a store with its token. */
  lemma {:induction false} Origin(st: seq<Option<Record>>, ops: seq<Op>, timeout: Time, k: nat) returns (c: nat, s: nat)
    requires Run(st, ops, timeout) && k <= |ops| && st[k].Some?
    ensures From(st, ops, k, c, s)
    decreases k
  {
    if ClaimsAt(st, ops, k - 1) {
      c, s := k - 1, 0;
    } else {
      assert st[k] == Apply(st[k - 1], ops[k - 1]);
      c, s := Origin(st, ops, timeout, k - 1);
      if CompletesAt(st, ops, k - 1) { s := k - 1; }
    }
  }

  /** A token completes the record only while it is the most recently issued claim. */
  lemma OnlyTheLatestClaimCompletes(st: seq<Option<Record>>, ops: seq<Op>, timeout: Time, k: nat) returns (c: nat)
    requires Run(st, ops, timeout) && CompletesAt(st, ops, k)
    ensures c < k && ClaimsAt(st, ops, c) && ops[c].request.token == ops[k].token && NoClaimBetween(st, ops, c, k)
  {
    var s;
    c, s := Origin(st, ops, timeout, k);
  }

  /** No token completes twice. */
  lemma EachTokenCompletesOnce(st: seq<Option<Record>>, ops: seq<Op>, timeout: Time, i: nat, j: nat)
    requires Run(st, ops, timeout) && i < j && CompletesAt(st, ops, i) && CompletesAt(st, ops, j)
    ensures ops[i].token != ops[j].token
  {
    var c := OnlyTheLatestClaimCompletes(st, ops, timeout, i);
    var d := OnlyTheLatestClaimCompletes(st, ops, timeout, j);
    if ops[i].token == ops[j].token {
      assert c == d;
      StaysDone(st, ops, timeout, i, j);
    }
  }

  /** Without a new claim, a record that was completed is not in progress again. */
  lemma {:induction false} StaysDone(st: seq<Option<Record>>, ops: seq<Op>, timeout: Time, i: nat, j: nat)
    requires Run(st, ops, timeout) && i < j <= |ops| && CompletesAt(st, ops, i) && NoClaimBetween(st, ops, i, j)
    ensures st[j].None? || st[j].value.status == Completed
    decreases j
  {
    assert st[j] == Apply(st[j - 1], ops[j - 1]);
    if i + 1 == j {
    } else {
      StaysDone(st, ops, timeout, i, j - 1);
      assert !ClaimsAt(st, ops, j - 1);
    }
  }

  /** A completed response stays exactly as it is through every operation before its expiry. */
  lemma {:induction false} CompletedUntilExpiry(st: seq<Option<Record>>, ops: seq<Op>, timeout: Time, i: nat, j: nat)
    requires Run(st, ops, timeout) && i <= j <= |ops| && st[i].Some? && st[i].value.status == Completed
    requires j > i ==> ops[j - 1].at < st[i].value.expiresAt
    ensures st[j] == st[i]
    decreases j
  {
    if i == j {
    } else {
      CompletedUntilExpiry(st, ops, timeout, i, j - 1);
      assert st[j] == Apply(st[j - 1], ops[j - 1]);
    }
  }

  /** A replay is the response stored by the call that claimed the key with the very same request hash. */
  lemma ReplaysAreAuthentic(st: seq<Option<Record>>, ops: seq<Op>, timeout: Time, k: nat) returns (c: nat, s: nat)
    requires Run(st, ops, timeout) && k < |ops| && ops[k].Check?
    requires Answer(st[k], ops[k].request, ops[k].raced, ops[k].at).Cached?
    ensures c < s < k && ClaimsAt(st, ops, c) && CompletesAt(st, ops, s) && NoClaimBetween(st, ops, c, k)
    ensures ops[c].request.hash == ops[k].request.hash && ops[s].token == ops[c].request.token
    ensures ops[k].at < ops[c].request.expiresAt
    ensures Answer(st[k], ops[k].request, ops[k].raced, ops[k].at)
         == Cached(if ops[s].code == 0 then 200 else ops[s].code, ops[s].body)
  {
    c, s := Origin(st, ops, timeout, k);
  }

  /**
   * And every stored response is replayed: a check with the request hash of the claim, after
   * the claim was completed and before it expires, gets exactly what was stored.
   */
  lemma StoredResponsesAreReplayed(st: seq<Option<Record>>, ops: seq<Op>, timeout: Time, c: nat, s: nat, k: nat)
    requires Run(st, ops, timeout) && s < k < |ops| && ops[k].Check?
    requires c < |ops| && ClaimsAt(st, ops, c) && CompletesAt(st, ops, s) && ops[s].token == ops[c].request.token
    requires ops[k].at < ops[c].request.expiresAt && ops[k].request.hash == ops[c].request.hash
    ensures Answer(st[k], ops[k].request, ops[k].raced, ops[k].at)
         == Cached(if ops[s].code == 0 then 200 else ops[s].code, ops[s].body)
  {
    CompletedStays(st, ops, timeout, c, s, k);
  }

  /** Until it expires a completed record is what its claim and its store wrote. */
  lemma CompletedStays(st: seq<Option<Record>>, ops: seq<Op>, timeout: Time, c: nat, s: nat, k: nat)
    requires Run(st, ops, timeout) && s < k < |ops| && c < |ops|
    requires ClaimsAt(st, ops, c) && CompletesAt(st, ops, s) && ops[s].token == ops[c].request.token
    requires ops[k].at < ops[c].request.expiresAt
    ensures st[k].Some? && st[k].value.hash == ops[c].request.hash && st[k].value.expiresAt == ops[c].request.expiresAt
    ensures st[k].value.status == Completed
    ensures st[k].value.code == Some(ops[s].code) && st[k].value.body == Some(ops[s].body)
  {
    var d, x := Origin(st, ops, timeout, s);
    assert d == c;
    assert st[s + 1] == Apply(st[s], ops[s]);
    CompletedUntilExpiry(st, ops, timeout, s + 1, k);
  }

  /** With another request hash a completed record that has not expired is a conflict. */
  lemma OtherRequestsConflict(st: seq<Option<Record>>, ops: seq<Op>, timeout: Time, c: nat, s: nat, k: nat)
    requires Run(st, ops, timeout) && s < k < |ops| && ops[k].Check?
    requires c < |ops| && ClaimsAt(st, ops, c) && CompletesAt(st, ops, s) && ops[s].token == ops[c].request.token
    requires ops[k].at < ops[c].request.expiresAt && ops[k].request.hash != ops[c].request.hash
    ensures Answer(st[k], ops[k].request, ops[k].raced, ops[k].at) == KeyConflict
  {
    CompletedStays(st, ops, timeout, c, s, k);
  }

  /** The record is claimed by `c` and neither completed nor timed out nor expired at `k`. */
  ghost predicate UnderWay(st: seq<Option<Record>>, ops: seq<Op>, timeout: Time, c: nat, k: nat)
    requires |st| == |ops| + 1
  {
    && c < k < |ops| && ClaimsAt(st, ops, c)
    && (forall m :: c < m < k ==> !CompletesAt(st, ops, m))
    && ops[k].at < ops[c].request.expiresAt && ops[k].at < ops[c].at + timeout
  }

  lemma {:induction false} UnderWayStays(st: seq<Option<Record>>, ops: seq<Op>, timeout: Time, c: nat, k: nat)
    requires Run(st, ops, timeout) && UnderWay(st, ops, timeout, c, k)
    ensures st[k] == Some(NewClaim(ops[c].request, ops[c].at))
    decreases k
  {
    assert st[k] == Apply(st[k - 1], ops[k - 1]);
    if k == c + 1 {
    } else {
      assert ops[k - 1].at <= ops[k].at;
      UnderWayStays(st, ops, timeout, c, k - 1);
      assert !CompletesAt(st, ops, k - 1);
    }
  }

  /** While the claim is under way its own request is told so and any other conflicts. */
  lemma UnderWayIsReported(st: seq<Option<Record>>, ops: seq<Op>, timeout: Time, c: nat, k: nat)
    requires Run(st, ops, timeout) && UnderWay(st, ops, timeout, c, k) && ops[k].Check?
    ensures Answer(st[k], ops[k].request, ops[k].raced, ops[k].at)
         == if ops[k].request.hash == ops[c].request.hash then KeyInProgress else KeyConflict
  {
    UnderWayStays(st, ops, timeout, c, k);
  }

  /** From the timeout on, or once expired, a claim that was not completed gives way to the next check. */
  lemma AbandonedClaimsGiveWay(st: seq<Option<Record>>, ops: seq<Op>, timeout: Time, c: nat, k: nat)
    requires Run(st, ops, timeout) && c < k < |ops| && ClaimsAt(st, ops, c) && NoClaimBetween(st, ops, c, k)
    requires ops[k].Check? && !ops[k].raced
    requires ops[k].at >= ops[c].request.expiresAt
          || (ops[k].at >= ops[c].at + timeout && forall m :: c < m < k ==> !CompletesAt(st, ops, m))
    ensures Answer(st[k], ops[k].request, ops[k].raced, ops[k].at) == Claim(ops[k].request.token)
  {
    if st[k].Some? {
      var d, s := Origin(st, ops, timeout, k);
      assert d == c;
    }
  }

  /** Without a row the check wins the key, unless one was in the way of its insert and is gone by now. */
  lemma FreeKeysAreClaimed(st: seq<Option<Record>>, ops: seq<Op>, timeout: Time, k: nat)
    requires Run(st, ops, timeout) && k < |ops| && ops[k].Check? && st[k].None?
    ensures Answer(st[k], ops[k].request, ops[k].raced, ops[k].at)
         == if ops[k].raced then Vanished else Claim(ops[k].request.token)
    ensures st[k + 1] == if ops[k].raced then None else Some(NewClaim(ops[k].request, ops[k].at))
  {
  }

  /** A purge removes a record exactly if it expired before the cut-off. */
  lemma PurgeTakesTheExpired(st: seq<Option<Record>>, ops: seq<Op>, timeout: Time, k: nat)
    requires Run(st, ops, timeout) && k < |ops| && ops[k].Purge? && st[k].Some?
    ensures st[k + 1] == if st[k].value.expiresAt < ops[k].before then None else st[k]
  {
  }

  /** A row that has gone was purged, so its last claim had expired by then. */
  lemma {:induction false} GoneMeansExpired(st: seq<Option<Record>>, ops: seq<Op>, timeout: Time, c: nat, k: nat)
    requires Run(st, ops, timeout) && c < k <= |ops| && st[k].None?
    requires ClaimsAt(st, ops, c) && NoClaimBetween(st, ops, c, k)
    ensures ops[c].request.expiresAt < ops[k - 1].at
    decreases k
  {
    assert st[k] == Apply(st[k - 1], ops[k - 1]);
    if st[k - 1].Some? && k - 1 > c {
      var d, s := Origin(st, ops, timeout, k - 1);
      assert d == c;
    } else if k - 1 > c {
      GoneMeansExpired(st, ops, timeout, c, k - 1);
    }
  }

  lemma NextClaimWaits(st: seq<Option<Record>>, ops: seq<Op>, timeout: Time, i: nat, j: nat)
    requires Run(st, ops, timeout) && i < j && NoClaimBetween(st, ops, i, j)
    requires ClaimsAt(st, ops, i) && ClaimsAt(st, ops, j)
    ensures ops[j].at >= ops[i].at + timeout || ops[j].at >= ops[i].request.expiresAt
  {
    if st[j].Some? {
      var c, s := Origin(st, ops, timeout, j);
      assert c == i;
    } else {
      GoneMeansExpired(st, ops, timeout, i, j);
    }
  }

  /** After a claim no later one succeeds before the earlier of the in-progress timeout and the expiry. */
  lemma {:induction false} ClaimsAreApart(st: seq<Option<Record>>, ops: seq<Op>, timeout: Time, i: nat, j: nat)
    requires Run(st, ops, timeout) && i < j && ClaimsAt(st, ops, i) && ClaimsAt(st, ops, j)
    ensures ops[j].at >= ops[i].at + timeout || ops[j].at >= ops[i].request.expiresAt
    decreases j
  {
    if NoClaimBetween(st, ops, i, j) {
      NextClaimWaits(st, ops, timeout, i, j);
    } else {
      var m: nat :| i < m < j && ClaimsAt(st, ops, m);
      ClaimsAreApart(st, ops, timeout, i, m);
    }
  }
}
