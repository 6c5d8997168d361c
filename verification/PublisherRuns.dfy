/**
 * Several publishers on one outbox table. A publisher claims a batch under a lock that runs
 * out, then settles its records one statement at a time; it may stop at any point.
 */
module PublisherRuns {
  import opened Prelude
  import Retry
  import opened Outbox

  type Publisher = nat

  /** A claimed batch: when it was taken, when its lock runs out, and the attempts read per record. */
  datatype Held = Held(now: Time, until: Time, todo: map<Id, nat>)

  datatype State = State(events: Table, batches: map<Publisher, Held>)

  datatype Op =
    | Enqueue(at: Time, id: Id, kind: string, payload: string)
    | Take(at: Time, p: Publisher, ids: set<Id>, lock: Time)
    | Settle(at: Time, p: Publisher, id: Id, result: SinkResult)
    | Drop(at: Time, p: Publisher)
    | Purge(at: Time, ids: set<Id>)

  function ReadAttempts(events: Table, ids: set<Id>): map<Id, nat>
    requires forall id :: id in ids ==> id in events
  {
    map id | id in ids :: events[id].attempts
  }

  predicate Enabled(s: State, op: Op) {
    match op
    case Enqueue(_, id, _, _) => id !in s.events
    case Take(at, p, ids, lock) =>
      p !in s.batches && lock > 0.0 && forall id :: id in ids ==> id in s.events && Due(s.events[id], at)
    case Settle(_, p, id, r) =>
      p in s.batches && id in s.batches[p].todo && (r.Raised? ==> 0.0 <= r.rng <= 1.0)
    case Drop(_, _) => true
    case Purge(_, ids) => forall id :: id in ids ==> id in s.events && s.events[id].status == Published
  }

  function Apply(s: State, op: Op, policy: Retry.Policy): State
    requires Retry.Valid(policy) && Enabled(s, op)
  {
    match op
    case Enqueue(at, id, kind, payload) => s.(events := s.events[id := NewEvent(kind, payload, at)])
    case Take(at, p, ids, lock) =>
      State(LockAll(s.events, ids, at + lock),
            s.batches[p := Held(at, at + lock, ReadAttempts(s.events, ids))])
    case Settle(_, p, id, r) =>
      var b := s.batches[p];
      if id !in s.events then s.(batches := s.batches - {p})  // the row is gone: the batch is abandoned
      else State(s.events[id := Settled(s.events[id], b.todo[id], r, policy, b.now)],
                 s.batches[p := b.(todo := b.todo - {id})])
    case Drop(_, p) => s.(batches := s.batches - {p})
    case Purge(_, ids) => s.(events := s.events - ids)
  }

  /** Nobody settles a record after its own lock has run out. */
  predicate Timely(s: State, op: Op) { op.Settle? && op.p in s.batches ==> op.at < s.batches[op.p].until }

  /** A run in which publishers may settle at any time. */
  ghost predicate AnyRun(st: seq<State>, ops: seq<Op>, policy: Retry.Policy) {
    && Retry.Valid(policy) && |st| == |ops| + 1 && st[0] == State(map[], map[])
    && (forall i {:trigger ops[i]} :: 0 <= i < |ops| ==>
          Enabled(st[i], ops[i]) && st[i + 1] == Apply(st[i], ops[i], policy))
    && (forall i, j :: 0 <= i <= j < |ops| ==> ops[i].at <= ops[j].at)
  }

  ghost predicate Run(st: seq<State>, ops: seq<Op>, policy: Retry.Policy) {
    AnyRun(st, ops, policy) && forall i {:trigger ops[i]} :: 0 <= i < |ops| ==> Timely(st[i], ops[i])
  }

  /** `p` still owns `id` at time `at`. */
  ghost predicate Holds(s: State, p: Publisher, id: Id, at: Time) {
    p in s.batches && id in s.batches[p].todo && at < s.batches[p].until
  }

  ghost predicate Owned(s: State, p: Publisher, id: Id)
    requires p in s.batches && id in s.batches[p].todo
  {
    && id in s.events && s.events[id].status == Pending
    && s.events[id].lockedUntil == Some(s.batches[p].until)
    && s.events[id].attempts == s.batches[p].todo[id]
  }

  /** An event has attempts left until it has failed. */
  ghost predicate Counted(e: Event, maxAttempts: int) {
    if e.status == Failed then 1 <= e.attempts <= maxAttempts else e.attempts < maxAttempts
  }

  ghost predicate Inv(s: State, at: Time, maxAttempts: int) {
    && (forall id :: id in s.events ==> Counted(s.events[id], maxAttempts))
    && (forall p, id :: Holds(s, p, id, at) ==> Owned(s, p, id))
    && (forall p, q, id :: Holds(s, p, id, at) && Holds(s, q, id, at) ==> p == q)
  }

  lemma InvStep(s: State, op: Op, at: Time, policy: Retry.Policy)
    requires Retry.Valid(policy) && Enabled(s, op) && Timely(s, op) && at <= op.at
    requires Inv(s, at, policy.maxAttempts)
    ensures Inv(Apply(s, op, policy), op.at, policy.maxAttempts)
  {
    assert forall p, id :: Holds(s, p, id, op.at) ==> Holds(s, p, id, at);
    var s' := Apply(s, op, policy);
    if op.Settle? && op.id in s.events {
      assert Holds(s, op.p, op.id, op.at);
    }
    forall p, id | Holds(s', p, id, op.at)
      ensures Owned(s', p, id)
    {
      if !op.Take? || p != op.p {
        assert Holds(s, p, id, op.at);
      }
    }
    forall p, q, id | Holds(s', p, id, op.at) && Holds(s', q, id, op.at)
      ensures p == q
    {
      if op.Take? && id in op.ids {
        assert forall r :: !Holds(s, r, id, op.at);
        assert p != op.p ==> Holds(s, p, id, op.at);
        assert q != op.p ==> Holds(s, q, id, op.at);
      } else {
        assert Holds(s, p, id, op.at) && Holds(s, q, id, op.at);
      }
    }
  }

  lemma {:induction false} InvHolds(st: seq<State>, ops: seq<Op>, policy: Retry.Policy, k: nat)
    requires Run(st, ops, policy) && k <= |ops|
    ensures Inv(st[k], if k == 0 then 0.0 else ops[k - 1].at, policy.maxAttempts)
  {
    if k == 0 {
    } else {
      InvHolds(st, ops, policy, k - 1);
      assert Inv(st[k - 1], if k == 1 then ops[0].at else ops[k - 2].at, policy.maxAttempts);
      InvStep(st[k - 1], ops[k - 1], if k == 1 then ops[0].at else ops[k - 2].at, policy);
    }
  }

  /**
   * With timely publishers no event has two owners, an owner's record is the row itself,
   * and pending or published events have attempts left.
   */
  lemma NoEventHasTwoOwners(st: seq<State>, ops: seq<Op>, policy: Retry.Policy, k: nat, at: Time)
    requires Run(st, ops, policy) && k <= |ops| && (k > 0 ==> ops[k - 1].at <= at)
    ensures forall id :: id in st[k].events ==> Counted(st[k].events[id], policy.maxAttempts)
    ensures forall p, q, id :: Holds(st[k], p, id, at) && Holds(st[k], q, id, at) ==> p == q
    ensures forall p, id :: Holds(st[k], p, id, at) ==> Owned(st[k], p, id)
  {
    InvHolds(st, ops, policy, k);
    if k > 0 {
      assert forall p, id :: Holds(st[k], p, id, at) ==> Holds(st[k], p, id, ops[k - 1].at);
    }
  }

  /** Errors reported for `id` since it was enqueued. */
  ghost function Errors(ops: seq<Op>, k: nat, id: Id): nat
    requires k <= |ops|
  {
    if k == 0 then 0
    else if ops[k - 1].Enqueue? && ops[k - 1].id == id then 0
    else
      var op := ops[k - 1];
      Errors(ops, k - 1, id) + if op.Settle? && op.id == id && op.result.Raised? then 1 else 0
  }

  /** Late or not, a row's attempts are the errors reported for it. */
  lemma {:induction false} AttemptsCountErrors(st: seq<State>, ops: seq<Op>, policy: Retry.Policy, k: nat)
    requires AnyRun(st, ops, policy) && k <= |ops|
    ensures forall id :: id in st[k].events ==> st[k].events[id].attempts == Errors(ops, k, id)
  {
    if k == 0 {
    } else {
      AttemptsCountErrors(st, ops, policy, k - 1);
      assert Enabled(st[k - 1], ops[k - 1]);
    }
  }

  /**
   * A failed send fails the event exactly when it is the event's `maxAttempts`-th error or one
   * that the policy does not retry; otherwise the event goes back to pending, due again within
   * the cap of the batch's own time.
   */
  lemma FailsExactlyAtTheLimit(st: seq<State>, ops: seq<Op>, policy: Retry.Policy, k: nat)
    requires Run(st, ops, policy) && k < |ops| && ops[k].Settle? && ops[k].result.Raised?
    ensures ops[k].id in st[k].events && ops[k].id in st[k + 1].events
    ensures var e, now := st[k + 1].events[ops[k].id], st[k].batches[ops[k].p].now;
            var errors := Errors(ops, k + 1, ops[k].id);
            && errors <= policy.maxAttempts
            && (e.status == Failed <==> errors == policy.maxAttempts || !RetriedAt(ops, policy, k))
            && (e.status == Pending <==> errors < policy.maxAttempts && RetriedAt(ops, policy, k))
            && (e.status == Pending ==>
                  && now <= e.availableAt <= now + policy.maxDelay
                  && e.availableAt == now + Retry.Delay(policy, errors, ops[k].result.hint, ops[k].result.rng))
  {
    NoEventHasTwoOwners(st, ops, policy, k, ops[k].at);
    AttemptsCountErrors(st, ops, policy, k);
    AttemptsCountErrors(st, ops, policy, k + 1);
    assert Enabled(st[k], ops[k]) && Timely(st[k], ops[k]);
    assert Holds(st[k], ops[k].p, ops[k].id, ops[k].at);
  }

  /** The error of step `k` is one that the policy retries. */
  predicate RetriedAt(ops: seq<Op>, policy: Retry.Policy, k: nat)
    requires k < |ops| && ops[k].Settle? && ops[k].result.Raised?
  {
    Retry.Retries(policy, Retry.Error(ops[k].result.retryable, ops[k].result.hint))
  }

  /** Under a policy that retries every error, as the default one does, only exhausted events have failed. */
  lemma {:induction false} FailedMeansExhausted(st: seq<State>, ops: seq<Op>, policy: Retry.Policy, k: nat)
    requires Run(st, ops, policy) && k <= |ops|
    requires forall i :: 0 <= i < k && ops[i].Settle? && ops[i].result.Raised? ==> RetriedAt(ops, policy, i)
    ensures forall id :: id in st[k].events && st[k].events[id].status == Failed ==>
              st[k].events[id].attempts == policy.maxAttempts
  {
    if k == 0 {
    } else {
      FailedMeansExhausted(st, ops, policy, k - 1);
      var op := ops[k - 1];
      assert Enabled(st[k - 1], op) && st[k] == Apply(st[k - 1], op, policy);
      if op.Settle? && op.result.Raised? {
        FailsExactlyAtTheLimit(st, ops, policy, k - 1);
        AttemptsCountErrors(st, ops, policy, k);
      }
    }
  }

  // ----- what a row says -----

  /** What a step says of the event `id`: it was written, its send went well, or its send failed. */
  datatype Word = Nothing | Written(kind: string, payload: string) | Sent(at: Time) | Lost(error: string)

  function WordOn(s: State, op: Op, id: Id): Word {
    match op
    case Enqueue(_, x, kind, payload) => if x == id then Written(kind, payload) else Nothing
    case Settle(_, p, x, r) =>
      if x != id || id !in s.events || p !in s.batches then Nothing
      else if r.Delivered? then Sent(s.batches[p].now) else Lost(r.error)
    case _ => Nothing
  }

  /** The latest word on the event. */
  ghost function LastWord(st: seq<State>, ops: seq<Op>, k: nat, id: Id): Word
    requires |st| == |ops| + 1 && k <= |ops|
  {
    if k == 0 then Nothing
    else
      var w := WordOn(st[k - 1], ops[k - 1], id);
      if w.Nothing? then LastWord(st, ops, k - 1, id) else w
  }

  ghost predicate Says(e: Event, w: Word) {
    match w
    case Nothing => false
    case Written(kind, payload) => e.status == Pending && e.error == None && e.kind == kind && e.payload == payload
    case Sent(at) => e.status == Published && e.publishedAt == Some(at) && e.error == None
    case Lost(error) => e.status in {Pending, Failed} && e.error == Some(error)
  }

  lemma WordStep(s: State, op: Op, policy: Retry.Policy, id: Id, w: Word)
    requires Retry.Valid(policy) && Enabled(s, op) && id in Apply(s, op, policy).events
    requires id in s.events ==> Says(s.events[id], w)
    ensures Says(Apply(s, op, policy).events[id], if WordOn(s, op, id).Nothing? then w else WordOn(s, op, id))
  {
  }

  /**
   * Late or not, a row says what was last said of it: published, and when, exactly if its
   * latest send went well; pending or failed with the error of its latest send if that failed;
   * as written if it was not sent yet.
   */
  lemma {:induction false} RowsSayTheLastWord(st: seq<State>, ops: seq<Op>, policy: Retry.Policy, k: nat, id: Id)
    requires AnyRun(st, ops, policy) && k <= |ops| && id in st[k].events
    ensures Says(st[k].events[id], LastWord(st, ops, k, id))
  {
    if k == 0 {
    } else {
      if id in st[k - 1].events { RowsSayTheLastWord(st, ops, policy, k - 1, id); }
      WordStep(st[k - 1], ops[k - 1], policy, id, LastWord(st, ops, k - 1, id));
    }
  }

  /** A settled row is unlocked and off the batch; a row that is gone ends the whole batch. No other row changes. */
  lemma SettlingUnlocks(s: State, op: Op, policy: Retry.Policy)
    requires Retry.Valid(policy) && Enabled(s, op) && op.Settle?
    ensures var s' := Apply(s, op, policy);
            && s'.events.Keys == s.events.Keys
            && (forall id :: id in s.events && id != op.id ==> s'.events[id] == s.events[id])
            && if op.id in s.events then
                 && s'.events[op.id].lockedUntil == None && op.p in s'.batches
                 && s'.batches[op.p].todo == s.batches[op.p].todo - {op.id}
                 && s'.events[op.id].kind == s.events[op.id].kind && s'.events[op.id].payload == s.events[op.id].payload
               else op.p !in s'.batches
  {
  }

  /** A purge deletes what it was given, published events only, and nothing else. */
  lemma PurgeDeletes(s: State, op: Op, policy: Retry.Policy)
    requires Retry.Valid(policy) && Enabled(s, op) && op.Purge?
    ensures var s' := Apply(s, op, policy);
            && (forall id :: id in s'.events <==> id in s.events && id !in op.ids)
            && (forall id :: id in s'.events ==> s'.events[id] == s.events[id])
            && (forall id :: id in s.events && id !in s'.events ==> s.events[id].status == Published)
  {
  }

  // ----- exactly when an attempt is left -----

  /** A pending event has an attempt left. */
  ghost predicate AttemptsLeft(s: State, maxAttempts: int) {
    forall id :: id in s.events && s.events[id].status == Pending ==> s.events[id].attempts < maxAttempts
  }

  /**
   * The publisher retries an error, judging by the attempts its claim read, and others have
   * moved the row on to its last attempt since.
   */
  predicate Overruns(s: State, op: Op, policy: Retry.Policy) {
    && op.Settle? && op.result.Raised? && op.id in s.events && op.p in s.batches && op.id in s.batches[op.p].todo
    && !GivesUp(s.batches[op.p].todo[op.id], op.result, policy)
    && policy.maxAttempts <= s.events[op.id].attempts + 1
  }

  lemma OverrunIsExact(s: State, op: Op, policy: Retry.Policy)
    requires Retry.Valid(policy) && Enabled(s, op) && AttemptsLeft(s, policy.maxAttempts)
    ensures AttemptsLeft(Apply(s, op, policy), policy.maxAttempts) <==> !Overruns(s, op, policy)
  {
    var s' := Apply(s, op, policy);
    if op.Settle? && op.id in s.events {
      assert op.id in s'.events;
    }
  }

  /** In any run, pending events have an attempt left throughout if and only if no step overruns. */
  lemma {:induction false} AttemptsAreLeftExactly(st: seq<State>, ops: seq<Op>, policy: Retry.Policy, k: nat)
    requires AnyRun(st, ops, policy) && k <= |ops|
    ensures (forall i :: 0 <= i <= k ==> AttemptsLeft(st[i], policy.maxAttempts))
       <==> (forall i {:trigger ops[i]} :: 0 <= i < k ==> !Overruns(st[i], ops[i], policy))
  {
    if k == 0 {
    } else {
      AttemptsAreLeftExactly(st, ops, policy, k - 1);
      assert Enabled(st[k - 1], ops[k - 1]) && st[k] == Apply(st[k - 1], ops[k - 1], policy);
      if AttemptsLeft(st[k - 1], policy.maxAttempts) { OverrunIsExact(st[k - 1], ops[k - 1], policy); }
    }
  }

  /** A step that overruns comes after a lock has run out: timely publishers never do it. */
  lemma TimelyNeverOverruns(st: seq<State>, ops: seq<Op>, policy: Retry.Policy, k: nat)
    requires Run(st, ops, policy) && k < |ops|
    ensures !Overruns(st[k], ops[k], policy)
  {
    if ops[k].Settle? {
      NoEventHasTwoOwners(st, ops, policy, k, ops[k].at);
      assert Enabled(st[k], ops[k]) && Timely(st[k], ops[k]);
      assert Holds(st[k], ops[k].p, ops[k].id, ops[k].at);
    }
  }

  // ----- a late settle that overruns, for every limit of at least two attempts -----

  /** A run of timely steps up to time `at` that ends in `s`. */
  ghost predicate Trail(st: seq<State>, ops: seq<Op>, policy: Retry.Policy, at: Time, s: State) {
    && AnyRun(st, ops, policy) && st[|ops|] == s
    && forall i {:trigger ops[i]} :: 0 <= i < |ops| ==> Timely(st[i], ops[i]) && ops[i].at <= at
  }

  lemma Extend(st: seq<State>, ops: seq<Op>, policy: Retry.Policy, at: Time, s: State, op: Op, s': State)
    returns (st': seq<State>, ops': seq<Op>)
    requires Trail(st, ops, policy, at, s) && at <= op.at
    requires Enabled(s, op) && Timely(s, op) && s' == Apply(s, op, policy)
    ensures Trail(st', ops', policy, op.at, s')
  {
    st', ops' := st + [s'], ops + [op];
    forall i {:trigger ops'[i]} | 0 <= i < |ops'|
      ensures Enabled(st'[i], ops'[i]) && st'[i + 1] == Apply(st'[i], ops'[i], policy)
      ensures Timely(st'[i], ops'[i]) && ops'[i].at <= op.at
    {
      if i < |ops| {
        assert ops'[i] == ops[i];
      }
    }
  }

  const BOOM := Raised("boom", true, None, 0.0)

  /** The one event after `a` errors. */
  function Tried(a: nat): Event {
    NewEvent("task.x", "t", 0.0).(attempts := a, error := if a == 0 then None else Some("boom"))
  }

  function Locked(a: nat, until: Time): Event { Tried(a).(lockedUntil := Some(until)) }

  /** A failed send with attempts to spare and no jitter leaves the event due at once. */
  lemma TriedAgain(e: Event, a: nat, b: nat, policy: Retry.Policy, now: Time)
    requires Retry.Valid(policy) && policy.retryExceptions && b + 1 < policy.maxAttempts
    requires e.(lockedUntil := None) == Tried(a).(availableAt := e.availableAt)
    ensures Settled(e, b, BOOM, policy, now) == Tried(a + 1).(availableAt := now)
  {
    var ceiling := Retry.MinTime(policy.maxDelay, Retry.Grown(policy, b + 1));
    assert Retry.Jitter(0.0, ceiling) == 0.0;
  }

  lemma TakeOnly(s: State, e: Event, at: Time, p: Publisher, policy: Retry.Policy)
    requires Retry.Valid(policy) && s.events == map[0 := e] && Enabled(s, Take(at, p, {0}, 60.0))
    ensures Apply(s, Take(at, p, {0}, 60.0), policy)
         == State(map[0 := e.(lockedUntil := Some(at + 60.0))],
                  s.batches[p := Held(at, at + 60.0, map[0 := e.attempts])])
  {
    assert LockAll(s.events, {0}, at + 60.0) == map[0 := e.(lockedUntil := Some(at + 60.0))];
    assert ReadAttempts(s.events, {0}) == map[0 := e.attempts];
  }

  /** One timely round: taken, failed, dropped. */
  lemma Round(st: seq<State>, ops: seq<Op>, policy: Retry.Policy, a: nat) returns (st': seq<State>, ops': seq<Op>)
    requires Trail(st, ops, policy, 0.0, State(map[0 := Tried(a)], map[]))
    requires a + 1 < policy.maxAttempts && policy.retryExceptions
    ensures Trail(st', ops', policy, 0.0, State(map[0 := Tried(a + 1)], map[]))
  {
    var s0 := State(map[0 := Tried(a)], map[]);
    TakeOnly(s0, Tried(a), 0.0, 1, policy);
    var s1 := State(map[0 := Locked(a, 60.0)], map[1 := Held(0.0, 60.0, map[0 := a])]);
    st', ops' := Extend(st, ops, policy, 0.0, s0, Take(0.0, 1, {0}, 60.0), s1);
    TriedAgain(Locked(a, 60.0), a, a, policy, 0.0);
    var s2 := State(map[0 := Tried(a + 1)], map[1 := Held(0.0, 60.0, map[])]);
    assert map[0 := a] - {0} == map[];
    st', ops' := Extend(st', ops', policy, 0.0, s1, Settle(0.0, 1, 0, BOOM), s2);
    assert s2.batches - {1} == map[];
    st', ops' := Extend(st', ops', policy, 0.0, s2, Drop(0.0, 1), State(map[0 := Tried(a + 1)], map[]));
  }

  lemma {:induction false} Rounds(policy: Retry.Policy, a: nat) returns (st: seq<State>, ops: seq<Op>)
    requires Retry.Valid(policy) && policy.retryExceptions && a < policy.maxAttempts
    ensures Trail(st, ops, policy, 0.0, State(map[0 := Tried(a)], map[]))
  {
    if a == 0 {
      st, ops := [State(map[], map[])], [];
      assert Trail(st, ops, policy, 0.0, State(map[], map[]));
      st, ops := Extend(st, ops, policy, 0.0,
                        State(map[], map[]), Enqueue(0.0, 0, "task.x", "t"), State(map[0 := Tried(0)], map[]));
    } else {
      st, ops := Rounds(policy, a - 1);
      st, ops := Round(st, ops, policy, a - 1);
    }
  }

  /** The event is taken again by a second publisher the moment the first one's lock ran out, and fails there. */
  lemma TakenTwice(policy: Retry.Policy, a: nat) returns (st: seq<State>, ops: seq<Op>)
    requires Retry.Valid(policy) && policy.retryExceptions && a + 1 < policy.maxAttempts
    ensures Trail(st, ops, policy, 61.0,
                  State(map[0 := Tried(a + 1).(availableAt := 60.0)],
                        map[1 := Held(0.0, 60.0, map[0 := a]), 2 := Held(60.0, 120.0, map[])]))
  {
    st, ops := Rounds(policy, a);
    var s0 := State(map[0 := Tried(a)], map[]);
    var slow, quick := Held(0.0, 60.0, map[0 := a]), Held(60.0, 120.0, map[0 := a]);
    TakeOnly(s0, Tried(a), 0.0, 1, policy);
    var s1 := State(map[0 := Locked(a, 60.0)], map[1 := slow]);
    st, ops := Extend(st, ops, policy, 0.0, s0, Take(0.0, 1, {0}, 60.0), s1);
    TakeOnly(s1, Locked(a, 60.0), 60.0, 2, policy);
    var s2 := State(map[0 := Locked(a, 120.0)], map[1 := slow, 2 := quick]);
    st, ops := Extend(st, ops, policy, 0.0, s1, Take(60.0, 2, {0}, 60.0), s2);
    TriedAgain(Locked(a, 120.0), a, a, policy, 60.0);
    assert map[0 := a] - {0} == map[];
    var s3 := State(map[0 := Tried(a + 1).(availableAt := 60.0)], map[1 := slow, 2 := quick.(todo := map[])]);
    assert s2.batches[2 := quick.(todo := map[])] == s3.batches;
    st, ops := Extend(st, ops, policy, 60.0, s2, Settle(61.0, 2, 0, BOOM), s3);
  }

  /**
   * With any policy that retries errors and allows at least two attempts, one settle that comes
   * after its lock ran out and after another publisher's leaves an event pending with no attempt left.
   */
  lemma LateSettleOutrunsTheLimit(policy: Retry.Policy) returns (st: seq<State>, ops: seq<Op>)
    requires Retry.Valid(policy) && policy.retryExceptions && policy.maxAttempts >= 2
    ensures AnyRun(st, ops, policy) && ops != []
    ensures var n := |ops| - 1;
            && (forall i {:trigger ops[i]} :: 0 <= i < n ==> Timely(st[i], ops[i]))
            && !Timely(st[n], ops[n]) && Overruns(st[n], ops[n], policy)
            && 0 in st[n + 1].events && st[n + 1].events[0].status == Pending
            && st[n + 1].events[0].attempts == policy.maxAttempts
  {
    var a := policy.maxAttempts - 2;
    st, ops := TakenTwice(policy, a);
    var n, s, op := |ops|, st[|ops|], Settle(62.0, 1, 0, BOOM);
    TriedAgain(s.events[0], a + 1, a, policy, 0.0);
    st, ops := st + [Apply(s, op, policy)], ops + [op];
    assert forall i {:trigger ops[i]} :: 0 <= i < n ==> ops[i].at <= 61.0;
  }
}
