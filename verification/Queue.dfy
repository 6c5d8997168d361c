/**
 * The in-memory queue and the worker's acknowledge / requeue / dead-letter decision.
 */
module Queue {
  import opened Prelude

  type Id = nat

  datatype Message = Message(id: Id, body: string, receiveCount: nat)

  /** `sent` and `acked` only observe: every id ever sent, and those whose message was acknowledged. */
  datatype State = State(
    waiting: seq<Message>,
    inflight: map<Id, Message>,
    dead: seq<Message>,
    closed: bool,
    sent: set<Id>,
    acked: set<Id>)

  /** How a handler ends: normally, with an error worth a redelivery, or with one that is not. */
  datatype Outcome = Handled | Retryable | NonRetryable

  function Send(q: State, id: Id, body: string): State
    requires !q.closed
  {
    q.(waiting := q.waiting + [Message(id, body, 1)], sent := q.sent + {id})
  }

  function TakeOne(q: State): State
    requires q.waiting != []
  {
    q.(waiting := q.waiting[1..], inflight := q.inflight[q.waiting[0].id := q.waiting[0]])
  }

  function Take(q: State, n: nat): State
    requires n <= |q.waiting|
    decreases n
  {
    if n == 0 then q else Take(TakeOne(q), n - 1)
  }

  /** The first message is taken before the batch size is looked at. */
  function BatchSize(q: State, maxMessages: int): nat {
    if q.closed then 0
    else if |q.waiting| <= Max(maxMessages, 1) then |q.waiting|
    else Max(maxMessages, 1)
  }

  function Ack(q: State, id: Id): State {
    if id in q.inflight then q.(inflight := q.inflight - {id}, acked := q.acked + {id}) else q
  }

  function Nack(q: State, id: Id, requeue: bool): State {
    if id !in q.inflight then q
    else
      var m := q.inflight[id];
      var q' := q.(inflight := q.inflight - {id});
      if requeue
      then q'.(waiting := q'.waiting + [m.(receiveCount := m.receiveCount + 1)])
      else q'.(dead := q'.dead + [m])
  }

  predicate Requeues(m: Message, outcome: Outcome, maxAttempts: int) {
    outcome != NonRetryable && m.receiveCount < maxAttempts
  }

  function Finish(q: State, m: Message, outcome: Outcome, maxAttempts: int): State {
    if outcome == Handled then Ack(q, m.id) else Nack(q, m.id, Requeues(m, outcome, maxAttempts))
  }

  // ----- one message, one place -----

  /** How often a message with this id occurs in `ms`. */
  function Count(ms: seq<Message>, id: Id): nat {
    if ms == [] then 0 else (if ms[0].id == id then 1 else 0) + Count(ms[1..], id)
  }

  /** The number of places that hold the message `id`. */
  ghost function Places(q: State, id: Id): nat {
    Count(q.waiting, id) + (if id in q.inflight then 1 else 0) + Count(q.dead, id) + if id in q.acked then 1 else 0
  }

  ghost predicate Partitioned(q: State) {
    && (forall id: Id :: Places(q, id) == if id in q.sent then 1 else 0)
    && (forall id :: id in q.inflight ==> q.inflight[id].id == id)
  }

  lemma {:induction false} CountAppend(ms: seq<Message>, m: Message, id: Id)
    ensures Count(ms + [m], id) == Count(ms, id) + if m.id == id then 1 else 0
  {
    if ms == [] {
    } else {
      assert (ms + [m])[1..] == ms[1..] + [m];
      CountAppend(ms[1..], m, id);
    }
  }

  // ----- runs of the queue under the worker -----

  datatype Op =
    | SendOp(id: Id, body: string)
    | ReceiveOp(maxMessages: int)
    | FinishOp(id: Id, outcome: Outcome)
    | CloseOp

  predicate Enabled(q: State, op: Op) {
    match op
    case SendOp(id, _) => !q.closed && id !in q.sent
    case FinishOp(id, _) => id in q.inflight
    case _ => true
  }

  function Apply(q: State, op: Op, maxAttempts: int): State
    requires Enabled(q, op)
  {
    match op
    case SendOp(id, body) => Send(q, id, body)
    case ReceiveOp(n) => Take(q, BatchSize(q, n))
    case FinishOp(id, outcome) => Finish(q, q.inflight[id], outcome, maxAttempts)
    case CloseOp => q.(closed := true)
  }

  /** No live or dead message was received more than `maxAttempts` times. */
  ghost predicate Bounded(q: State, maxAttempts: int) {
    && (forall m :: m in q.waiting ==> 1 <= m.receiveCount <= maxAttempts)
    && (forall id :: id in q.inflight ==> 1 <= q.inflight[id].receiveCount <= maxAttempts)
    && (forall m :: m in q.dead ==> 1 <= m.receiveCount <= maxAttempts)
  }

  ghost predicate Inv(q: State, maxAttempts: int) { Partitioned(q) && Bounded(q, maxAttempts) }

  lemma TakeOneKeeps(q: State, maxAttempts: int)
    requires Partitioned(q) && q.waiting != []
    ensures Partitioned(TakeOne(q)) && Work(TakeOne(q), maxAttempts) == Work(q, maxAttempts)
  {
    assert Places(q, q.waiting[0].id) <= 1;
    forall id: Id
      ensures Places(TakeOne(q), id) == Places(q, id)
    {
    }
    TotalInsert(q.inflight, q.waiting[0].id, q.waiting[0], Remaining(maxAttempts));
  }

  lemma TakeOneBounded(q: State, maxAttempts: int)
    requires Bounded(q, maxAttempts) && q.waiting != []
    ensures Bounded(TakeOne(q), maxAttempts)
  {
    assert forall m :: m in q.waiting[1..] ==> m in q.waiting;
    assert q.waiting[0] in q.waiting;
  }

  lemma {:induction false} TakeKeeps(q: State, n: nat, maxAttempts: int)
    requires Inv(q, maxAttempts) && n <= |q.waiting|
    ensures Inv(Take(q, n), maxAttempts) && Work(Take(q, n), maxAttempts) == Work(q, maxAttempts)
    ensures Take(q, n).sent == q.sent && Take(q, n).acked == q.acked && Take(q, n).closed == q.closed
    decreases n
  {
    if n == 0 {
    } else {
      TakeOneKeeps(q, maxAttempts);
      TakeOneBounded(q, maxAttempts);
      TakeKeeps(TakeOne(q), n - 1, maxAttempts);
    }
  }

  lemma FinishPartitions(q: State, m: Message, outcome: Outcome, maxAttempts: int)
    requires Partitioned(q) && m.id in q.inflight && q.inflight[m.id] == m
    ensures Partitioned(Finish(q, m, outcome, maxAttempts))
  {
    var q' := Finish(q, m, outcome, maxAttempts);
    assert Places(q, m.id) <= 1;
    forall id: Id
      ensures Places(q', id) == Places(q, id)
    {
      CountAppend(q.waiting, m.(receiveCount := m.receiveCount + 1), id);
      CountAppend(q.dead, m, id);
    }
  }

  lemma FinishKeeps(q: State, id: Id, outcome: Outcome, maxAttempts: int)
    requires Inv(q, maxAttempts) && id in q.inflight
    ensures Inv(Finish(q, q.inflight[id], outcome, maxAttempts), maxAttempts)
  {
    FinishPartitions(q, q.inflight[id], outcome, maxAttempts);
  }

  lemma SendKeeps(q: State, id: Id, body: string, maxAttempts: int)
    requires Inv(q, maxAttempts) && Enabled(q, SendOp(id, body)) && maxAttempts >= 1
    ensures Inv(Send(q, id, body), maxAttempts)
  {
    forall x: Id
      ensures Places(Send(q, id, body), x) == Places(q, x) + if x == id then 1 else 0
    {
      CountAppend(q.waiting, Message(id, body, 1), x);
    }
  }

  lemma InvStep(q: State, op: Op, maxAttempts: int)
    requires Inv(q, maxAttempts) && Enabled(q, op) && maxAttempts >= 1
    ensures Inv(Apply(q, op, maxAttempts), maxAttempts)
  {
    match op
    case SendOp(id, body) => SendKeeps(q, id, body, maxAttempts);
    case ReceiveOp(n) => TakeKeeps(q, BatchSize(q, n), maxAttempts);
    case FinishOp(id, outcome) => FinishKeeps(q, id, outcome, maxAttempts);
    case CloseOp =>
  }

  const EMPTY := State([], map[], [], false, {}, {})

  ghost predicate Run(st: seq<State>, ops: seq<Op>, maxAttempts: int) {
    && |st| == |ops| + 1
    && forall i {:trigger ops[i]} :: 0 <= i < |ops| ==>
         Enabled(st[i], ops[i]) && st[i + 1] == Apply(st[i], ops[i], maxAttempts)
  }

  /**
   * In every run from an empty queue, each message sent is in exactly one of waiting,
   * in flight, acknowledged and dead-lettered, and was received at most `maxAttempts` times.
   */
  lemma {:induction false} EveryMessageHasOnePlace(st: seq<State>, ops: seq<Op>, k: nat, maxAttempts: int)
    requires Run(st, ops, maxAttempts) && st[0] == EMPTY && k <= |ops| && maxAttempts >= 1
    ensures Inv(st[k], maxAttempts)
  {
    if k == 0 {
    } else {
      EveryMessageHasOnePlace(st, ops, k - 1, maxAttempts);
      InvStep(st[k - 1], ops[k - 1], maxAttempts);
    }
  }

  lemma {:induction false} AckedStays(st: seq<State>, ops: seq<Op>, i: nat, k: nat, maxAttempts: int, id: Id)
    requires Run(st, ops, maxAttempts) && st[0] == EMPTY && i <= k <= |ops| && maxAttempts >= 1 && id in st[i].acked
    ensures id in st[k].acked
    decreases k
  {
    if i == k {
    } else {
      AckedStays(st, ops, i, k - 1, maxAttempts, id);
      EveryMessageHasOnePlace(st, ops, k - 1, maxAttempts);
      if ops[k - 1].ReceiveOp? { TakeKeeps(st[k - 1], BatchSize(st[k - 1], ops[k - 1].maxMessages), maxAttempts); }
    }
  }

  /** A message that was handled is acknowledged for good: it is never again waiting, in flight or a dead letter. */
  lemma HandledIsAcknowledged(st: seq<State>, ops: seq<Op>, i: nat, k: nat, maxAttempts: int)
    requires Run(st, ops, maxAttempts) && st[0] == EMPTY && i < k <= |ops| && maxAttempts >= 1
    requires ops[i].FinishOp? && ops[i].outcome == Handled
    ensures ops[i].id in st[k].acked && ops[i].id !in st[k].inflight
    ensures Count(st[k].waiting, ops[i].id) == 0 && Count(st[k].dead, ops[i].id) == 0
  {
    var id := ops[i].id;
    EveryMessageHasOnePlace(st, ops, i, maxAttempts);
    assert st[i + 1] == Apply(st[i], ops[i], maxAttempts);
    AckedStays(st, ops, i + 1, k, maxAttempts, id);
    EveryMessageHasOnePlace(st, ops, k, maxAttempts);
    assert Places(st[k], id) <= 1;
  }

  /**
   * A failed message is acknowledged by nobody: it waits again, received once more, if the
   * error is worth a retry and it has a delivery left, and is a dead letter otherwise.
   */
  lemma FailedIsKept(q: State, id: Id, outcome: Outcome, maxAttempts: int)
    requires Inv(q, maxAttempts) && id in q.inflight && outcome != Handled
    ensures var q', m := Finish(q, q.inflight[id], outcome, maxAttempts), q.inflight[id];
            && q'.acked == q.acked && id !in q'.inflight
            && if outcome == Retryable && m.receiveCount < maxAttempts
               then q'.waiting == q.waiting + [Message(id, m.body, m.receiveCount + 1)] && q'.dead == q.dead
               else q'.dead == q.dead + [m] && q'.waiting == q.waiting
  {
  }

  // ----- order -----

  function Ids(ms: seq<Message>): (r: seq<Id>)
    ensures |r| == |ms| && forall i :: 0 <= i < |r| ==> r[i] == ms[i].id
  {
    if ms == [] then [] else [ms[0].id] + Ids(ms[1..])
  }

  /** The ids sent by the first `k` steps, in the order of sending. */
  ghost function SentIds(ops: seq<Op>, k: nat): seq<Id>
    requires k <= |ops|
  {
    if k == 0 then [] else SentIds(ops, k - 1) + if ops[k - 1].SendOp? then [ops[k - 1].id] else []
  }

  /** Nothing is put back: no failure is worth a retry. */
  ghost predicate NothingReturns(ops: seq<Op>) {
    forall i :: 0 <= i < |ops| && ops[i].FinishOp? ==> ops[i].outcome != Retryable
  }

  lemma {:induction false} TakeDropsTheFirst(q: State, n: nat)
    requires n <= |q.waiting|
    ensures Ids(Take(q, n).waiting) == Ids(q.waiting)[n..]
    decreases n
  {
    TakeIsSlice(q, n);
  }

  lemma IdsSnoc(ms: seq<Message>, m: Message)
    ensures Ids(ms + [m]) == Ids(ms) + [m.id]
  {
  }

  lemma OrderStep(q: State, op: Op, maxAttempts: int, sent: seq<Id>, n: nat) returns (n': nat)
    requires Enabled(q, op) && (op.FinishOp? ==> op.outcome != Retryable)
    requires n <= |sent| && Ids(q.waiting) == sent[n..]
    ensures var sent' := if op.SendOp? then sent + [op.id] else sent;
            n' <= |sent'| && Ids(Apply(q, op, maxAttempts).waiting) == sent'[n'..]
  {
    n' := n;
    match op
    case SendOp(id, body) => IdsSnoc(q.waiting, Message(id, body, 1));
    case ReceiveOp(m) =>
      TakeDropsTheFirst(q, BatchSize(q, m));
      n' := n + BatchSize(q, m);
    case FinishOp(_, _) =>
    case CloseOp =>
  }

  /** While nothing is put back messages leave the queue in the order in which they were sent. */
  lemma {:induction false} FirstInFirstOut(st: seq<State>, ops: seq<Op>, k: nat, maxAttempts: int) returns (n: nat)
    requires Run(st, ops, maxAttempts) && st[0] == EMPTY && NothingReturns(ops) && k <= |ops| && maxAttempts >= 1
    ensures n <= |SentIds(ops, k)| && Ids(st[k].waiting) == SentIds(ops, k)[n..]
  {
    if k == 0 {
      n := 0;
    } else {
      n := FirstInFirstOut(st, ops, k - 1, maxAttempts);
      n := OrderStep(st[k - 1], ops[k - 1], maxAttempts, SentIds(ops, k - 1), n);
    }
  }

  /** A receive takes as many as it may: never more than asked for, or one, and fewer only if there are no more. */
  lemma BatchesAreFull(q: State, n: int)
    requires !q.closed
    ensures BatchSize(q, n) <= |q.waiting| && BatchSize(q, n) <= Max(n, 1)
    ensures BatchSize(q, n) < Max(n, 1) ==> BatchSize(q, n) == |q.waiting|
  {
  }

  /** Once closed, the queue hands out nothing and takes nothing in; what is in flight can still end. */
  lemma {:induction false} ClosedForGood(st: seq<State>, ops: seq<Op>, i: nat, k: nat, maxAttempts: int)
    requires Run(st, ops, maxAttempts) && i < k < |ops| && ops[i] == CloseOp
    ensures st[k].closed && !ops[k].SendOp? && (ops[k].ReceiveOp? ==> st[k + 1] == st[k])
    decreases k
  {
    assert Enabled(st[k], ops[k]) && st[k + 1] == Apply(st[k], ops[k], maxAttempts);
    assert st[k] == Apply(st[k - 1], ops[k - 1], maxAttempts);
    if k == i + 1 {
    } else {
      ClosedForGood(st, ops, i, k - 1, maxAttempts);
    }
  }

  /** What is waiting or in flight is what was sent: its body never changes. */
  lemma {:induction false} BodiesAreKept(st: seq<State>, ops: seq<Op>, k: nat, maxAttempts: int, m: Message)
    returns (i: nat)
    requires Run(st, ops, maxAttempts) && st[0] == EMPTY && k <= |ops| && maxAttempts >= 1
    requires m in st[k].waiting || m in st[k].inflight.Values || m in st[k].dead
    ensures i < k && ops[i] == SendOp(m.id, m.body)
  {
    var q, op := st[k - 1], ops[k - 1];
    assert Enabled(q, op) && st[k] == Apply(q, op, maxAttempts);
    EveryMessageHasOnePlace(st, ops, k - 1, maxAttempts);
    if op == SendOp(m.id, m.body) && m !in q.waiting && m !in q.inflight.Values && m !in q.dead {
      i := k - 1;
    } else if op.ReceiveOp? {
      TakeKeepsMessages(q, BatchSize(q, op.maxMessages), m);
      i := BodiesAreKept(st, ops, k - 1, maxAttempts, m);
    } else if m in q.waiting || m in q.inflight.Values || m in q.dead {
      i := BodiesAreKept(st, ops, k - 1, maxAttempts, m);
    } else {
      assert op.FinishOp?;
      i := BodiesAreKept(st, ops, k - 1, maxAttempts, q.inflight[op.id]);
    }
  }

  lemma {:induction false} TakeKeepsMessages(q: State, n: nat, m: Message)
    requires n <= |q.waiting|
    requires m in Take(q, n).waiting || m in Take(q, n).inflight.Values || m in Take(q, n).dead
    ensures m in q.waiting || m in q.inflight.Values || m in q.dead
    decreases n
  {
    if n == 0 {
    } else {
      TakeKeepsMessages(TakeOne(q), n - 1, m);
    }
  }

  // ----- a handler that always fails -----

  function Remaining(maxAttempts: int): (Id, Message) -> int {
    (id: Id, m: Message) => maxAttempts + 1 - m.receiveCount
  }

  function WorkOf(ms: seq<Message>, maxAttempts: int): int {
    if ms == [] then 0 else maxAttempts + 1 - ms[0].receiveCount + WorkOf(ms[1..], maxAttempts)
  }

  /** Deliveries left before every live message has used up its attempts. */
  ghost function Work(q: State, maxAttempts: int): int {
    WorkOf(q.waiting, maxAttempts) + Total(q.inflight, Remaining(maxAttempts))
  }

  lemma {:induction false} WorkAppend(ms: seq<Message>, m: Message, maxAttempts: int)
    ensures WorkOf(ms + [m], maxAttempts) == WorkOf(ms, maxAttempts) + maxAttempts + 1 - m.receiveCount
  {
    if ms == [] {
    } else {
      assert (ms + [m])[1..] == ms[1..] + [m];
      WorkAppend(ms[1..], m, maxAttempts);
    }
  }

  lemma {:induction false} WorkIsPositive(ms: seq<Message>, maxAttempts: int)
    requires forall m :: m in ms ==> m.receiveCount <= maxAttempts
    ensures WorkOf(ms, maxAttempts) >= |ms|
  {
    if ms == [] {
    } else {
      WorkIsPositive(ms[1..], maxAttempts);
    }
  }

  /** A requeueing failure costs exactly one delivery; a message that is given up costs all it had left. */
  lemma FailureCosts(q: State, id: Id, outcome: Outcome, maxAttempts: int)
    requires Inv(q, maxAttempts) && id in q.inflight && outcome != Handled
    ensures Work(Finish(q, q.inflight[id], outcome, maxAttempts), maxAttempts)
         == Work(q, maxAttempts) - if outcome == Retryable then 1 else maxAttempts + 1 - q.inflight[id].receiveCount
  {
    var m := q.inflight[id];
    TotalRemove(q.inflight, id, Remaining(maxAttempts));
    WorkAppend(q.waiting, m.(receiveCount := m.receiveCount + 1), maxAttempts);
  }

  function Calls(op: Op): nat { if op.FinishOp? then 1 else 0 }

  ghost function Finishes(ops: seq<Op>, k: nat): nat
    requires k <= |ops|
  {
    if k == 0 then 0 else Finishes(ops, k - 1) + Calls(ops[k - 1])
  }

  predicate Fails(op: Op) { op.ReceiveOp? || (op.FinishOp? && op.outcome != Handled) }

  /** Nothing is sent any more and every handler call fails, each in its own way. */
  ghost predicate OnlyFails(ops: seq<Op>) { forall i :: 0 <= i < |ops| ==> Fails(ops[i]) }

  ghost predicate OnlyRetries(ops: seq<Op>) {
    forall i :: 0 <= i < |ops| && ops[i].FinishOp? ==> ops[i].outcome == Retryable
  }

  lemma FailureStep(q: State, op: Op, maxAttempts: int)
    requires Inv(q, maxAttempts) && Enabled(q, op) && maxAttempts >= 1 && Fails(op)
    ensures var q' := Apply(q, op, maxAttempts);
            && Inv(q', maxAttempts) && q'.sent == q.sent && q'.acked == q.acked && q'.closed == q.closed
            && Work(q', maxAttempts) <= Work(q, maxAttempts) - Calls(op)
            && (op.ReceiveOp? || op.outcome == Retryable ==> Work(q', maxAttempts) == Work(q, maxAttempts) - Calls(op))
  {
    InvStep(q, op, maxAttempts);
    if op.ReceiveOp? {
      TakeKeeps(q, BatchSize(q, op.maxMessages), maxAttempts);
    } else {
      FailureCosts(q, op.id, op.outcome, maxAttempts);
    }
  }

  lemma {:induction false} FailuresUseUpWork(st: seq<State>, ops: seq<Op>, k: nat, maxAttempts: int)
    requires Run(st, ops, maxAttempts) && Inv(st[0], maxAttempts) && OnlyFails(ops) && k <= |ops| && maxAttempts >= 1
    ensures Inv(st[k], maxAttempts) && st[k].sent == st[0].sent && st[k].acked == st[0].acked
    ensures Work(st[k], maxAttempts) <= Work(st[0], maxAttempts) - Finishes(ops, k)
    ensures OnlyRetries(ops) ==> Work(st[k], maxAttempts) == Work(st[0], maxAttempts) - Finishes(ops, k)
  {
    if k == 0 {
    } else {
      FailuresUseUpWork(st, ops, k - 1, maxAttempts);
      FailureStep(st[k - 1], ops[k - 1], maxAttempts);
    }
  }

  predicate Drained(q: State) { q.waiting == [] && q.inflight == map[] }

  lemma WorkMeansLive(q: State, maxAttempts: int)
    requires Bounded(q, maxAttempts)
    ensures Work(q, maxAttempts) >= 0
    ensures Work(q, maxAttempts) == 0 <==> Drained(q)
  {
    WorkIsPositive(q.waiting, maxAttempts);
    TotalBound(q.inflight, Remaining(maxAttempts));
    if q.inflight != map[] {
      var id :| id in q.inflight;
      assert Remaining(maxAttempts)(id, q.inflight[id]) >= 1;
    }
  }

  /**
   * A handler that always fails, in whatever mix of ways, cannot keep a message alive: it is
   * called at most as often as there is work on hand, the queue is drained by then at the
   * latest, and whenever it is drained every message that was not acknowledged before is a
   * dead letter, once. If all failures are retryable, exactly that many calls drain it.
   */
  lemma PoisonEndsInDeadLetters(st: seq<State>, ops: seq<Op>, k: nat, maxAttempts: int)
    requires Run(st, ops, maxAttempts) && Inv(st[0], maxAttempts) && OnlyFails(ops) && k <= |ops| && maxAttempts >= 1
    ensures Finishes(ops, k) <= Work(st[0], maxAttempts)
    ensures Finishes(ops, k) == Work(st[0], maxAttempts) ==> Drained(st[k])
    ensures OnlyRetries(ops) && Drained(st[k]) ==> Finishes(ops, k) == Work(st[0], maxAttempts)
    ensures Drained(st[k]) ==>
              forall id: Id :: Count(st[k].dead, id) == if id in st[0].sent && id !in st[0].acked then 1 else 0
  {
    FailuresUseUpWork(st, ops, k, maxAttempts);
    WorkMeansLive(st[k], maxAttempts);
    assert forall id: Id :: Places(st[k], id) == if id in st[k].sent then 1 else 0;
  }

  /** An open queue that is not drained can move: a receive takes something, or a delivery can end. */
  lemma NotDrainedCanMove(q: State, n: int, outcome: Outcome)
    requires !q.closed && !Drained(q)
    ensures || (Enabled(q, ReceiveOp(n)) && BatchSize(q, n) > 0)
            || exists id :: id in q.inflight && Enabled(q, FinishOp(id, outcome))
  {
    if q.waiting == [] {
      var id :| id in q.inflight;
      assert Enabled(q, FinishOp(id, outcome));
    }
  }

  lemma Prepend(q: State, op: Op, st: seq<State>, ops: seq<Op>, maxAttempts: int)
    requires Enabled(q, op) && Run(st, ops, maxAttempts) && st[0] == Apply(q, op, maxAttempts)
    ensures Run([q] + st, [op] + ops, maxAttempts)
  {
    var st', ops' := [q] + st, [op] + ops;
    forall i {:trigger ops'[i]} | 0 <= i < |ops'|
      ensures Enabled(st'[i], ops'[i]) && st'[i + 1] == Apply(st'[i], ops'[i], maxAttempts)
    {
      if i > 0 {
        assert ops'[i] == ops[i - 1];
      }
    }
  }

  /** So from every state of an open queue failing calls alone, of any kind, reach the end. */
  lemma {:induction false} PoisonCanBeDrained(q: State, outcome: Outcome, maxAttempts: int)
    returns (st: seq<State>, ops: seq<Op>)
    requires Inv(q, maxAttempts) && maxAttempts >= 1 && !q.closed && outcome != Handled
    ensures Run(st, ops, maxAttempts) && st[0] == q && OnlyFails(ops) && Drained(st[|ops|])
    decreases Work(q, maxAttempts), |q.waiting|
  {
    WorkMeansLive(q, maxAttempts);
    if Drained(q) {
      st, ops := [q], [];
    } else {
      var op;
      if q.inflight != map[] {
        var id :| id in q.inflight;
        op := FinishOp(id, outcome);
      } else {
        op := ReceiveOp(1);
        TakeIsSlice(q, BatchSize(q, 1));
      }
      FailureStep(q, op, maxAttempts);
      WorkMeansLive(Apply(q, op, maxAttempts), maxAttempts);
      st, ops := PoisonCanBeDrained(Apply(q, op, maxAttempts), outcome, maxAttempts);
      Prepend(q, op, st, ops, maxAttempts);
      st, ops := [q] + st, [op] + ops;
    }
  }

  // ----- the adapter and the worker -----

  class InMemoryQueueGateway {
    var queue: seq<Message>
    var inflight: map<Id, Message>
    var deadLetter: seq<Message>
    var closed: bool
    ghost var sent: set<Id>
    ghost var acked: set<Id>

    ghost function View(): State
      reads this
    {
      State(queue, inflight, deadLetter, closed, sent, acked)
    }

    constructor ()
      ensures View() == EMPTY
    {
      queue, inflight, deadLetter, closed := [], map[], [], false;
      sent, acked := {}, {};
    }

    method SendMessage(id: Id, body: string) returns (ok: bool)
      modifies this
      ensures ok <==> !old(closed)
      ensures View() == if ok then Send(old(View()), id, body) else old(View())
    {
      if closed { return false; }
      queue := queue + [Message(id, body, 1)];
      sent := sent + {id};
      ok := true;
    }

    /** Takes the head, then more while the batch has room, then marks the whole batch in flight. */
    method Receive(maxMessages: int) returns (messages: seq<Message>)
      modifies this
      ensures View() == Take(old(View()), BatchSize(old(View()), maxMessages))
      ensures messages == old(queue)[..BatchSize(old(View()), maxMessages)]
    {
      messages := [];
      if closed || queue == [] { return; }
      ghost var was := View();
      ghost var n := BatchSize(was, maxMessages);
      messages, queue := [queue[0]], queue[1..];
      while |messages| < maxMessages && queue != []
        invariant 1 <= |messages| <= n && View() == was.(waiting := queue)
        invariant messages == was.waiting[..|messages|] && queue == was.waiting[|messages|..]
        decreases |queue|
      {
        messages, queue := messages + [queue[0]], queue[1..];
      }
      assert |messages| == n;
      assert was.waiting[0..] == was.waiting;
      for i := 0 to |messages|
        invariant queue == was.waiting[n..] && View().(waiting := was.waiting[i..]) == Take(was, i)
      {
        TakeSnoc(was, i);
        TakeIsSlice(was, i);
        inflight := inflight[messages[i].id := messages[i]];
      }
      TakeIsSlice(was, n);
    }

    method Acknowledge(m: Message)
      modifies this
      ensures View() == Ack(old(View()), m.id)
    {
      if m.id in inflight { acked := acked + {m.id}; }
      inflight := inflight - {m.id};
    }

    method Reject(m: Message, requeue: bool)
      modifies this
      ensures View() == Nack(old(View()), m.id, requeue)
    {
      if m.id !in inflight { return; }
      var stored := inflight[m.id];
      inflight := inflight - {m.id};
      if requeue {
        queue := queue + [Message(stored.id, stored.body, stored.receiveCount + 1)];
      } else {
        deadLetter := deadLetter + [stored];
      }
    }
  }

  lemma {:induction false} TakeIsSlice(q: State, n: nat)
    requires n <= |q.waiting|
    ensures Take(q, n).waiting == q.waiting[n..]
    decreases n
  {
    if n == 0 {
    } else {
      TakeIsSlice(TakeOne(q), n - 1);
    }
  }

  lemma {:induction false} TakeSnoc(q: State, n: nat)
    requires n < |q.waiting|
    ensures |Take(q, n).waiting| == |q.waiting| - n && Take(q, n + 1) == TakeOne(Take(q, n))
    decreases n
  {
    TakeIsSlice(q, n);
    if n == 0 {
    } else {
      TakeSnoc(TakeOne(q), n - 1);
    }
  }

  /** One delivery: run the handler, acknowledge, or decide where the message goes next. */
  method Dispatch(gateway: InMemoryQueueGateway, m: Message, outcome: Outcome, maxAttempts: int)
    modifies gateway
    ensures gateway.View() == Finish(old(gateway.View()), m, outcome, maxAttempts)
  {
    if outcome == Handled {
      gateway.Acknowledge(m);
    } else {
      var requeue := outcome != NonRetryable && m.receiveCount < maxAttempts;
      gateway.Reject(m, requeue);
    }
  }
}
