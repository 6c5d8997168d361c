/**
 * The task pipeline with outbox dispatch, end to end: submit and reclaim transactions, the
 * relay's claim / send / settle, a broker that may redeliver, workers that may stop at any
 * point, and purges, all interleaved one statement at a time.
 */
module Pipeline {
  import opened Prelude
  import Tasks
  import Outbox

  type TaskId = Tasks.Id
  type EventId = Outbox.Id
  type PublisherId = nat
  type MessageId = nat
  type DeliveryId = nat

  /** Which entry of which task into the queue an event or message announces. */
  datatype Tag = Tag(task: TaskId, epoch: nat)

  datatype SendPhase = Unsent | WasSent | HasRaised

  /** A relay's batch: the records still to settle, and how far the first of them is. */
  datatype Batch = Batch(todo: seq<EventId>, phase: SendPhase)

  datatype Place = Waiting | Out | Dead

  /** A worker's handling of one delivery; only `BeforeClaim` precedes the claim attempt. */
  datatype Phase = BeforeClaim | Running | Skipped | Completed | Errored

  datatype Delivery = Delivery(message: MessageId, phase: Phase)

  /**
   * `epochs`, `tags` and `sent` only observe: how often a task entered the queue, what every
   * event ever written announces, and which events reached the broker at least once.
   */
  datatype State = State(
    tasks: Tasks.Table,
    events: Outbox.Table,
    publishers: map<PublisherId, Batch>,
    messages: map<MessageId, Tag>,
    broker: map<MessageId, Place>,
    deliveries: map<DeliveryId, Delivery>,
    epochs: map<TaskId, nat>,
    tags: map<EventId, Tag>,
    sent: set<EventId>)

  const EMPTY := State(map[], map[], map[], map[], map[], map[], map[], map[], {})

  function Epoch(s: State, t: TaskId): nat { if t in s.epochs then s.epochs[t] else 0 }

  function Current(s: State, t: TaskId): Tag { Tag(t, Epoch(s, t)) }

  // ----- the steps -----

  datatype Step =
    | Submit(task: TaskId, event: EventId, now: Time, kind: string, requestId: Option<string>, expiresAt: Time)
    | Reclaim(ids: seq<TaskId>, events: seq<EventId>, now: Time, maxAttempts: int)
    | ClaimEvents(p: PublisherId, rows: seq<EventId>, now: Time, lock: Time)
    | Send(p: PublisherId, message: MessageId)
    | SendRaises(p: PublisherId, enqueued: Option<MessageId>)  // the broker may have taken it all the same
    | MarkPublished(p: PublisherId, now: Time)
    | MarkFailed(p: PublisherId, error: string, retryAt: Option<Time>)
    | StopPublisher(p: PublisherId)
    | PurgeEvents(gone: set<EventId>)
    | PurgeTasks(stale: set<TaskId>, now: Time)
    | Receive(message: MessageId, delivery: DeliveryId)
    | Redeliver(message: MessageId, toDead: bool)
    | ClaimTask(delivery: DeliveryId, now: Time, lease: Time)
    | FinishTask(delivery: DeliveryId, now: Time, ok: bool, detail: string)
    | Ack(delivery: DeliveryId, dropWaiting: bool)
    | Nack(delivery: DeliveryId, requeue: bool)
    | StopWorker(delivery: DeliveryId)  // at any point of the handling, and nobody is told

  predicate HeadIs(s: State, p: PublisherId, phase: SendPhase) {
    p in s.publishers && s.publishers[p].todo != [] && s.publishers[p].phase == phase
      && s.publishers[p].todo[0] in s.tags
  }

  predicate HasMessage(s: State, d: DeliveryId) { d in s.deliveries && s.deliveries[d].message in s.messages }

  /** The reclaim query returned distinct rows whose lease has expired; new event ids are fresh. */
  predicate Reclaimable(s: State, ids: seq<TaskId>, es: seq<EventId>, now: Time) {
    && |ids| == |es|
    && (forall i :: 0 <= i < |ids| ==>
          ids[i] in s.tasks && Tasks.LeaseExpired(s.tasks[ids[i]], now) && es[i] !in s.tags)
    && (forall i, j :: 0 <= i < j < |ids| ==> ids[i] != ids[j] && es[i] != es[j])
  }

  predicate AllDue(s: State, rows: seq<EventId>, now: Time) {
    forall i :: 0 <= i < |rows| ==> rows[i] in s.events && Outbox.Due(s.events[rows[i]], now)
  }

  predicate AllPublished(s: State, gone: set<EventId>) {
    forall e :: e in gone ==> e in s.events && s.events[e].status == Outbox.Published
  }

  predicate Enabled(s: State, a: Step) {
    match a
    case Submit(t, e, _, _, _, _) => t !in s.tasks && e !in s.tags
    case Reclaim(ids, es, now, _) => Reclaimable(s, ids, es, now)
    case ClaimEvents(p, rows, now, lock) =>
      p !in s.publishers && lock > 0.0 && AllDue(s, rows, now)
    case Send(p, m) => HeadIs(s, p, Unsent) && m !in s.messages
    case SendRaises(p, m) => HeadIs(s, p, Unsent) && (m.Some? ==> m.value !in s.messages)
    case MarkPublished(p, _) => HeadIs(s, p, WasSent)
    case MarkFailed(p, _, _) => HeadIs(s, p, HasRaised)
    case StopPublisher(p) => p in s.publishers
    case PurgeEvents(gone) => AllPublished(s, gone)
    case PurgeTasks(stale, now) => forall t :: t in stale ==> t in s.tasks && s.tasks[t].expiresAt <= now
    case Receive(m, d) => m in s.broker && s.broker[m] == Waiting && d !in s.deliveries
    case Redeliver(m, _) => m in s.broker && s.broker[m] == Out
    case ClaimTask(d, _, lease) => HasMessage(s, d) && s.deliveries[d].phase == BeforeClaim && lease > 0.0
    case FinishTask(d, _, _, _) => HasMessage(s, d) && s.deliveries[d].phase == Running
    case Ack(d, _) => HasMessage(s, d) && s.deliveries[d].phase in {Skipped, Completed}
    case Nack(d, _) => HasMessage(s, d)
    case StopWorker(d) => d in s.deliveries
  }

  /** Write the outbox event of a task that has just entered the queue. */
  function Announce(s: State, t: TaskId, e: EventId, kind: string, now: Time): State {
    var tag := Tag(t, Epoch(s, t) + 1);
    s.(events := s.events[e := Outbox.NewEvent("task." + kind, t, now)],
       epochs := s.epochs[t := tag.epoch],
       tags := s.tags[e := tag])
  }

  function ReclaimOne(s: State, t: TaskId, e: EventId, now: Time, maxAttempts: int): (r: State)
    requires t in s.tasks
    ensures r.tasks == s.tasks[t := Tasks.Reclaimed(s.tasks[t], maxAttempts)]
    ensures forall x :: x in r.tags ==> x in s.tags || x == e
  {
    var row := Tasks.Reclaimed(s.tasks[t], maxAttempts);
    var s' := s.(tasks := s.tasks[t := row]);
    if row.status == Tasks.Queued then Announce(s', t, e, row.kind, now) else s'
  }

  /** The reclaim transaction, row by row. */
  function ReclaimMany(s: State, ids: seq<TaskId>, es: seq<EventId>, k: nat, now: Time, maxAttempts: int): (r: State)
    requires k <= |ids| == |es| && forall i :: 0 <= i < |ids| ==> ids[i] in s.tasks
    ensures r.tasks.Keys == s.tasks.Keys
  {
    if k == 0 then s
    else ReclaimOne(ReclaimMany(s, ids, es, k - 1, now, maxAttempts), ids[k - 1], es[k - 1], now, maxAttempts)
  }

  /** The first record of the batch is done. */
  function Advance(s: State, p: PublisherId): State
    requires p in s.publishers && s.publishers[p].todo != []
  {
    s.(publishers := s.publishers[p := Batch(s.publishers[p].todo[1..], Unsent)])
  }

  function Enqueue(s: State, e: EventId, m: MessageId): State
    requires e in s.tags
  {
    s.(messages := s.messages[m := s.tags[e]], broker := s.broker[m := Waiting], sent := s.sent + {e})
  }

  function Move(s: State, d: DeliveryId, phase: Phase): State
    requires d in s.deliveries
  {
    s.(deliveries := s.deliveries[d := s.deliveries[d].(phase := phase)])
  }

  function Submitted(s: State, t: TaskId, e: EventId, row: Tasks.Task, now: Time): State {
    Announce(s.(tasks := s.tasks[t := row]), t, e, row.kind, now)
  }

  function EventsClaimed(s: State, p: PublisherId, rows: seq<EventId>, until: Time): State {
    s.(events := Outbox.LockAll(s.events, Outbox.Elems(rows), until),
       publishers := s.publishers[p := Batch(rows, Unsent)])
  }

  function Stopped(s: State, p: PublisherId): State { s.(publishers := s.publishers - {p}) }

  function EventsPurged(s: State, gone: set<EventId>): State { s.(events := s.events - gone) }

  function Attempted(s: State, p: PublisherId, m: Option<MessageId>, phase: SendPhase): State
    requires p in s.publishers && s.publishers[p].todo != [] && s.publishers[p].todo[0] in s.tags
  {
    var b := s.publishers[p];
    var s' := if m.Some? then Enqueue(s, b.todo[0], m.value) else s;
    s'.(publishers := s.publishers[p := b.(phase := phase)])
  }

  /** The terminal write of a record's outcome; a missing row raises and ends the batch. */
  function Marked(s: State, p: PublisherId, row: Option<Outbox.Event>): State
    requires p in s.publishers && s.publishers[p].todo != []
  {
    match row
    case None => s.(publishers := s.publishers - {p})
    case Some(e) => Advance(s, p).(events := s.events[s.publishers[p].todo[0] := e])
  }

  function Head(s: State, p: PublisherId): Option<Outbox.Event>
    requires p in s.publishers && s.publishers[p].todo != []
  {
    var e := s.publishers[p].todo[0];
    if e in s.events then Some(s.events[e]) else None
  }

  function Received(s: State, m: MessageId, d: DeliveryId): State {
    s.(broker := s.broker[m := Out], deliveries := s.deliveries[d := Delivery(m, BeforeClaim)])
  }

  function Redelivered(s: State, m: MessageId, toDead: bool): State {
    s.(broker := s.broker[m := if toDead then Dead else Waiting])
  }

  function ClaimAttempted(s: State, d: DeliveryId, now: Time, lease: Time): State
    requires HasMessage(s, d)
  {
    var t := s.messages[s.deliveries[d].message].task;
    if t !in s.tasks then s  // the lookup raises; only a nack can follow
    else if Tasks.Claimable(s.tasks[t], now)
    then Move(s.(tasks := s.tasks[t := Tasks.Claimed(s.tasks[t], now, lease)]), d, Running)
    else Move(s, d, Skipped)
  }

  function Finished(s: State, d: DeliveryId, ok: bool, detail: string): State
    requires HasMessage(s, d)
  {
    var t := s.messages[s.deliveries[d].message].task;
    if t !in s.tasks then Move(s, d, Errored)
    else if ok
    then Move(s.(tasks := s.tasks[t := Tasks.Settled(s.tasks[t], Tasks.Completed, Some(detail), None)]), d, Completed)
    else Move(s.(tasks := s.tasks[t := Tasks.Settled(s.tasks[t], Tasks.Failed, None, Some(detail))]), d, Errored)
  }

  function Acked(s: State, d: DeliveryId, dropWaiting: bool): State
    requires d in s.deliveries
  {
    var m := s.deliveries[d].message;
    var gone := m in s.broker && (s.broker[m] == Out || (s.broker[m] == Waiting && dropWaiting));
    s.(deliveries := s.deliveries - {d}, broker := if gone then s.broker - {m} else s.broker)
  }

  function Abandoned(s: State, d: DeliveryId): State { s.(deliveries := s.deliveries - {d}) }

  function Nacked(s: State, d: DeliveryId, requeue: bool): State
    requires d in s.deliveries
  {
    var m := s.deliveries[d].message;
    s.(deliveries := s.deliveries - {d},
       broker := if m in s.broker && s.broker[m] == Out
                 then s.broker[m := if requeue then Waiting else Dead] else s.broker)
  }

  function Apply(s: State, a: Step): State
    requires Enabled(s, a)
  {
    match a
    case Submit(t, e, now, kind, requestId, expiresAt) =>
      Submitted(s, t, e, Tasks.NewTask(kind, requestId, expiresAt), now)
    case Reclaim(ids, es, now, maxAttempts) => ReclaimMany(s, ids, es, |ids|, now, maxAttempts)
    case ClaimEvents(p, rows, now, lock) => EventsClaimed(s, p, rows, now + lock)
    case Send(p, m) => Attempted(s, p, Some(m), WasSent)
    case SendRaises(p, m) => Attempted(s, p, m, HasRaised)
    case MarkPublished(p, now) =>
      var h := Head(s, p);
      Marked(s, p, if h.None? then None else Some(Outbox.PublishedEvent(h.value, now)))
    case MarkFailed(p, error, retryAt) =>
      var h := Head(s, p);
      Marked(s, p, if h.None? then None else Some(Outbox.FailedEvent(h.value, error, retryAt)))
    case StopPublisher(p) => Stopped(s, p)
    case PurgeEvents(gone) => EventsPurged(s, gone)
    case PurgeTasks(stale, _) => s.(tasks := s.tasks - stale)
    case Receive(m, d) => Received(s, m, d)
    case Redeliver(m, toDead) => Redelivered(s, m, toDead)
    case ClaimTask(d, now, lease) => ClaimAttempted(s, d, now, lease)
    case FinishTask(d, _, ok, detail) => Finished(s, d, ok, detail)
    case Ack(d, dropWaiting) => Acked(s, d, dropWaiting)
    case Nack(d, requeue) => Nacked(s, d, requeue)
    case StopWorker(d) => Abandoned(s, d)
  }

  ghost predicate Run(st: seq<State>, steps: seq<Step>) {
    && |st| == |steps| + 1
    && forall i {:trigger steps[i]} :: 0 <= i < |steps| ==>
         Enabled(st[i], steps[i]) && st[i + 1] == Apply(st[i], steps[i])
  }

  // ----- the invariant -----

  ghost predicate Queued(s: State, t: TaskId) { t in s.tasks && s.tasks[t].status == Tasks.Queued }

  datatype Witness = AnEvent(e: EventId) | AMessage(m: MessageId)

  /**
   * `w` announces the task's present stay in the queue: an event no broker has seen yet, or a
   * message that the broker still holds, whether it is waiting, handed out or dead-lettered.
   */
  ghost predicate Announces(s: State, t: TaskId, w: Witness) {
    match w
    case AnEvent(e) =>
      && e in s.events && s.events[e].status != Outbox.Published
      && e in s.tags && s.tags[e] == Current(s, t) && e !in s.sent
    case AMessage(m) => m in s.broker && m in s.messages && s.messages[m] == Current(s, t)
  }

  ghost predicate Announced(s: State, t: TaskId) { exists w :: Announces(s, t, w) }

  /** The stay in the queue that `tag` announces is over. */
  ghost predicate Consumed(s: State, tag: Tag) { tag.epoch < Epoch(s, tag.task) || !Queued(s, tag.task) }

  ghost predicate EventsOk(s: State) {
    && (forall e :: e in s.events ==> e in s.tags && s.events[e].payload == s.tags[e].task)
    && (forall e :: e in s.events && s.events[e].status == Outbox.Published ==> e in s.sent)
    && (forall e :: e in s.sent ==> e in s.tags)
    && (forall e :: e in s.tags ==> s.tags[e].epoch <= Epoch(s, s.tags[e].task))
  }

  ghost predicate PublishersOk(s: State) {
    forall p :: p in s.publishers ==>
      var b := s.publishers[p];
      && (forall i :: 0 <= i < |b.todo| ==> b.todo[i] in s.tags)
      && (b.phase == WasSent && b.todo != [] ==> b.todo[0] in s.sent)
  }

  ghost predicate DeliveryOk(s: State, d: Delivery) {
    && d.message in s.messages
    && (d.phase == BeforeClaim || Consumed(s, s.messages[d.message]))
  }

  ghost predicate MessagesOk(s: State) {
    && (forall m :: m in s.broker ==> m in s.messages)
    && (forall m :: m in s.messages ==> s.messages[m].epoch <= Epoch(s, s.messages[m].task))
    && (forall d :: d in s.deliveries ==> DeliveryOk(s, s.deliveries[d]))
  }

  ghost predicate Books(s: State) { EventsOk(s) && PublishersOk(s) && MessagesOk(s) }

  ghost predicate AllAnnounced(s: State) { forall t :: Queued(s, t) ==> Announced(s, t) }

  ghost predicate Inv(s: State) { Books(s) && AllAnnounced(s) }

  // ----- it is kept -----

  lemma SubmitBooks(s: State, t: TaskId, e: EventId, row: Tasks.Task, now: Time)
    requires Books(s) && e !in s.tags && !Queued(s, t)
    ensures Books(Submitted(s, t, e, row, now))
  {
    var s' := Submitted(s, t, e, row, now);
    assert forall u :: Epoch(s, u) <= Epoch(s', u);
    forall d | d in s'.deliveries
      ensures DeliveryOk(s', s'.deliveries[d])
    {
      assert DeliveryOk(s, s.deliveries[d]);
      assert s.messages[s.deliveries[d].message].epoch <= Epoch(s, s.messages[s.deliveries[d].message].task);
    }
  }

  lemma SubmitKeeps(s: State, t: TaskId, e: EventId, row: Tasks.Task, now: Time)
    requires Inv(s) && e !in s.tags && !Queued(s, t)
    ensures Inv(Submitted(s, t, e, row, now))
  {
    var s' := Submitted(s, t, e, row, now);
    SubmitBooks(s, t, e, row, now);
    assert e !in s.sent;
    forall u | Queued(s', u)
      ensures Announced(s', u)
    {
      if u == t {
        assert Announces(s', t, AnEvent(e));
      } else {
        assert Queued(s, u);
        var w :| Announces(s, u, w);
        assert Announces(s', u, w);
      }
    }
  }

  /** Rows that change without entering the queue, and rows that vanish, need no new announcement. */
  lemma TasksLeave(s: State, s': State)
    requires Inv(s) && s' == s.(tasks := s'.tasks)
    requires forall t :: Queued(s', t) ==> Queued(s, t)
    ensures Inv(s')
  {
    assert EventsOk(s') && PublishersOk(s');
    forall d | d in s'.deliveries
      ensures DeliveryOk(s', s'.deliveries[d])
    {
      assert DeliveryOk(s, s.deliveries[d]);
    }
    forall t | Queued(s', t)
      ensures Announced(s', t)
    {
      var w :| Announces(s, t, w);
      assert Announces(s', t, w);
    }
  }

  lemma RequeueKeeps(s: State, t: TaskId, e: EventId, now: Time, maxAttempts: int)
    requires Inv(s) && t in s.tasks && s.tasks[t].status == Tasks.Processing && e !in s.tags
    ensures Inv(ReclaimOne(s, t, e, now, maxAttempts))
  {
    var row := Tasks.Reclaimed(s.tasks[t], maxAttempts);
    if row.status == Tasks.Queued {
      SubmitKeeps(s, t, e, row, now);
    } else {
      TasksLeave(s, s.(tasks := s.tasks[t := row]));
    }
  }

  lemma {:induction false} ReclaimLeavesOthers(
    s: State, ids: seq<TaskId>, es: seq<EventId>, k: nat, i: nat, now: Time, maxAttempts: int)
    requires Reclaimable(s, ids, es, now) && k <= i < |ids|
    ensures ReclaimMany(s, ids, es, k, now, maxAttempts).tasks[ids[i]] == s.tasks[ids[i]]
    ensures es[i] !in ReclaimMany(s, ids, es, k, now, maxAttempts).tags
  {
    if k == 0 {
    } else {
      ReclaimLeavesOthers(s, ids, es, k - 1, i, now, maxAttempts);
      assert ids[k - 1] != ids[i] && es[k - 1] != es[i];
    }
  }

  lemma NextIsStale(s: State, ids: seq<TaskId>, es: seq<EventId>, k: nat, now: Time, maxAttempts: int)
    requires Reclaimable(s, ids, es, now) && k < |ids|
    ensures ReclaimMany(s, ids, es, k, now, maxAttempts).tasks[ids[k]].status == Tasks.Processing
    ensures es[k] !in ReclaimMany(s, ids, es, k, now, maxAttempts).tags
  {
    ReclaimLeavesOthers(s, ids, es, k, k, now, maxAttempts);
  }

  lemma ReclaimNextKeeps(s: State, ids: seq<TaskId>, es: seq<EventId>, k: nat, now: Time, maxAttempts: int)
    requires Reclaimable(s, ids, es, now) && k < |ids| && Inv(ReclaimMany(s, ids, es, k, now, maxAttempts))
    ensures Inv(ReclaimMany(s, ids, es, k + 1, now, maxAttempts))
  {
    NextIsStale(s, ids, es, k, now, maxAttempts);
    RequeueKeeps(ReclaimMany(s, ids, es, k, now, maxAttempts), ids[k], es[k], now, maxAttempts);
  }

  lemma ReclaimKeeps(s: State, ids: seq<TaskId>, es: seq<EventId>, now: Time, maxAttempts: int)
    requires Inv(s) && Reclaimable(s, ids, es, now)
    ensures Inv(ReclaimMany(s, ids, es, |ids|, now, maxAttempts))
  {
    for k := 0 to |ids|
      invariant Inv(ReclaimMany(s, ids, es, k, now, maxAttempts))
    {
      ReclaimNextKeeps(s, ids, es, k, now, maxAttempts);
    }
  }

  /** Steps that touch only the outbox and the relay, and keep every unsent event to be sent. */
  lemma OutboxKeeps(s: State, s': State)
    requires Inv(s) && s' == s.(events := s'.events, publishers := s'.publishers)
    requires EventsOk(s') && PublishersOk(s')
    requires forall e :: e in s.events && e !in s.sent && s.events[e].status != Outbox.Published ==>
               e in s'.events && s'.events[e].status != Outbox.Published
    ensures Inv(s')
  {
    forall d | d in s'.deliveries
      ensures DeliveryOk(s', s'.deliveries[d])
    {
      assert DeliveryOk(s, s.deliveries[d]);
    }
    forall t | Queued(s', t)
      ensures Announced(s', t)
    {
      assert Queued(s, t);
      var w :| Announces(s, t, w);
      assert Announces(s', t, w);
    }
  }

  lemma MarkKeeps(s: State, p: PublisherId, row: Option<Outbox.Event>)
    requires Inv(s) && p in s.publishers && s.publishers[p].todo != []
    requires row.Some? ==> Head(s, p).Some? && row.value.payload == Head(s, p).value.payload
    requires row.Some? && row.value.status == Outbox.Published ==> s.publishers[p].todo[0] in s.sent
    ensures Inv(Marked(s, p, row))
  {
    var s' := Marked(s, p, row);
    assert PublishersOk(s');
    OutboxKeeps(s, s');
  }

  lemma StopKeeps(s: State, p: PublisherId)
    requires Inv(s)
    ensures Inv(Stopped(s, p))
  {
    OutboxKeeps(s, Stopped(s, p));
  }

  /** Purging takes published events only, and a published event reached the broker. */
  lemma PurgeKeeps(s: State, gone: set<EventId>)
    requires Inv(s) && AllPublished(s, gone)
    ensures Inv(EventsPurged(s, gone))
  {
    OutboxKeeps(s, EventsPurged(s, gone));
  }

  lemma EnqueueBooks(s: State, e: EventId, m: MessageId)
    requires Books(s) && e in s.tags && m !in s.messages
    ensures Books(Enqueue(s, e, m))
  {
    var s' := Enqueue(s, e, m);
    forall d | d in s'.deliveries
      ensures DeliveryOk(s', s'.deliveries[d])
    {
      assert DeliveryOk(s, s.deliveries[d]);
    }
  }

  /** The relay's send: the event stops counting, its message starts to. */
  lemma EnqueueKeeps(s: State, e: EventId, m: MessageId)
    requires Inv(s) && e in s.tags && m !in s.messages
    ensures Inv(Enqueue(s, e, m))
  {
    var s' := Enqueue(s, e, m);
    EnqueueBooks(s, e, m);
    forall t | Queued(s', t)
      ensures Announced(s', t)
    {
      assert Queued(s, t);
      var w :| Announces(s, t, w);
      assert Announces(s', t, if w == AnEvent(e) then AMessage(m) else w);
    }
  }

  lemma AttemptKeeps(s: State, p: PublisherId, m: Option<MessageId>, phase: SendPhase)
    requires Inv(s) && HeadIs(s, p, Unsent) && (m.Some? ==> m.value !in s.messages) && (phase == WasSent ==> m.Some?)
    ensures Inv(Attempted(s, p, m, phase))
  {
    var e := s.publishers[p].todo[0];
    var s1 := if m.Some? then Enqueue(s, e, m.value) else s;
    if m.Some? {
      EnqueueKeeps(s, e, m.value);
    }
    PhaseKeeps(s1, p, phase);
  }

  lemma PhaseKeeps(s: State, p: PublisherId, phase: SendPhase)
    requires Inv(s) && p in s.publishers && s.publishers[p].todo != []
    requires phase == WasSent ==> s.publishers[p].todo[0] in s.sent
    ensures Inv(s.(publishers := s.publishers[p := s.publishers[p].(phase := phase)]))
  {
    OutboxKeeps(s, s.(publishers := s.publishers[p := s.publishers[p].(phase := phase)]));
  }

  lemma ReceiveBooks(s: State, m: MessageId, d: DeliveryId)
    requires Books(s) && m in s.broker && d !in s.deliveries
    ensures Books(Received(s, m, d))
  {
    var s' := Received(s, m, d);
    forall x | x in s'.deliveries
      ensures DeliveryOk(s', s'.deliveries[x])
    {
      assert x != d ==> DeliveryOk(s, s.deliveries[x]);
    }
  }

  lemma ReceiveKeeps(s: State, m: MessageId, d: DeliveryId)
    requires Inv(s) && m in s.broker && d !in s.deliveries
    ensures Inv(Received(s, m, d))
  {
    var s' := Received(s, m, d);
    ReceiveBooks(s, m, d);
    forall t | Queued(s', t)
      ensures Announced(s', t)
    {
      assert Queued(s, t);
      var w :| Announces(s, t, w);
      assert Announces(s', t, w);
    }
  }

  lemma RedeliverKeeps(s: State, m: MessageId, place: Place)
    requires Inv(s) && m in s.broker
    ensures Inv(s.(broker := s.broker[m := place]))
  {
    var s' := s.(broker := s.broker[m := place]);
    forall x | x in s'.deliveries
      ensures DeliveryOk(s', s'.deliveries[x])
    {
      assert DeliveryOk(s, s.deliveries[x]);
    }
    forall t | Queued(s', t)
      ensures Announced(s', t)
    {
      assert Queued(s, t);
      var w :| Announces(s, t, w);
      assert Announces(s', t, w);
    }
  }

  /** A delivery whose stay in the queue is over may move on. */
  lemma MoveKeeps(s: State, d: DeliveryId, phase: Phase)
    requires Inv(s) && HasMessage(s, d) && Consumed(s, s.messages[s.deliveries[d].message])
    ensures Inv(Move(s, d, phase))
  {
    var s' := Move(s, d, phase);
    forall x | x in s'.deliveries
      ensures DeliveryOk(s', s'.deliveries[x])
    {
      assert DeliveryOk(s, s.deliveries[x]);
    }
    forall t | Queued(s', t)
      ensures Announced(s', t)
    {
      assert Queued(s, t);
      var w :| Announces(s, t, w);
      assert Announces(s', t, w);
    }
  }

  /** The claim attempt: granted or refused, the task is not in the queue afterwards. */
  lemma ClaimKeeps(s: State, d: DeliveryId, now: Time, lease: Time)
    requires Inv(s) && HasMessage(s, d)
    ensures Inv(ClaimAttempted(s, d, now, lease))
  {
    var t := s.messages[s.deliveries[d].message].task;
    if t in s.tasks {
      if Tasks.Claimable(s.tasks[t], now) {
        var s1 := s.(tasks := s.tasks[t := Tasks.Claimed(s.tasks[t], now, lease)]);
        TasksLeave(s, s1);
        MoveKeeps(s1, d, Running);
      } else {
        MoveKeeps(s, d, Skipped);
      }
    }
  }

  lemma FinishKeeps(s: State, d: DeliveryId, ok: bool, detail: string)
    requires Inv(s) && HasMessage(s, d) && s.deliveries[d].phase != BeforeClaim
    ensures Inv(Finished(s, d, ok, detail))
  {
    var t := s.messages[s.deliveries[d].message].task;
    if t in s.tasks {
      var row := if ok then Tasks.Settled(s.tasks[t], Tasks.Completed, Some(detail), None)
                 else Tasks.Settled(s.tasks[t], Tasks.Failed, None, Some(detail));
      var s1 := s.(tasks := s.tasks[t := row]);
      TasksLeave(s, s1);
      MoveKeeps(s1, d, if ok then Completed else Errored);
    } else {
      MoveKeeps(s, d, Errored);
    }
  }

  /** Acknowledging removes only a message whose stay in the queue is over. */
  lemma AckKeeps(s: State, d: DeliveryId, dropWaiting: bool)
    requires Inv(s) && HasMessage(s, d) && s.deliveries[d].phase != BeforeClaim
    ensures Inv(Acked(s, d, dropWaiting))
  {
    var s', m := Acked(s, d, dropWaiting), s.deliveries[d].message;
    assert DeliveryOk(s, s.deliveries[d]);
    assert Consumed(s, s.messages[m]);
    forall x | x in s'.deliveries
      ensures DeliveryOk(s', s'.deliveries[x])
    {
      assert DeliveryOk(s, s.deliveries[x]);
    }
    forall t | Queued(s', t)
      ensures Announced(s', t)
    {
      assert Queued(s, t);
      var w :| Announces(s, t, w);
      assert w != AMessage(m);
      assert Announces(s', t, w);
    }
  }

  /** Dropping a delivery at whatever point loses nothing: the broker still holds the message. */
  lemma AbandonKeeps(s: State, d: DeliveryId)
    requires Inv(s) && d in s.deliveries
    ensures Inv(Abandoned(s, d))
  {
    var s' := Abandoned(s, d);
    forall x | x in s'.deliveries
      ensures DeliveryOk(s', s'.deliveries[x])
    {
      assert DeliveryOk(s, s.deliveries[x]);
    }
    forall t | Queued(s', t)
      ensures Announced(s', t)
    {
      assert Queued(s, t);
      var w :| Announces(s, t, w);
      assert Announces(s', t, w);
    }
  }

  /** Rejecting a delivery leaves its message stored. */
  lemma NackKeeps(s: State, d: DeliveryId, requeue: bool)
    requires Inv(s) && HasMessage(s, d)
    ensures Inv(Nacked(s, d, requeue))
  {
    var s', m := Nacked(s, d, requeue), s.deliveries[d].message;
    assert DeliveryOk(s, s.deliveries[d]);
    forall x | x in s'.deliveries
      ensures DeliveryOk(s', s'.deliveries[x])
    {
      assert DeliveryOk(s, s.deliveries[x]);
    }
    forall t | Queued(s', t)
      ensures Announced(s', t)
    {
      assert Queued(s, t);
      var w :| Announces(s, t, w);
      assert Announces(s', t, w);
    }
  }

  lemma TaskStep(s: State, a: Step)
    requires Inv(s) && Enabled(s, a) && (a.Submit? || a.Reclaim? || a.PurgeTasks? || a.ClaimTask? || a.FinishTask?)
    ensures Inv(Apply(s, a))
  {
    match a
    case Submit(t, e, now, kind, requestId, expiresAt) =>
      SubmitKeeps(s, t, e, Tasks.NewTask(kind, requestId, expiresAt), now);
    case Reclaim(ids, es, now, maxAttempts) => ReclaimKeeps(s, ids, es, now, maxAttempts);
    case PurgeTasks(stale, _) => TasksLeave(s, s.(tasks := s.tasks - stale));
    case ClaimTask(d, now, lease) => ClaimKeeps(s, d, now, lease);
    case FinishTask(d, _, ok, detail) => FinishKeeps(s, d, ok, detail);
  }

  lemma ClaimEventsStep(s: State, p: PublisherId, rows: seq<EventId>, now: Time, lock: Time)
    requires Inv(s) && Enabled(s, ClaimEvents(p, rows, now, lock))
    ensures Inv(Apply(s, ClaimEvents(p, rows, now, lock)))
  {
    OutboxKeeps(s, Apply(s, ClaimEvents(p, rows, now, lock)));
  }

  lemma StopStep(s: State, a: Step)
    requires Inv(s) && Enabled(s, a) && (a.StopPublisher? || a.PurgeEvents?)
    ensures Inv(Apply(s, a))
  {
    match a
    case StopPublisher(p) => StopKeeps(s, p);
    case PurgeEvents(gone) => PurgeKeeps(s, gone);
  }

  lemma SendStep(s: State, a: Step)
    requires Inv(s) && Enabled(s, a) && (a.Send? || a.SendRaises?)
    ensures Inv(Apply(s, a))
  {
    match a
    case Send(p, m) => AttemptKeeps(s, p, Some(m), WasSent);
    case SendRaises(p, m) => AttemptKeeps(s, p, m, HasRaised);
  }

  lemma MarkStep(s: State, a: Step)
    requires Inv(s) && Enabled(s, a) && (a.MarkPublished? || a.MarkFailed?)
    ensures Inv(Apply(s, a))
  {
    match a
    case MarkPublished(p, now) =>
      var h := Head(s, p);
      MarkKeeps(s, p, if h.None? then None else Some(Outbox.PublishedEvent(h.value, now)));
    case MarkFailed(p, error, retryAt) =>
      var h := Head(s, p);
      MarkKeeps(s, p, if h.None? then None else Some(Outbox.FailedEvent(h.value, error, retryAt)));
  }

  lemma BrokerStep(s: State, a: Step)
    requires Inv(s) && Enabled(s, a) && (a.Receive? || a.Redeliver? || a.Ack? || a.Nack? || a.StopWorker?)
    ensures Inv(Apply(s, a))
  {
    match a
    case Receive(m, d) => ReceiveKeeps(s, m, d);
    case Redeliver(m, toDead) => RedeliverKeeps(s, m, if toDead then Dead else Waiting);
    case Ack(d, dropWaiting) => AckKeeps(s, d, dropWaiting);
    case Nack(d, requeue) => NackKeeps(s, d, requeue);
    case StopWorker(d) => AbandonKeeps(s, d);
  }

  lemma InvStep(s: State, a: Step)
    requires Inv(s) && Enabled(s, a)
    ensures Inv(Apply(s, a))
  {
    if a.Submit? || a.Reclaim? || a.PurgeTasks? || a.ClaimTask? || a.FinishTask? {
      TaskStep(s, a);
    } else if a.Receive? || a.Redeliver? || a.Ack? || a.Nack? || a.StopWorker? {
      BrokerStep(s, a);
    } else if a.MarkPublished? || a.MarkFailed? {
      MarkStep(s, a);
    } else if a.Send? || a.SendRaises? {
      SendStep(s, a);
    } else if a.StopPublisher? || a.PurgeEvents? {
      StopStep(s, a);
    } else {
      ClaimEventsStep(s, a.p, a.rows, a.now, a.lock);
    }
  }

  lemma {:induction false} InvHolds(st: seq<State>, steps: seq<Step>, k: nat)
    requires Run(st, steps) && st[0] == EMPTY && k <= |steps|
    ensures Inv(st[k])
  {
    if k == 0 {
    } else {
      InvHolds(st, steps, k - 1);
      InvStep(st[k - 1], steps[k - 1]);
    }
  }

  /** The broker holds `m`, and every delivery of it there is has yet to make its claim attempt. */
  ghost predicate StillToClaim(s: State, m: MessageId) {
    && m in s.broker
    && forall d :: d in s.deliveries && s.deliveries[d].message == m ==> s.deliveries[d].phase == BeforeClaim
  }

  /**
   * No queued task is ever forgotten: in every reachable state each task in the queue has an
   * outbox event that is pending or failed, or a message that the broker still holds and that
   * no worker has used for a claim attempt yet.
   */
  lemma NoQueuedTaskIsForgotten(st: seq<State>, steps: seq<Step>, k: nat, t: TaskId)
    requires Run(st, steps) && st[0] == EMPTY && k <= |steps|
    requires t in st[k].tasks && st[k].tasks[t].status == Tasks.Queued
    ensures var s := st[k];
            || (exists e :: e in s.events && s.events[e].payload == t && s.events[e].status != Outbox.Published)
            || (exists m :: m in s.messages && s.messages[m].task == t && StillToClaim(s, m))
  {
    InvHolds(st, steps, k);
    var s := st[k];
    assert Queued(s, t);
    var w :| Announces(s, t, w);
    match w
    case AnEvent(e) => assert s.events[e].payload == t;
    case AMessage(m) =>
      assert StillToClaim(s, m) by {
        forall d | d in s.deliveries && s.deliveries[d].message == m
          ensures s.deliveries[d].phase == BeforeClaim
        {
          assert DeliveryOk(s, s.deliveries[d]);
        }
      }
  }

  // ----- the relay does its part -----

  /** A relay or a worker that stops is forgotten, and nothing else. */
  lemma StoppingForgets(s: State, p: PublisherId, d: DeliveryId)
    ensures p !in Stopped(s, p).publishers && d !in Abandoned(s, d).deliveries
    ensures forall q :: q in s.publishers && q != p ==>
              q in Stopped(s, p).publishers && Stopped(s, p).publishers[q] == s.publishers[q]
    ensures forall x :: x in s.deliveries && x != d ==>
              x in Abandoned(s, d).deliveries && Abandoned(s, d).deliveries[x] == s.deliveries[x]
    ensures Stopped(s, p) == s.(publishers := Stopped(s, p).publishers)
    ensures Abandoned(s, d) == s.(deliveries := Abandoned(s, d).deliveries)
  {
  }

  /** A claimed batch is held as it was selected, and locked until the lock's end. */
  lemma ClaimedIsHeld(s: State, p: PublisherId, rows: seq<EventId>, now: Time, lock: Time)
    requires AllDue(s, rows, now)
    ensures var s' := EventsClaimed(s, p, rows, now + lock);
            && p in s'.publishers && s'.publishers[p] == Batch(rows, Unsent)
            && (forall e :: e in rows ==>
                  e in s'.events && s'.events[e] == s.events[e].(lockedUntil := Some(now + lock)))
            && (forall e :: e in s.events && e !in rows ==> e in s'.events && s'.events[e] == s.events[e])
  {
  }

  /** A send that went well, then the mark: the message waits, the event is published and the batch goes on. */
  lemma SentIsPublished(s: State, p: PublisherId, m: MessageId, now: Time) returns (s': State)
    requires Enabled(s, Send(p, m))
    ensures Reaches(s, [Send(p, m), MarkPublished(p, now)], s')
    ensures var e := s.publishers[p].todo[0];
            && m in s'.broker && s'.broker[m] == Waiting && m in s'.messages && s'.messages[m] == s.tags[e]
            && MarkedAs(s, p, Outbox.Published, s')
  {
    AttemptGoesOn(s, p, Some(m), WasSent);
    var s1 := Attempted(s, p, Some(m), WasSent);
    var h := Head(s1, p);
    var row := if h.None? then None else Some(Outbox.PublishedEvent(h.value, now));
    MarkGoesOn(s1, p, row);
    s' := Marked(s1, p, row);
    ReachesTwo(s, Send(p, m), s1, MarkPublished(p, now), s');
  }

  /** The batch is past its head, whose event has the new status; a publisher without the row has given up. */
  ghost predicate MarkedAs(s: State, p: PublisherId, status: Outbox.Status, s': State)
    requires p in s.publishers && s.publishers[p].todo != []
  {
    var e := s.publishers[p].todo[0];
    if e in s.events then
      && e in s'.events && s'.events[e].status == status
      && p in s'.publishers && s'.publishers[p] == Batch(s.publishers[p].todo[1..], Unsent)
    else p !in s'.publishers
  }

  lemma ReachesTwo(s: State, a: Step, s1: State, b: Step, s2: State)
    requires Enabled(s, a) && s1 == Apply(s, a) && Enabled(s1, b) && s2 == Apply(s1, b)
    ensures Reaches(s, [a, b], s2)
  {
    assert [a, b][1..] == [b] && [b][1..] == [];
    assert Reaches(s2, [], s2) && Reaches(s1, [b], s2);
  }

  lemma AttemptGoesOn(s: State, p: PublisherId, m: Option<MessageId>, phase: SendPhase)
    requires HeadIs(s, p, Unsent)
    ensures var s', e := Attempted(s, p, m, phase), s.publishers[p].todo[0];
            && HeadIs(s', p, phase) && s'.publishers[p].todo == s.publishers[p].todo && s'.events == s.events
            && (m.Some? ==>
                  && m.value in s'.broker && s'.broker[m.value] == Waiting
                  && m.value in s'.messages && s'.messages[m.value] == s.tags[e])
            && (m.None? ==> s'.broker == s.broker && s'.messages == s.messages)
  {
  }

  lemma MarkGoesOn(s: State, p: PublisherId, row: Option<Outbox.Event>)
    requires p in s.publishers && s.publishers[p].todo != []
    ensures var s' := Marked(s, p, row);
            s'.broker == s.broker && s'.messages == s.messages
    ensures var s', e := Marked(s, p, row), s.publishers[p].todo[0];
            match row
            case None => p !in s'.publishers && s'.events == s.events
            case Some(r) =>
              && s'.events == s.events[e := r]
              && p in s'.publishers && s'.publishers[p] == Batch(s.publishers[p].todo[1..], Unsent)
  {
  }

  /** A send that raised, then the other mark: one more attempt, pending or failed, and the batch goes on. */
  lemma RaisedIsMarked(s: State, p: PublisherId, m: Option<MessageId>, error: string, retryAt: Option<Time>)
    returns (s': State)
    requires Enabled(s, SendRaises(p, m))
    ensures Reaches(s, [SendRaises(p, m), MarkFailed(p, error, retryAt)], s')
    ensures MarkedAs(s, p, if retryAt.Some? then Outbox.Pending else Outbox.Failed, s')
    ensures var e := s.publishers[p].todo[0];
            e in s.events && e in s'.events ==> s'.events[e].attempts == s.events[e].attempts + 1
  {
    AttemptGoesOn(s, p, m, HasRaised);
    var s1 := Attempted(s, p, m, HasRaised);
    var h := Head(s1, p);
    var row := if h.None? then None else Some(Outbox.FailedEvent(h.value, error, retryAt));
    MarkGoesOn(s1, p, row);
    s' := Marked(s1, p, row);
    ReachesTwo(s, SendRaises(p, m), s1, MarkFailed(p, error, retryAt), s');
  }

  /** A purge deletes the published events it was given and no other. */
  lemma PurgeDeletes(s: State, gone: set<EventId>)
    ensures var s' := EventsPurged(s, gone);
            && (forall e :: e in s'.events <==> e in s.events && e !in gone)
            && (forall e :: e in s'.events ==> s'.events[e] == s.events[e])
  {
  }

  // ----- the worker does its part -----

  /** The delivery holds message `m` of task `t`, which the broker has handed out. */
  ghost predicate Holds(s: State, d: DeliveryId, m: MessageId, t: TaskId) {
    HasMessage(s, d) && s.deliveries[d].message == m && s.messages[m].task == t && m in s.broker && s.broker[m] == Out
  }

  /** What a worker receives it holds, before its claim attempt. */
  lemma ReceivedIsHeld(s: State, m: MessageId, d: DeliveryId)
    requires m in s.messages
    ensures var s' := Received(s, m, d);
            Holds(s', d, m, s.messages[m].task) && s'.deliveries[d].phase == BeforeClaim && s'.tasks == s.tasks
  {
  }

  /** A message that was handed out and comes back waits again, or is a dead letter if the broker gives it up. */
  lemma RedeliveredComesBack(s: State, m: MessageId, toDead: bool)
    ensures var s' := Redelivered(s, m, toDead);
            m in s'.broker && (IsDead(s', m) <==> toDead) && (s'.broker[m] == Waiting <==> !toDead)
  {
  }

  lemma ClaimGoesOn(s: State, d: DeliveryId, m: MessageId, t: TaskId, now: Time, lease: Time)
    requires Holds(s, d, m, t) && t in s.tasks
    ensures var s' := ClaimAttempted(s, d, now, lease);
            && Holds(s', d, m, t) && t in s'.tasks
            && s'.deliveries[d].phase == (if Tasks.Claimable(s.tasks[t], now) then Running else Skipped)
            && (!Tasks.Claimable(s.tasks[t], now) ==> s'.tasks == s.tasks)
  {
  }

  lemma FinishGoesOn(s: State, d: DeliveryId, m: MessageId, t: TaskId, ok: bool, detail: string)
    requires Holds(s, d, m, t) && t in s.tasks
    ensures var s' := Finished(s, d, ok, detail);
            && Holds(s', d, m, t) && t in s'.tasks && s'.deliveries[d].phase == (if ok then Completed else Errored)
            && (ok ==> s'.tasks[t].status == Tasks.Completed && s'.tasks[t].result == Some(detail))
            && (!ok ==> s'.tasks[t].status == Tasks.Failed && s'.tasks[t].error == Some(detail))
  {
  }

  lemma EndGoesOn(s: State, d: DeliveryId, m: MessageId, t: TaskId, dropWaiting: bool, requeue: bool)
    requires Holds(s, d, m, t)
    ensures var acked, nacked := Acked(s, d, dropWaiting), Nacked(s, d, requeue);
            && d !in acked.deliveries && m !in acked.broker && acked.tasks == s.tasks
            && d !in nacked.deliveries && m in nacked.broker && nacked.tasks == s.tasks
            && nacked.broker[m] == (if requeue then Waiting else Dead)
  {
  }

  /** Claim, handle, acknowledge: the task is completed with the handler's result and the message is gone. */
  lemma HandledIsCompleted(
    s: State, d: DeliveryId, m: MessageId, t: TaskId, now: Time, lease: Time, result: string, dropWaiting: bool)
    returns (s': State)
    requires Holds(s, d, m, t) && s.deliveries[d].phase == BeforeClaim && lease > 0.0
    requires t in s.tasks && Tasks.Claimable(s.tasks[t], now)
    ensures Reaches(s, [ClaimTask(d, now, lease), FinishTask(d, now, true, result), Ack(d, dropWaiting)], s')
    ensures t in s'.tasks && s'.tasks[t].status == Tasks.Completed && s'.tasks[t].result == Some(result)
    ensures d !in s'.deliveries && m !in s'.broker
  {
    ClaimGoesOn(s, d, m, t, now, lease);
    var s1 := ClaimAttempted(s, d, now, lease);
    FinishGoesOn(s1, d, m, t, true, result);
    var s2 := Finished(s1, d, true, result);
    EndGoesOn(s2, d, m, t, dropWaiting, true);
    s' := Acked(s2, d, dropWaiting);
    ReachesThree(s, ClaimTask(d, now, lease), s1, FinishTask(d, now, true, result), s2, Ack(d, dropWaiting), s');
  }

  /** Claim, fail, reject for good: the task has failed with the error and the message is a dead letter. */
  lemma BrokenIsFailed(s: State, d: DeliveryId, m: MessageId, t: TaskId, now: Time, lease: Time, error: string)
    returns (s': State)
    requires Holds(s, d, m, t) && s.deliveries[d].phase == BeforeClaim && lease > 0.0
    requires t in s.tasks && Tasks.Claimable(s.tasks[t], now)
    ensures Reaches(s, [ClaimTask(d, now, lease), FinishTask(d, now, false, error), Nack(d, false)], s')
    ensures t in s'.tasks && s'.tasks[t].status == Tasks.Failed && s'.tasks[t].error == Some(error)
    ensures d !in s'.deliveries && m in s'.broker && s'.broker[m] == Dead
  {
    ClaimGoesOn(s, d, m, t, now, lease);
    var s1 := ClaimAttempted(s, d, now, lease);
    FinishGoesOn(s1, d, m, t, false, error);
    var s2 := Finished(s1, d, false, error);
    EndGoesOn(s2, d, m, t, true, false);
    s' := Nacked(s2, d, false);
    ReachesThree(s, ClaimTask(d, now, lease), s1, FinishTask(d, now, false, error), s2, Nack(d, false), s');
  }

  /** A delivery whose task cannot be claimed is acknowledged without touching the task. */
  lemma RefusedIsSkipped(s: State, d: DeliveryId, m: MessageId, t: TaskId, now: Time, lease: Time, dropWaiting: bool)
    returns (s': State)
    requires Holds(s, d, m, t) && s.deliveries[d].phase == BeforeClaim && lease > 0.0
    requires t in s.tasks && !Tasks.Claimable(s.tasks[t], now)
    ensures Reaches(s, [ClaimTask(d, now, lease), Ack(d, dropWaiting)], s')
    ensures s'.tasks == s.tasks && d !in s'.deliveries && m !in s'.broker
  {
    ClaimGoesOn(s, d, m, t, now, lease);
    var s1 := ClaimAttempted(s, d, now, lease);
    EndGoesOn(s1, d, m, t, dropWaiting, true);
    s' := Acked(s1, d, dropWaiting);
    ReachesTwo(s, ClaimTask(d, now, lease), s1, Ack(d, dropWaiting), s');
  }

  lemma ReachesThree(s: State, a: Step, s1: State, b: Step, s2: State, c: Step, s3: State)
    requires Enabled(s, a) && s1 == Apply(s, a) && Enabled(s1, b) && s2 == Apply(s1, b)
    requires Enabled(s2, c) && s3 == Apply(s2, c)
    ensures Reaches(s, [a, b, c], s3)
  {
    assert [a, b, c][1..] == [b, c] && [b, c][1..] == [c] && [c][1..] == [];
    assert Reaches(s3, [], s3) && Reaches(s2, [c], s3) && Reaches(s1, [b, c], s3);
  }

  // ----- dead letters stay -----

  ghost predicate IsDead(s: State, m: MessageId) { m in s.broker && s.broker[m] == Dead }

  lemma SendingKeepsDead(s: State, p: PublisherId, n: Option<MessageId>, phase: SendPhase, m: MessageId)
    requires HeadIs(s, p, Unsent) && IsDead(s, m) && n != Some(m)
    ensures IsDead(Attempted(s, p, n, phase), m)
  {
  }

  lemma EndingKeepsDead(s: State, d: DeliveryId, dropWaiting: bool, requeue: bool, m: MessageId)
    requires d in s.deliveries && IsDead(s, m)
    ensures IsDead(Acked(s, d, dropWaiting), m) && IsDead(Nacked(s, d, requeue), m) && IsDead(Abandoned(s, d), m)
  {
  }

  lemma BrokerKeepsDead(s: State, a: Step, m: MessageId)
    requires Enabled(s, a) && IsDead(s, m) && (a.Receive? || a.Redeliver? || a.Ack? || a.Nack? || a.StopWorker?)
    ensures IsDead(Apply(s, a), m)
  {
    match a
    case Receive(n, d) => assert Apply(s, a).broker == s.broker[n := Out];
    case Redeliver(n, toDead) => assert n != m;
    case Ack(d, drop) => EndingKeepsDead(s, d, drop, true, m);
    case Nack(d, requeue) => EndingKeepsDead(s, d, true, requeue, m);
    case StopWorker(d) => EndingKeepsDead(s, d, true, true, m);
  }

  lemma {:induction false} ReclaimLeavesBroker(
    s: State, ids: seq<TaskId>, es: seq<EventId>, k: nat, now: Time, maxAttempts: int)
    requires k <= |ids| == |es| && forall i :: 0 <= i < |ids| ==> ids[i] in s.tasks
    ensures ReclaimMany(s, ids, es, k, now, maxAttempts).broker == s.broker
  {
    if k == 0 {
    } else {
      ReclaimLeavesBroker(s, ids, es, k - 1, now, maxAttempts);
    }
  }

  lemma TasksLeaveBroker(s: State, a: Step)
    requires Enabled(s, a) && (a.Submit? || a.Reclaim? || a.PurgeTasks? || a.ClaimTask? || a.FinishTask?)
    ensures Apply(s, a).broker == s.broker
  {
    if a.Reclaim? { ReclaimLeavesBroker(s, a.ids, a.events, |a.ids|, a.now, a.maxAttempts); }
  }

  lemma MarkLeavesBroker(s: State, p: PublisherId, row: Option<Outbox.Event>)
    requires p in s.publishers && s.publishers[p].todo != []
    ensures Marked(s, p, row).broker == s.broker
  {
  }

  lemma RelayLeavesBroker(s: State, a: Step)
    requires Enabled(s, a)
    requires a.ClaimEvents? || a.MarkPublished? || a.MarkFailed? || a.StopPublisher? || a.PurgeEvents?
    ensures Apply(s, a).broker == s.broker
  {
    if a.MarkPublished? {
      var h := Head(s, a.p);
      MarkLeavesBroker(s, a.p, if h.None? then None else Some(Outbox.PublishedEvent(h.value, a.now)));
    } else if a.MarkFailed? {
      var h := Head(s, a.p);
      MarkLeavesBroker(s, a.p, if h.None? then None else Some(Outbox.FailedEvent(h.value, a.error, a.retryAt)));
    }
  }

  lemma DeadStep(s: State, a: Step, m: MessageId)
    requires MessagesOk(s) && Enabled(s, a) && IsDead(s, m)
    ensures IsDead(Apply(s, a), m)
  {
    if a.Send? {
      SendingKeepsDead(s, a.p, Some(a.message), WasSent, m);
    } else if a.SendRaises? {
      SendingKeepsDead(s, a.p, a.enqueued, HasRaised, m);
    } else if a.Receive? || a.Redeliver? || a.Ack? || a.Nack? || a.StopWorker? {
      BrokerKeepsDead(s, a, m);
    } else if a.Submit? || a.Reclaim? || a.PurgeTasks? || a.ClaimTask? || a.FinishTask? {
      TasksLeaveBroker(s, a);
    } else {
      RelayLeavesBroker(s, a);
    }
  }

  /** No step of the relay, the workers or the broker ever takes a message out of the dead letters. */
  lemma {:induction false} DeadLettersStay(st: seq<State>, steps: seq<Step>, i: nat, k: nat, m: MessageId)
    requires Run(st, steps) && st[0] == EMPTY && i <= k <= |steps| && IsDead(st[i], m)
    ensures IsDead(st[k], m)
    decreases k
  {
    if i == k {
    } else {
      DeadLettersStay(st, steps, i, k - 1, m);
      InvHolds(st, steps, k - 1);
      DeadStep(st[k - 1], steps[k - 1], m);
    }
  }

  // ----- every event is one for the relay -----

  ghost predicate AllForTheRelay(s: State) { forall e :: e in s.events ==> "task." <= s.events[e].kind }

  lemma {:induction false} ReclaimIsForTheRelay(
    s: State, ids: seq<TaskId>, es: seq<EventId>, k: nat, now: Time, maxAttempts: int)
    requires k <= |ids| == |es| && (forall i :: 0 <= i < |ids| ==> ids[i] in s.tasks) && AllForTheRelay(s)
    ensures AllForTheRelay(ReclaimMany(s, ids, es, k, now, maxAttempts))
  {
    if k == 0 {
    } else {
      ReclaimIsForTheRelay(s, ids, es, k - 1, now, maxAttempts);
    }
  }

  lemma MarkIsForTheRelay(s: State, p: PublisherId, row: Option<Outbox.Event>)
    requires p in s.publishers && s.publishers[p].todo != [] && AllForTheRelay(s)
    requires row.Some? ==> "task." <= row.value.kind
    ensures AllForTheRelay(Marked(s, p, row))
  {
  }

  lemma MarksAreForTheRelay(s: State, a: Step)
    requires Enabled(s, a) && AllForTheRelay(s) && (a.MarkPublished? || a.MarkFailed?)
    ensures AllForTheRelay(Apply(s, a))
  {
    var h := Head(s, a.p);
    if a.MarkPublished? {
      MarkIsForTheRelay(s, a.p, if h.None? then None else Some(Outbox.PublishedEvent(h.value, a.now)));
    } else {
      MarkIsForTheRelay(s, a.p, if h.None? then None else Some(Outbox.FailedEvent(h.value, a.error, a.retryAt)));
    }
  }

  lemma RelayStep(s: State, a: Step)
    requires Enabled(s, a) && AllForTheRelay(s)
    ensures AllForTheRelay(Apply(s, a))
  {
    if a.Reclaim? {
      ReclaimIsForTheRelay(s, a.ids, a.events, |a.ids|, a.now, a.maxAttempts);
    } else if a.MarkPublished? || a.MarkFailed? {
      MarksAreForTheRelay(s, a);
    } else if a.Submit? {
      assert "task." <= "task." + a.kind;
    } else if a.ClaimEvents? || a.PurgeEvents? {
    } else {
      EventsUntouched(s, a);
    }
  }

  lemma EventsUntouched(s: State, a: Step)
    requires Enabled(s, a) && !a.Reclaim? && !a.Submit? && !a.MarkPublished? && !a.MarkFailed?
    requires !a.ClaimEvents? && !a.PurgeEvents?
    ensures Apply(s, a).events == s.events
  {
    if a.Send? {
      AttemptGoesOn(s, a.p, Some(a.message), WasSent);
    } else if a.SendRaises? {
      AttemptGoesOn(s, a.p, a.enqueued, HasRaised);
    }
  }

  /** Every event of the pipeline that is due is one that the task relay selects. */
  lemma {:induction false} RelayWantsEveryEvent(st: seq<State>, steps: seq<Step>, k: nat, e: EventId, now: Time)
    requires Run(st, steps) && st[0] == EMPTY && k <= |steps| && e in st[k].events
    ensures Outbox.Due(st[k].events[e], now) <==> Outbox.Wanted(st[k].events[e], now, Some("task."))
  {
    AllAreForTheRelay(st, steps, k);
  }

  lemma {:induction false} AllAreForTheRelay(st: seq<State>, steps: seq<Step>, k: nat)
    requires Run(st, steps) && st[0] == EMPTY && k <= |steps|
    ensures AllForTheRelay(st[k])
  {
    if k == 0 {
    } else {
      AllAreForTheRelay(st, steps, k - 1);
      RelayStep(st[k - 1], steps[k - 1]);
    }
  }

  // ----- an announcement is enough -----

  ghost predicate Reaches(s: State, steps: seq<Step>, s': State)
    decreases |steps|
  {
    if steps == [] then s == s'
    else Enabled(s, steps[0]) && Reaches(Apply(s, steps[0]), steps[1..], s')
  }

  /** What can still be worked on without an operator: not a failed event or a dead letter. */
  ghost predicate Actionable(s: State, w: Witness) {
    match w
    case AnEvent(e) => e in s.events && s.events[e].status == Outbox.Pending
    case AMessage(m) => m in s.broker && s.broker[m] != Dead
  }

  lemma {:induction false} FreshNat(used: set<nat>) returns (n: nat)
    ensures forall x :: x in used ==> x < n
    decreases |used|
  {
    if used == {} {
      n := 0;
    } else {
      var x :| x in used;
      n := FreshNat(used - {x});
      n := if n <= x then x + 1 else n;
      assert forall y :: y in used ==> y == x || y in used - {x};
    }
  }

  lemma ClaimReaches(s: State, t: TaskId, d: DeliveryId, now: Time) returns (steps: seq<Step>, s': State)
    requires Queued(s, t) && HasMessage(s, d) && s.deliveries[d].phase == BeforeClaim
    requires s.messages[s.deliveries[d].message].task == t
    ensures Reaches(s, steps, s') && t in s'.tasks && s'.tasks[t].status == Tasks.Processing
  {
    steps, s' := [ClaimTask(d, now, 1.0)], ClaimAttempted(s, d, now, 1.0);
    assert steps[1..] == [] && Apply(s, steps[0]) == s';
  }

  lemma DeliveryReaches(s: State, t: TaskId, m: MessageId, now: Time) returns (steps: seq<Step>, s': State)
    requires Queued(s, t) && Announces(s, t, AMessage(m)) && s.broker[m] == Waiting
    ensures Reaches(s, steps, s') && t in s'.tasks && s'.tasks[t].status == Tasks.Processing
  {
    var d := FreshNat(s.deliveries.Keys);
    var s1 := Received(s, m, d);
    var rest;
    rest, s' := ClaimReaches(s1, t, d, now);
    steps := [Receive(m, d)] + rest;
    assert steps[1..] == rest && Apply(s, steps[0]) == s1;
  }

  /** A message that was handed out comes back first. */
  lemma MessageReaches(s: State, t: TaskId, m: MessageId, now: Time) returns (steps: seq<Step>, s': State)
    requires Queued(s, t) && Announces(s, t, AMessage(m)) && s.broker[m] != Dead
    ensures Reaches(s, steps, s') && t in s'.tasks && s'.tasks[t].status == Tasks.Processing
  {
    if s.broker[m] == Waiting {
      steps, s' := DeliveryReaches(s, t, m, now);
    } else {
      var s1 := s.(broker := s.broker[m := Waiting]);
      assert Announces(s1, t, AMessage(m));
      var rest;
      rest, s' := DeliveryReaches(s1, t, m, now);
      steps := [Redeliver(m, false)] + rest;
      assert steps[1..] == rest && Apply(s, steps[0]) == s1;
    }
  }

  lemma SendReaches(s: State, t: TaskId, e: EventId, p: PublisherId, now: Time) returns (steps: seq<Step>, s': State)
    requires Queued(s, t) && Announces(s, t, AnEvent(e)) && p in s.publishers && s.publishers[p] == Batch([e], Unsent)
    ensures Reaches(s, steps, s') && t in s'.tasks && s'.tasks[t].status == Tasks.Processing
  {
    var m := FreshNat(s.messages.Keys);
    var s1 := Attempted(s, p, Some(m), WasSent);
    assert Announces(s1, t, AMessage(m));
    var rest;
    rest, s' := DeliveryReaches(s1, t, m, now);
    steps := [Send(p, m)] + rest;
    assert steps[1..] == rest && Apply(s, steps[0]) == s1;
  }

  lemma RelayReaches(s: State, t: TaskId, e: EventId) returns (steps: seq<Step>, s': State)
    requires Queued(s, t) && Announces(s, t, AnEvent(e)) && s.events[e].status == Outbox.Pending
    ensures Reaches(s, steps, s') && t in s'.tasks && s'.tasks[t].status == Tasks.Processing
  {
    var p := FreshNat(s.publishers.Keys);
    var row := s.events[e];
    var now := row.availableAt;
    if row.lockedUntil.Some? && row.lockedUntil.value > now { now := row.lockedUntil.value; }
    var claim := ClaimEvents(p, [e], now, 1.0);
    var s1 := Apply(s, claim);
    assert Announces(s1, t, AnEvent(e));
    var rest;
    rest, s' := SendReaches(s1, t, e, p, now);
    steps := [claim] + rest;
    assert steps[1..] == rest;
  }

  /**
   * A queued task with an actionable announcement can be brought to a worker from any
   * reachable state: some finite schedule of relay, broker and worker steps claims it.
   */
  lemma QueuedTaskCanBeClaimed(st: seq<State>, steps: seq<Step>, k: nat, t: TaskId, w: Witness)
    requires Run(st, steps) && st[0] == EMPTY && k <= |steps|
    requires Queued(st[k], t) && Announces(st[k], t, w) && Actionable(st[k], w)
    ensures exists more, s' :: Reaches(st[k], more, s') && t in s'.tasks && s'.tasks[t].status == Tasks.Processing
  {
    InvHolds(st, steps, k);
    var more, s';
    match w
    case AnEvent(e) => more, s' := RelayReaches(st[k], t, e);
    case AMessage(m) => more, s' := MessageReaches(st[k], t, m, 0.0);
  }
}

/** The transactions that write a task row and its announcement together. */
module TaskOutbox {
  import opened Prelude
  import Tasks
  import Outbox
  import opened Pipeline

  /** How many of the first `k` rows have an attempt left. */
  ghost function Requeued(s: State, ids: seq<TaskId>, k: nat, maxAttempts: int): nat
    requires k <= |ids| && forall i :: 0 <= i < |ids| ==> ids[i] in s.tasks
  {
    if k == 0 then 0
    else Requeued(s, ids, k - 1, maxAttempts) + if s.tasks[ids[k - 1]].attempts < maxAttempts then 1 else 0
  }

  predicate NotAfter(tasks: Tasks.Table, a: TaskId, b: TaskId) {
    && a in tasks && b in tasks && tasks[a].lockedUntil.Some? && tasks[b].lockedUntil.Some?
    && tasks[a].lockedUntil.value <= tasks[b].lockedUntil.value
  }

  /** Each row once, in the order in which the leases ran out. */
  ghost predicate OldestFirst(tasks: Tasks.Table, ids: seq<TaskId>) {
    && (forall i :: 0 <= i < |ids| ==> NotAfter(tasks, ids[i], ids[i]))
    && (forall i, j :: 0 <= i < j < |ids| ==> ids[i] != ids[j] && NotAfter(tasks, ids[i], ids[j]))
  }

  lemma OldestFirstSnoc(tasks: Tasks.Table, ids: seq<TaskId>, id: TaskId)
    requires OldestFirst(tasks, ids) && id !in ids && NotAfter(tasks, id, id)
    requires forall r :: r in ids ==> NotAfter(tasks, r, id)
    ensures OldestFirst(tasks, ids + [id])
  {
  }

  /**
   * What the sub-select may return: at most `limit` expired leases that no other transaction
   * holds, oldest first, and a free one is left out only by a full batch of older ones.
   */
  ghost predicate StaleSelected(tasks: Tasks.Table, ids: seq<TaskId>, limit: int, now: Time, busy: set<TaskId>) {
    && |ids| <= limit && OldestFirst(tasks, ids)
    && (forall id :: id in ids ==> id in tasks && id !in busy && Tasks.LeaseExpired(tasks[id], now))
    && (forall id :: id in tasks && id !in busy && Tasks.LeaseExpired(tasks[id], now) && id !in ids ==>
          |ids| == limit && forall r :: r in ids ==> NotAfter(tasks, r, id))
  }

  lemma SelectedIsReclaimable(
    s: State, ids: seq<TaskId>, es: seq<EventId>, limit: int, now: Time, busy: set<TaskId>)
    requires StaleSelected(s.tasks, ids, limit, now, busy) && |es| == |ids|
    requires forall i :: 0 <= i < |es| ==> es[i] !in s.tags
    requires forall i, j :: 0 <= i < j < |es| ==> es[i] != es[j]
    ensures Reclaimable(s, ids, es, now)
  {
    forall i | 0 <= i < |ids|
      ensures ids[i] in s.tasks && Tasks.LeaseExpired(s.tasks[ids[i]], now)
    {
      assert ids[i] in ids;
    }
  }

  class PostgresTaskOutboxDispatcher {
    var tasks: Tasks.Table
    var events: Outbox.Table

    /** Both rows in one transaction: the database part of the pipeline's submit step. A known id is refused. */
    method SubmitTask(
      id: TaskId, event: EventId, kind: string, requestId: Option<string>, expiresAt: Time, now: Time, ghost s: State)
      returns (ok: bool)
      requires s.tasks == tasks && s.events == events && event !in s.tags
      modifies this
      ensures ok <==> Enabled(s, Submit(id, event, now, kind, requestId, expiresAt))
      ensures ok <==> id !in old(tasks)
      ensures !ok ==> tasks == old(tasks) && events == old(events)
      ensures ok ==> var s' := Apply(s, Submit(id, event, now, kind, requestId, expiresAt));
                     tasks == s'.tasks && events == s'.events
    {
      ok := id !in tasks;
      if !ok { return; }
      tasks := tasks[id := Tasks.NewTask(kind, requestId, expiresAt)];
      AddTaskEvent(event, id, kind, now);
    }

    method AddTaskEvent(event: EventId, id: TaskId, kind: string, now: Time)
      modifies this`events
      ensures events == old(events)[event := Outbox.NewEvent("task." + kind, id, now)]
    {
      events := events[event := Outbox.NewEvent("task." + kind, id, now)];
    }

    /** The row whose lease ran out first. */
    method FirstExpired(ids: set<TaskId>) returns (first: TaskId)
      requires ids != {} && forall id :: id in ids ==> id in tasks && tasks[id].lockedUntil.Some?
      ensures first in ids && forall id :: id in ids ==> NotAfter(tasks, first, id)
    {
      first :| first in ids;
      var left := ids - {first};
      while left != {}
        invariant first in ids && left <= ids
        invariant forall id :: id in ids && id !in left ==> NotAfter(tasks, first, id)
      {
        var id :| id in left;
        if tasks[id].lockedUntil.value < tasks[first].lockedUntil.value { first := id; }
        left := left - {id};
      }
    }

    /** The sub-select: expired leases, the oldest first; `busy` rows are skipped. */
    method SelectStale(limit: nat, now: Time, busy: set<TaskId>) returns (ids: seq<TaskId>)
      ensures StaleSelected(tasks, ids, limit, now, busy)
    {
      var left := set id | id in tasks && id !in busy && Tasks.LeaseExpired(tasks[id], now);
      ghost var all := left;
      ids := [];
      while |ids| < limit && left != {}
        invariant |ids| <= limit && left <= all
        invariant forall id :: id in all <==> id in ids || id in left
        invariant forall id :: id in left ==> id !in ids
        invariant OldestFirst(tasks, ids) && forall id, r :: id in left && r in ids ==> NotAfter(tasks, r, id)
        decreases |left|
      {
        var id := FirstExpired(left);
        OldestFirstSnoc(tasks, ids, id);
        ids := ids + [id];
        left := left - {id};
      }
    }

    /**
     * One statement over the selected rows. It leaves none of them processing, and no free
     * expired lease behind unless it settled as many as the limit allows.
     */
    method ReclaimStaleIn(now: Time, limit: nat, maxAttempts: int, busy: set<TaskId>) returns (ids: seq<TaskId>)
      modifies this`tasks
      ensures StaleSelected(old(tasks), ids, limit, now, busy)
      ensures tasks == Tasks.ReclaimAll(old(tasks), (set id | id in ids), maxAttempts)
      ensures forall id :: id in ids ==> id in tasks && tasks[id].lockedUntil == None
      ensures forall id :: id in ids ==>
                tasks[id].status == if tasks[id].attempts >= maxAttempts then Tasks.Failed else Tasks.Queued
      ensures |ids| < limit ==> forall id :: id in tasks && id !in busy ==> !Tasks.LeaseExpired(tasks[id], now)
    {
      ids := SelectStale(limit, now, busy);
      tasks := map id | id in tasks :: if id in ids then Tasks.Reclaimed(tasks[id], maxAttempts) else tasks[id];
    }

    /**
     * One transaction: settle the expired leases, then announce every row left queued. `news`
     * holds new event ids, enough for a whole batch.
     */
    method ReclaimTasks(
      news: seq<EventId>, now: Time, limit: int, maxAttempts: int, busy: set<TaskId>, ghost s: State)
      returns (ok: bool, count: nat, ids: seq<TaskId>)
      requires s.tasks == tasks && s.events == events && |news| >= limit
      requires forall i :: 0 <= i < |news| ==> news[i] !in s.tags
      requires forall i, j :: 0 <= i < j < |news| ==> news[i] != news[j]
      modifies this
      ensures ok <==> limit > 0
      ensures !ok ==> tasks == old(tasks) && events == old(events)
      ensures ok ==> StaleSelected(s.tasks, ids, limit, now, busy)
      ensures ok ==> Enabled(s, Reclaim(ids, news[..|ids|], now, maxAttempts))
      ensures ok ==> var s' := Apply(s, Reclaim(ids, news[..|ids|], now, maxAttempts));
                     tasks == s'.tasks && events == s'.events && count == Requeued(s, ids, |ids|, maxAttempts)
    {
      ok, count, ids := limit > 0, 0, [];
      if !ok { return; }
      ids := ReclaimStaleIn(now, limit, maxAttempts, busy);
      var es := news[..|ids|];
      SelectedIsReclaimable(s, ids, es, limit, now, busy);
      BulkIsRowByRow(s, ids, es, now, maxAttempts);
      assert forall i :: 0 <= i < |ids| ==> ids[i] in ids;
      count := AnnounceQueued(ids, es, now, maxAttempts, s);
    }

    /** An event for every returned row that the update left queued. */
    method AnnounceQueued(ids: seq<TaskId>, es: seq<EventId>, now: Time, maxAttempts: int, ghost s: State)
      returns (count: nat)
      requires Reclaimable(s, ids, es, now) && s.events == events
      requires forall i :: 0 <= i < |ids| ==>
                 ids[i] in tasks && tasks[ids[i]] == Tasks.Reclaimed(s.tasks[ids[i]], maxAttempts)
      modifies this`events
      ensures events == ReclaimMany(s, ids, es, |ids|, now, maxAttempts).events
      ensures count == Requeued(s, ids, |ids|, maxAttempts)
    {
      count := 0;
      for k := 0 to |ids|
        invariant events == ReclaimMany(s, ids, es, k, now, maxAttempts).events
        invariant count == Requeued(s, ids, k, maxAttempts)
      {
        NextEvent(s, ids, es, k, now, maxAttempts);
        if tasks[ids[k]].status == Tasks.Queued {
          AddTaskEvent(es[k], ids[k], tasks[ids[k]].kind, now);
          count := count + 1;
        }
      }
    }
  }

  /** The task table alone, row by row. */
  function RowsReclaimed(tasks: Tasks.Table, ids: seq<TaskId>, k: nat, maxAttempts: int): (r: Tasks.Table)
    requires k <= |ids| && forall i :: 0 <= i < |ids| ==> ids[i] in tasks
    ensures r.Keys == tasks.Keys
  {
    if k == 0 then tasks
    else
      var before, t := RowsReclaimed(tasks, ids, k - 1, maxAttempts), ids[k - 1];
      before[t := Tasks.Reclaimed(before[t], maxAttempts)]
  }

  lemma {:induction false} ReclaimTouchesRows(
    s: State, ids: seq<TaskId>, es: seq<EventId>, k: nat, now: Time, maxAttempts: int)
    requires k <= |ids| == |es| && forall i :: 0 <= i < |ids| ==> ids[i] in s.tasks
    ensures ReclaimMany(s, ids, es, k, now, maxAttempts).tasks == RowsReclaimed(s.tasks, ids, k, maxAttempts)
  {
    if k == 0 {
    } else {
      ReclaimTouchesRows(s, ids, es, k - 1, now, maxAttempts);
    }
  }

  /** The bulk update changes each row exactly as settling the rows one after the other does. */
  lemma {:induction false} BulkAt(tasks: Tasks.Table, ids: seq<TaskId>, k: nat, maxAttempts: int, id: TaskId)
    requires k <= |ids| && (forall i :: 0 <= i < |ids| ==> ids[i] in tasks) && id in tasks
    requires forall i, j :: 0 <= i < j < |ids| ==> ids[i] != ids[j]
    ensures RowsReclaimed(tasks, ids, k, maxAttempts)[id]
         == if id in ids[..k] then Tasks.Reclaimed(tasks[id], maxAttempts) else tasks[id]
  {
    if k == 0 {
    } else {
      BulkAt(tasks, ids, k - 1, maxAttempts, id);
      assert ids[..k] == ids[..k - 1] + [ids[k - 1]] && ids[k - 1] !in ids[..k - 1];
    }
  }

  lemma BulkIsRowByRow(s: State, ids: seq<TaskId>, es: seq<EventId>, now: Time, maxAttempts: int)
    requires Reclaimable(s, ids, es, now)
    ensures ReclaimMany(s, ids, es, |ids|, now, maxAttempts).tasks
         == Tasks.ReclaimAll(s.tasks, (set id | id in ids), maxAttempts)
  {
    assert ids[..|ids|] == ids;
    ReclaimTouchesRows(s, ids, es, |ids|, now, maxAttempts);
    forall id | id in s.tasks
      ensures RowsReclaimed(s.tasks, ids, |ids|, maxAttempts)[id]
           == if id in ids then Tasks.Reclaimed(s.tasks[id], maxAttempts) else s.tasks[id]
    {
      BulkAt(s.tasks, ids, |ids|, maxAttempts, id);
    }
  }

  /** The event table alone, announcement by announcement. */
  function EventsAnnounced(
    s: State, ids: seq<TaskId>, es: seq<EventId>, k: nat, now: Time, maxAttempts: int): Outbox.Table
    requires k <= |ids| == |es| && forall i :: 0 <= i < |ids| ==> ids[i] in s.tasks
  {
    if k == 0 then s.events
    else
      var before, task := EventsAnnounced(s, ids, es, k - 1, now, maxAttempts), s.tasks[ids[k - 1]];
      if task.attempts >= maxAttempts then before
      else before[es[k - 1] := Outbox.NewEvent("task." + task.kind, ids[k - 1], now)]
  }

  lemma StaysWhatItIs(t: Tasks.Task, maxAttempts: int)
    ensures Tasks.Reclaimed(t, maxAttempts).kind == t.kind
    ensures Tasks.Reclaimed(t, maxAttempts).status == Tasks.Queued <==> t.attempts < maxAttempts
  {
  }

  lemma NextAnnouncement(
    s: State, ids: seq<TaskId>, es: seq<EventId>, k: nat, now: Time, maxAttempts: int, before: Outbox.Table)
    requires Reclaimable(s, ids, es, now) && k < |ids|
    requires before == ReclaimMany(s, ids, es, k, now, maxAttempts).events
    ensures ReclaimMany(s, ids, es, k + 1, now, maxAttempts).events
         == var task := s.tasks[ids[k]];
            if task.attempts >= maxAttempts then before
            else before[es[k] := Outbox.NewEvent("task." + task.kind, ids[k], now)]
  {
    NextEvent(s, ids, es, k, now, maxAttempts);
    StaysWhatItIs(s.tasks[ids[k]], maxAttempts);
  }

  lemma {:induction false} ReclaimAnnounces(
    s: State, ids: seq<TaskId>, es: seq<EventId>, k: nat, now: Time, maxAttempts: int)
    requires Reclaimable(s, ids, es, now) && k <= |ids|
    ensures ReclaimMany(s, ids, es, k, now, maxAttempts).events == EventsAnnounced(s, ids, es, k, now, maxAttempts)
  {
    if k == 0 {
    } else {
      ReclaimAnnounces(s, ids, es, k - 1, now, maxAttempts);
      NextAnnouncement(s, ids, es, k - 1, now, maxAttempts, EventsAnnounced(s, ids, es, k - 1, now, maxAttempts));
    }
  }

  lemma {:induction false} AnnouncementsAreCounted(
    s: State, ids: seq<TaskId>, es: seq<EventId>, k: nat, now: Time, maxAttempts: int)
    requires Reclaimable(s, ids, es, now) && k <= |ids| && forall i :: 0 <= i < |es| ==> es[i] !in s.events
    ensures |EventsAnnounced(s, ids, es, k, now, maxAttempts)| == |s.events| + Requeued(s, ids, k, maxAttempts)
    ensures forall i :: k <= i < |ids| ==> es[i] !in EventsAnnounced(s, ids, es, k, now, maxAttempts)
  {
    if k == 0 {
    } else {
      AnnouncementsAreCounted(s, ids, es, k - 1, now, maxAttempts);
    }
  }

  /** The count that a reclaim reports is the number of events it writes. */
  lemma CountIsWhatIsAnnounced(s: State, ids: seq<TaskId>, es: seq<EventId>, now: Time, maxAttempts: int)
    requires Reclaimable(s, ids, es, now) && forall e :: e in s.events ==> e in s.tags
    ensures |ReclaimMany(s, ids, es, |ids|, now, maxAttempts).events|
         == |s.events| + Requeued(s, ids, |ids|, maxAttempts)
  {
    ReclaimAnnounces(s, ids, es, |ids|, now, maxAttempts);
    AnnouncementsAreCounted(s, ids, es, |ids|, now, maxAttempts);
  }

  /** The event table grows by one announcement exactly when the row was left queued. */
  lemma NextEvent(s: State, ids: seq<TaskId>, es: seq<EventId>, k: nat, now: Time, maxAttempts: int)
    requires Reclaimable(s, ids, es, now) && k < |ids|
    ensures ReclaimMany(s, ids, es, k + 1, now, maxAttempts).events
         == var before := ReclaimMany(s, ids, es, k, now, maxAttempts).events;
            var row := Tasks.Reclaimed(s.tasks[ids[k]], maxAttempts);
            if row.status == Tasks.Queued then before[es[k] := Outbox.NewEvent("task." + row.kind, ids[k], now)]
            else before
  {
    ReclaimLeavesOthers(s, ids, es, k, k, now, maxAttempts);
  }
}
