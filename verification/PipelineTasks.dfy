/**
 * The tasks of the pipeline: every step of it does to the task table what one step of the task
 * store does, so the guarantees of the task store hold of the whole pipeline.
 */
module PipelineTasks {
  import opened Prelude
  import Tasks
  import Outbox
  import opened Pipeline
  import TaskOutbox

  /** Steps that touch the task table. */
  predicate OnTasks(a: Step) { a.Submit? || a.Reclaim? || a.PurgeTasks? || a.ClaimTask? || a.FinishTask? }

  /** The task that a worker's step is about. */
  function TaskOf(s: State, a: Step): TaskId
    requires Enabled(s, a) && (a.ClaimTask? || a.FinishTask?)
  {
    s.messages[s.deliveries[a.delivery].message].task
  }

  /** What the step is to the task store; a step elsewhere is a purge of nothing at time `at`. */
  function TaskOp(s: State, a: Step, at: Time): Tasks.Op
    requires Enabled(s, a)
  {
    match a
    case Submit(t, _, now, kind, requestId, expiresAt) => Tasks.Submit(t, now, kind, requestId, expiresAt)
    case Reclaim(ids, _, now, maxAttempts) => Tasks.Reclaim((set id | id in ids), now, maxAttempts)
    case PurgeTasks(stale, now) => Tasks.Purge(stale, now)
    case ClaimTask(_, now, lease) => Tasks.Claim(TaskOf(s, a), now, lease)
    case FinishTask(_, now, ok, detail) =>
      if ok then Tasks.Complete(TaskOf(s, a), now, detail) else Tasks.Fail(TaskOf(s, a), now, detail)
    case _ => Tasks.Purge({}, at)
  }

  lemma ReclaimIsATaskStep(s: State, ids: seq<TaskId>, es: seq<EventId>, now: Time, maxAttempts: int)
    requires Reclaimable(s, ids, es, now)
    ensures Tasks.Step(s.tasks, Tasks.Reclaim((set id | id in ids), now, maxAttempts),
                       ReclaimMany(s, ids, es, |ids|, now, maxAttempts).tasks)
  {
    TaskOutbox.BulkIsRowByRow(s, ids, es, now, maxAttempts);
  }

  lemma MoveLeavesTasks(s: State, d: DeliveryId, phase: Phase)
    requires d in s.deliveries
    ensures Move(s, d, phase).tasks == s.tasks
  {
  }

  lemma ClaimSettles(s: State, d: DeliveryId, now: Time, lease: Time)
    requires HasMessage(s, d)
    ensures var t := s.messages[s.deliveries[d].message].task;
            ClaimAttempted(s, d, now, lease).tasks
            == if t in s.tasks && Tasks.Claimable(s.tasks[t], now)
               then s.tasks[t := Tasks.Claimed(s.tasks[t], now, lease)] else s.tasks
  {
    var t := s.messages[s.deliveries[d].message].task;
    if t in s.tasks {
      if Tasks.Claimable(s.tasks[t], now) {
        MoveLeavesTasks(s.(tasks := s.tasks[t := Tasks.Claimed(s.tasks[t], now, lease)]), d, Running);
      } else {
        MoveLeavesTasks(s, d, Skipped);
      }
    }
  }

  lemma ClaimIsATaskStep(s: State, d: DeliveryId, now: Time, lease: Time)
    requires HasMessage(s, d) && lease > 0.0
    ensures var t := s.messages[s.deliveries[d].message].task;
            Tasks.Step(s.tasks, Tasks.Claim(t, now, lease), ClaimAttempted(s, d, now, lease).tasks)
  {
    ClaimSettles(s, d, now, lease);
  }

  lemma FinishSettles(s: State, d: DeliveryId, now: Time, ok: bool, detail: string)
    requires HasMessage(s, d)
    ensures var t := s.messages[s.deliveries[d].message].task;
            Finished(s, d, ok, detail).tasks
            == if t !in s.tasks then s.tasks
               else if ok then s.tasks[t := Tasks.Settled(s.tasks[t], Tasks.Completed, Some(detail), None)]
               else s.tasks[t := Tasks.Settled(s.tasks[t], Tasks.Failed, None, Some(detail))]
  {
  }

  lemma FinishIsATaskStep(s: State, d: DeliveryId, now: Time, ok: bool, detail: string)
    requires HasMessage(s, d)
    ensures var t := s.messages[s.deliveries[d].message].task;
            var op := if ok then Tasks.Complete(t, now, detail) else Tasks.Fail(t, now, detail);
            Tasks.Step(s.tasks, op, Finished(s, d, ok, detail).tasks)
  {
    FinishSettles(s, d, now, ok, detail);
  }

  lemma RelayLeavesTasks(s: State, p: PublisherId, m: Option<MessageId>, phase: SendPhase)
    requires HeadIs(s, p, Unsent)
    ensures Attempted(s, p, m, phase).tasks == s.tasks
  {
  }

  lemma MarkLeavesTasks(s: State, p: PublisherId, row: Option<Outbox.Event>)
    requires p in s.publishers && s.publishers[p].todo != []
    ensures Marked(s, p, row).tasks == s.tasks
  {
  }

  lemma PublisherLeavesTasks(s: State, a: Step)
    requires Enabled(s, a) && (a.Send? || a.SendRaises? || a.MarkPublished? || a.MarkFailed?)
    ensures Apply(s, a).tasks == s.tasks
  {
    match a
    case Send(p, m) => RelayLeavesTasks(s, p, Some(m), WasSent);
    case SendRaises(p, m) => RelayLeavesTasks(s, p, m, HasRaised);
    case MarkPublished(p, now) =>
      var h := Head(s, p);
      MarkLeavesTasks(s, p, if h.None? then None else Some(Outbox.PublishedEvent(h.value, now)));
    case MarkFailed(p, error, retryAt) =>
      var h := Head(s, p);
      MarkLeavesTasks(s, p, if h.None? then None else Some(Outbox.FailedEvent(h.value, error, retryAt)));
  }

  lemma BatchLeavesTasks(s: State, a: Step)
    requires Enabled(s, a) && (a.ClaimEvents? || a.StopPublisher? || a.PurgeEvents?)
    ensures Apply(s, a).tasks == s.tasks
  {
  }

  lemma BrokerLeavesTasks(s: State, a: Step)
    requires Enabled(s, a) && (a.Receive? || a.Redeliver? || a.Ack? || a.Nack? || a.StopWorker?)
    ensures Apply(s, a).tasks == s.tasks
  {
  }

  lemma ElsewhereIsNoTaskStep(s: State, a: Step)
    requires Enabled(s, a) && !OnTasks(a)
    ensures Apply(s, a).tasks == s.tasks
  {
    if a.Send? || a.SendRaises? || a.MarkPublished? || a.MarkFailed? {
      PublisherLeavesTasks(s, a);
    } else if a.ClaimEvents? || a.StopPublisher? || a.PurgeEvents? {
      BatchLeavesTasks(s, a);
    } else {
      BrokerLeavesTasks(s, a);
    }
  }

  /** Each step of the pipeline is a step of the task store. */
  lemma EachIsATaskStep(s: State, a: Step, at: Time)
    requires Enabled(s, a)
    ensures Tasks.Step(s.tasks, TaskOp(s, a, at), Apply(s, a).tasks)
  {
    if a.Reclaim? {
      ReclaimIsATaskStep(s, a.ids, a.events, a.now, a.maxAttempts);
    } else if a.ClaimTask? {
      ClaimIsATaskStep(s, a.delivery, a.now, a.lease);
    } else if a.FinishTask? {
      FinishIsATaskStep(s, a.delivery, a.now, a.ok, a.detail);
    } else if !OnTasks(a) {
      ElsewhereIsNoTaskStep(s, a);
      assert s.tasks - {} == s.tasks;
    }
  }

  // ----- runs -----

  /** The times at which the task table is touched do not go back. */
  ghost predicate ClockAdvances(steps: seq<Step>) {
    forall i, j :: 0 <= i < j < |steps| && OnTasks(steps[i]) && OnTasks(steps[j]) ==> steps[i].now <= steps[j].now
  }

  /** The time of the latest step on the tasks up to step `i`, or `start`. */
  function Clock(steps: seq<Step>, start: Time, i: nat): Time
    requires i < |steps|
  {
    if OnTasks(steps[i]) then steps[i].now else if i == 0 then start else Clock(steps, start, i - 1)
  }

  ghost predicate NotBefore(steps: seq<Step>, start: Time) {
    forall i :: 0 <= i < |steps| && OnTasks(steps[i]) ==> start <= steps[i].now
  }

  lemma {:induction false} Earliest(steps: seq<Step>) returns (start: Time)
    ensures NotBefore(steps, start)
  {
    if steps == [] {
      start := 0.0;
    } else {
      var n := |steps| - 1;
      start := Earliest(steps[..n]);
      assert forall i :: 0 <= i < n ==> steps[..n][i] == steps[i];
      if OnTasks(steps[n]) && steps[n].now < start { start := steps[n].now; }
    }
  }

  lemma {:induction false} ClockIsBounded(steps: seq<Step>, start: Time, i: nat, j: nat)
    requires i < j < |steps| && OnTasks(steps[j]) && ClockAdvances(steps) && NotBefore(steps, start)
    ensures Clock(steps, start, i) <= steps[j].now
  {
    if OnTasks(steps[i]) || i == 0 {
    } else {
      ClockIsBounded(steps, start, i - 1, j);
    }
  }

  lemma {:induction false} ClockGrows(steps: seq<Step>, start: Time, i: nat, j: nat)
    requires i <= j < |steps| && ClockAdvances(steps) && NotBefore(steps, start)
    ensures Clock(steps, start, i) <= Clock(steps, start, j)
    decreases j
  {
    if i == j {
    } else if OnTasks(steps[j]) {
      ClockIsBounded(steps, start, i, j);
    } else {
      ClockGrows(steps, start, i, j - 1);
    }
  }

  ghost function TaskOps(st: seq<State>, steps: seq<Step>, start: Time): (r: seq<Tasks.Op>)
    requires Run(st, steps)
    ensures |r| == |steps|
    ensures forall i :: 0 <= i < |r| ==> r[i] == TaskOp(st[i], steps[i], Clock(steps, start, i))
  {
    seq(|steps|, i requires 0 <= i < |steps| => TaskOp(st[i], steps[i], Clock(steps, start, i)))
  }

  ghost function TaskTables(st: seq<State>): (r: seq<Tasks.Table>)
    ensures |r| == |st| && forall i :: 0 <= i < |r| ==> r[i] == st[i].tasks
  {
    seq(|st|, i requires 0 <= i < |st| => st[i].tasks)
  }

  lemma StepAt(st: seq<State>, steps: seq<Step>, start: Time, i: nat)
    requires Run(st, steps) && i < |steps|
    ensures Tasks.Step(st[i].tasks, TaskOps(st, steps, start)[i], st[i + 1].tasks)
  {
    EachIsATaskStep(st[i], steps[i], Clock(steps, start, i));
  }

  /** A run of the pipeline, seen from the task table, is a run of the task store. */
  lemma PipelineIsATaskRun(st: seq<State>, steps: seq<Step>, start: Time)
    requires Run(st, steps)
    ensures Tasks.Run(TaskTables(st), TaskOps(st, steps, start))
  {
    var tables, ops := TaskTables(st), TaskOps(st, steps, start);
    forall i {:trigger ops[i]} | 0 <= i < |ops|
      ensures Tasks.Step(tables[i], ops[i], tables[i + 1])
    {
      StepAt(st, steps, start, i);
    }
  }

  lemma TimeOf(s: State, a: Step, steps: seq<Step>, start: Time, i: nat)
    requires Enabled(s, a) && i < |steps| && steps[i] == a
    ensures TaskOp(s, a, Clock(steps, start, i)).now == Clock(steps, start, i)
  {
  }

  lemma TaskClockAdvances(st: seq<State>, steps: seq<Step>, start: Time)
    requires Run(st, steps) && ClockAdvances(steps) && NotBefore(steps, start)
    ensures Tasks.ClockAdvances(TaskOps(st, steps, start))
  {
    var ops := TaskOps(st, steps, start);
    forall i, j | 0 <= i <= j < |ops|
      ensures ops[i].now <= ops[j].now
    {
      ClockGrows(steps, start, i, j);
      TimeOf(st[i], steps[i], steps, start, i);
      TimeOf(st[j], steps[j], steps, start, j);
    }
  }

  /** The step is a worker's claim of `t` that is granted. */
  ghost predicate Grants(s: State, a: Step, t: TaskId) {
    Enabled(s, a) && a.ClaimTask? && TaskOf(s, a) == t && t in s.tasks && Tasks.Claimable(s.tasks[t], a.now)
  }

  /** Granted claims and newly created rows are the same in both views. */
  lemma SameGrants(s: State, a: Step, at: Time, t: TaskId)
    requires Enabled(s, a)
    ensures var op := TaskOp(s, a, at);
            && (Grants(s, a, t) <==> Tasks.Granted(s.tasks, op) && op.id == t)
            && (Grants(s, a, t) ==> op == Tasks.Claim(t, a.now, a.lease))
            && (Tasks.Creates(s.tasks, op) && op.id == t <==> a.Submit? && a.task == t)
  {
  }

  /** A step of the pipeline and one of the task store agree on claims and submits of `t`. */
  ghost predicate Agree(s: State, a: Step, table: Tasks.Table, op: Tasks.Op, t: TaskId) {
    && (Grants(s, a, t) <==> Tasks.Granted(table, op) && op.id == t)
    && (Grants(s, a, t) ==> op == Tasks.Claim(t, a.now, a.lease))
    && (Tasks.Creates(table, op) && op.id == t <==> a.Submit? && a.task == t)
  }

  lemma OpAt(st: seq<State>, steps: seq<Step>, start: Time, i: nat, t: TaskId)
    requires Run(st, steps) && i < |steps|
    ensures Agree(st[i], steps[i], TaskTables(st)[i], TaskOps(st, steps, start)[i], t)
  {
    SameGrants(st[i], steps[i], Clock(steps, start, i), t);
  }

  /** No submit of `t` between `i` and `k`. */
  ghost predicate NoSubmit(steps: seq<Step>, i: nat, k: nat, t: TaskId) {
    forall m :: i <= m < k && m < |steps| && steps[m].Submit? ==> steps[m].task != t
  }

  lemma NotRecreated(st: seq<State>, steps: seq<Step>, start: Time, i: nat, k: nat, t: TaskId)
    requires Run(st, steps) && k <= |steps| && NoSubmit(steps, i, k, t)
    ensures !Tasks.Recreated(TaskTables(st), TaskOps(st, steps, start), i, k, t)
  {
    forall m | i <= m < k
      ensures !(Tasks.Creates(TaskTables(st)[m], TaskOps(st, steps, start)[m]) && TaskOps(st, steps, start)[m].id == t)
    {
      OpAt(st, steps, start, m, t);
    }
  }

  /**
   * Across submits, relays, brokers that redeliver, workers that stop, reclaims and purges:
   * two granted claims of one task are at least the first one's lease apart, unless the task
   * was purged and submitted anew between them.
   */
  lemma ClaimsAreLeaseApart(st: seq<State>, steps: seq<Step>, i: nat, j: nat, t: TaskId)
    requires Run(st, steps) && ClockAdvances(steps) && i < j < |steps| && NoSubmit(steps, i, j, t)
    requires Grants(st[i], steps[i], t) && Grants(st[j], steps[j], t)
    ensures steps[i].now + steps[i].lease <= steps[j].now
  {
    var start := Earliest(steps);
    PipelineIsATaskRun(st, steps, start);
    TaskClockAdvances(st, steps, start);
    OpAt(st, steps, start, i, t);
    OpAt(st, steps, start, j, t);
    NotRecreated(st, steps, start, i, j, t);
    Tasks.ClaimsAreLeaseApart(TaskTables(st), TaskOps(st, steps, start), i, j);
  }

  /** How many claims of `t` were granted since it was submitted. */
  ghost function Claims(st: seq<State>, steps: seq<Step>, k: nat, t: TaskId): nat
    requires |st| == |steps| + 1 && k <= |steps|
  {
    if k == 0 then 0
    else if steps[k - 1].Submit? && steps[k - 1].task == t then 0
    else Claims(st, steps, k - 1, t) + if Grants(st[k - 1], steps[k - 1], t) then 1 else 0
  }

  lemma {:induction false} SameCount(
    st: seq<State>, steps: seq<Step>, tables: seq<Tasks.Table>, ops: seq<Tasks.Op>, k: nat, t: TaskId)
    requires |st| == |tables| == |steps| + 1 && |ops| == |steps| && k <= |steps|
    requires forall i :: 0 <= i < |steps| ==> Agree(st[i], steps[i], tables[i], ops[i], t)
    ensures Claims(st, steps, k, t) == Tasks.Claims(tables, ops, k, t)
  {
    if k == 0 {
    } else {
      SameCount(st, steps, tables, ops, k - 1, t);
      assert Agree(st[k - 1], steps[k - 1], tables[k - 1], ops[k - 1], t);
    }
  }

  lemma ClaimsAreTaskClaims(st: seq<State>, steps: seq<Step>, start: Time, k: nat, t: TaskId)
    requires Run(st, steps) && k <= |steps|
    ensures Claims(st, steps, k, t) == Tasks.Claims(TaskTables(st), TaskOps(st, steps, start), k, t)
  {
    var tables, ops := TaskTables(st), TaskOps(st, steps, start);
    forall i | 0 <= i < |steps|
      ensures Agree(st[i], steps[i], tables[i], ops[i], t)
    {
      OpAt(st, steps, start, i, t);
    }
    SameCount(st, steps, tables, ops, k, t);
  }

  lemma SameLimit(st: seq<State>, steps: seq<Step>, maxAttempts: int)
    requires Run(st, steps)
    requires forall i :: 0 <= i < |steps| && steps[i].Reclaim? ==> steps[i].maxAttempts == maxAttempts
    ensures var ops := TaskOps(st, steps, 0.0);
            forall i :: 0 <= i < |ops| && ops[i].Reclaim? ==> ops[i].maxAttempts == maxAttempts
  {
  }

  /**
   * In every reachable state of the pipeline with one attempt limit: a task is processing
   * exactly while its lease is set, its attempts are the claims granted to workers since it
   * was submitted, and a queued task has an attempt left.
   */
  lemma LifecycleHolds(st: seq<State>, steps: seq<Step>, k: nat, maxAttempts: int, t: TaskId)
    requires Run(st, steps) && st[0] == EMPTY && k <= |steps| && maxAttempts >= 1 && t in st[k].tasks
    requires forall i :: 0 <= i < |steps| && steps[i].Reclaim? ==> steps[i].maxAttempts == maxAttempts
    ensures Tasks.Lifecycle(st[k].tasks[t], Claims(st, steps, k, t), maxAttempts)
  {
    PipelineIsATaskRun(st, steps, 0.0);
    SameLimit(st, steps, maxAttempts);
    Tasks.LifecycleHolds(TaskTables(st), TaskOps(st, steps, 0.0), k, maxAttempts);
    ClaimsAreTaskClaims(st, steps, 0.0, k, t);
  }

  /** A task that is completed or failed stays so, unless it is purged and submitted anew. */
  lemma TerminalIsFinal(st: seq<State>, steps: seq<Step>, i: nat, k: nat, t: TaskId)
    requires Run(st, steps) && i <= k <= |steps| && t in st[i].tasks && Tasks.Terminal(st[i].tasks[t])
    requires NoSubmit(steps, i, k, t)
    ensures t in st[k].tasks ==> Tasks.Terminal(st[k].tasks[t])
  {
    PipelineIsATaskRun(st, steps, 0.0);
    NotRecreated(st, steps, 0.0, i, k, t);
    Tasks.TerminalIsFinal(TaskTables(st), TaskOps(st, steps, 0.0), i, k, t);
  }

  // ----- how a task ends -----

  /** What a step writes to the row of `t` that tells how the task ended. */
  ghost function WriteBy(s: State, a: Step, t: TaskId): Tasks.Write {
    if !Enabled(s, a) then Tasks.Nothing
    else
      match a
      case Submit(x, _, _, _, _, _) => if x == t then Tasks.Created else Tasks.Nothing
      case FinishTask(_, _, ok, detail) =>
        if TaskOf(s, a) != t || t !in s.tasks then Tasks.Nothing
        else if ok then Tasks.Succeeded(detail) else Tasks.Broke(detail)
      case Reclaim(ids, _, _, maxAttempts) =>
        if t in ids && s.tasks[t].attempts >= maxAttempts then Tasks.Broke(Tasks.MAX_ATTEMPTS_EXCEEDED)
        else Tasks.Nothing
      case _ => Tasks.Nothing
  }

  /** The latest write of that kind. */
  ghost function LastWrite(st: seq<State>, steps: seq<Step>, k: nat, t: TaskId): Tasks.Write
    requires |st| == |steps| + 1 && k <= |steps|
  {
    if k == 0 then Tasks.Nothing
    else
      var w := WriteBy(st[k - 1], steps[k - 1], t);
      if w.Nothing? then LastWrite(st, steps, k - 1, t) else w
  }

  /** The result of the latest successful handling since the task was submitted. */
  ghost function LastResult(st: seq<State>, steps: seq<Step>, k: nat, t: TaskId): Option<string>
    requires |st| == |steps| + 1 && k <= |steps|
  {
    if k == 0 then None
    else
      match WriteBy(st[k - 1], steps[k - 1], t)
      case Created => None
      case Succeeded(result) => Some(result)
      case _ => LastResult(st, steps, k - 1, t)
  }

  lemma SameWrite(s: State, a: Step, at: Time, t: TaskId)
    requires Enabled(s, a)
    ensures WriteBy(s, a, t) == Tasks.WriteTo(s.tasks, TaskOp(s, a, at), t)
  {
  }

  lemma WriteAt(st: seq<State>, steps: seq<Step>, start: Time, i: nat, t: TaskId)
    requires Run(st, steps) && i < |steps|
    ensures WriteBy(st[i], steps[i], t) == Tasks.WriteTo(TaskTables(st)[i], TaskOps(st, steps, start)[i], t)
  {
    SameWrite(st[i], steps[i], Clock(steps, start, i), t);
  }

  lemma {:induction false} SameHistory(
    st: seq<State>, steps: seq<Step>, tables: seq<Tasks.Table>, ops: seq<Tasks.Op>, k: nat, t: TaskId)
    requires |st| == |tables| == |steps| + 1 && |ops| == |steps| && k <= |steps|
    requires forall i {:trigger ops[i]} :: 0 <= i < |steps| ==>
               WriteBy(st[i], steps[i], t) == Tasks.WriteTo(tables[i], ops[i], t)
    ensures LastWrite(st, steps, k, t) == Tasks.LastWrite(tables, ops, k, t)
    ensures LastResult(st, steps, k, t) == Tasks.LastResult(tables, ops, k, t)
  {
    if k == 0 {
    } else {
      SameHistory(st, steps, tables, ops, k - 1, t);
      assert WriteBy(st[k - 1], steps[k - 1], t) == Tasks.WriteTo(tables[k - 1], ops[k - 1], t);
    }
  }

  /**
   * In every reachable state of the pipeline a task is completed exactly if the latest of its
   * finished handlings and exhausted reclaims was a handling that went well, failed exactly if
   * it was one of the others, and its result is that of the latest one that went well.
   */
  lemma TasksEndAsHandled(st: seq<State>, steps: seq<Step>, k: nat, t: TaskId)
    requires Run(st, steps) && st[0] == EMPTY && k <= |steps| && t in st[k].tasks
    ensures st[k].tasks[t].status == Tasks.Completed <==> LastWrite(st, steps, k, t).Succeeded?
    ensures st[k].tasks[t].status == Tasks.Failed <==> LastWrite(st, steps, k, t).Broke?
    ensures st[k].tasks[t].result == LastResult(st, steps, k, t)
  {
    var tables, ops := TaskTables(st), TaskOps(st, steps, 0.0);
    PipelineIsATaskRun(st, steps, 0.0);
    forall i {:trigger ops[i]} | 0 <= i < |steps|
      ensures WriteBy(st[i], steps[i], t) == Tasks.WriteTo(tables[i], ops[i], t)
    {
      WriteAt(st, steps, 0.0, i, t);
    }
    SameHistory(st, steps, tables, ops, k, t);
    Tasks.EndsAsLastWritten(tables, ops, k, t);
  }
}
