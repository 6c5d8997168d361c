/**
 * The Redis task store's optimistic transition: WATCH, GET, decide locally, MULTI/EXEC,
 * and start over when another writer touched the key. Clients interleave freely, keys may
 * expire, and other writers may overwrite a key at any time.
 */
module RedisTasks {
  import opened Prelude
  import opened Tasks

  type CallId = nat

  /** The two mutators that go through the transition loop. */
  datatype Mutator = ClaimIt(now: Time, lease: Time) | ReclaimIt(now: Time, maxAttempts: int)

  datatype Outcome = Gone | Declined | Applied(task: Task)

  /** Where one call stands between two Redis commands. */
  datatype Phase =
    | Start
    | Watching(version: nat)
    | Holding(version: nat, read: Task, write: Task)
    | Returned(outcome: Outcome)

  datatype Call = Call(key: Id, mutator: Mutator, phase: Phase)

  /** One entry per call or foreign write, in the order in which they took effect. */
  datatype Entry =
    | Done(call: CallId, key: Id, mutator: Mutator, outcome: Outcome)
    | Expired(key: Id)
    | Overwritten(key: Id, task: Task)

  /** `versions` counts the writes of a key; `log` and `history` only observe. */
  datatype State = State(
    db: Table,
    versions: map<Id, nat>,
    calls: map<CallId, Call>,
    log: seq<Entry>,
    history: seq<Table>)

  function Mutate(m: Mutator, t: Task): Option<Task> {
    match m
    case ClaimIt(now, lease) =>
      if t.status != Queued && !LeaseExpired(t, now) then None else Some(Claimed(t, now, lease))
    case ReclaimIt(now, maxAttempts) =>
      if !LeaseExpired(t, now) then None else Some(Reclaimed(t, maxAttempts))
  }

  function Version(s: State, key: Id): nat { if key in s.versions then s.versions[key] else 0 }

  // ----- the interleaved commands -----

  datatype Op =
    | Watch(id: CallId)
    | Get(id: CallId)
    | Exec(id: CallId)
    | Expire(key: Id)
    | Overwrite(key: Id, task: Task)

  predicate Enabled(s: State, op: Op) {
    match op
    case Watch(id) => id in s.calls && s.calls[id].phase.Start?
    case Get(id) => id in s.calls && s.calls[id].phase.Watching?
    case Exec(id) => id in s.calls && s.calls[id].phase.Holding?
    case Expire(key) => key in s.db
    case Overwrite(_, _) => true
  }

  function Move(s: State, id: CallId, phase: Phase): State
    requires id in s.calls
  {
    s.(calls := s.calls[id := s.calls[id].(phase := phase)])
  }

  function Record(s: State, e: Entry): State { s.(log := s.log + [e], history := s.history + [s.db]) }

  function Write(s: State, key: Id, db: Table): State {
    s.(db := db, versions := s.versions[key := Version(s, key) + 1])
  }

  function Return(s: State, id: CallId, outcome: Outcome): State
    requires id in s.calls
  {
    Record(Move(s, id, Returned(outcome)), Done(id, s.calls[id].key, s.calls[id].mutator, outcome))
  }

  function Apply(s: State, op: Op): State
    requires Enabled(s, op)
  {
    match op
    case Watch(id) => Move(s, id, Watching(Version(s, s.calls[id].key)))
    case Get(id) =>
      var c := s.calls[id];
      if c.key !in s.db then Return(s, id, Gone)
      else
        var t := s.db[c.key];
        (match Mutate(c.mutator, t)
         case None => Return(s, id, Declined)
         case Some(t') => Move(s, id, Holding(c.phase.version, t, t')))
    case Exec(id) =>
      var c := s.calls[id];
      if Version(s, c.key) == c.phase.version
      then Return(Write(s, c.key, s.db[c.key := c.phase.write]), id, Applied(c.phase.write))
      else Move(s, id, Start)
    case Expire(key) => Record(Write(s, key, s.db - {key}), Expired(key))
    case Overwrite(key, task) => Record(Write(s, key, s.db[key := task]), Overwritten(key, task))
  }

  // ----- the same calls, one after the other -----

  /** The atomic meaning of an entry: the outcome it must report and the table it leaves. */
  ghost predicate Serial(db: Table, e: Entry, db': Table) {
    match e
    case Expired(key) => db' == db - {key}
    case Overwritten(key, task) => db' == db[key := task]
    case Done(_, key, m, outcome) =>
      if key !in db then outcome == Gone && db' == db
      else
        match Mutate(m, db[key])
        case None => outcome == Declined && db' == db
        case Some(t) => outcome == Applied(t) && db' == db[key := t]
  }

  ghost predicate SerialRun(history: seq<Table>, log: seq<Entry>) {
    && |history| == |log| + 1
    && forall i {:trigger log[i]} :: 0 <= i < |log| ==> Serial(history[i], log[i], history[i + 1])
  }

  /** A call that holds a value may still commit only if the record it read is still there. */
  ghost predicate CallOk(s: State, c: Call) {
    match c.phase
    case Watching(v) => v <= Version(s, c.key)
    case Holding(v, read, write) =>
      && v <= Version(s, c.key)
      && Mutate(c.mutator, read) == Some(write)
      && (v == Version(s, c.key) ==> c.key in s.db && s.db[c.key] == read)
    case _ => true
  }

  ghost predicate Inv(s: State) {
    && SerialRun(s.history, s.log)
    && s.history[|s.log|] == s.db
    && forall id :: id in s.calls ==> CallOk(s, s.calls[id])
  }

  ghost predicate Init(s: State) {
    && s.log == [] && s.history == [s.db]
    && forall id :: id in s.calls ==> s.calls[id].phase.Start?
  }

  lemma SerialExtend(history: seq<Table>, log: seq<Entry>, e: Entry, db: Table)
    requires SerialRun(history, log) && Serial(history[|log|], e, db)
    ensures SerialRun(history + [db], log + [e])
  {
  }

  lemma InvStep(s: State, op: Op)
    requires Inv(s) && Enabled(s, op)
    ensures Inv(Apply(s, op))
  {
    var s' := Apply(s, op);
    if s'.log != s.log {
      SerialExtend(s.history, s.log, s'.log[|s.log|], s'.db);
    }
  }

  ghost predicate Run(st: seq<State>, ops: seq<Op>) {
    && |st| == |ops| + 1 && Init(st[0])
    && forall i {:trigger ops[i]} :: 0 <= i < |ops| ==> Enabled(st[i], ops[i]) && st[i + 1] == Apply(st[i], ops[i])
  }

  lemma {:induction false} InvHolds(st: seq<State>, ops: seq<Op>, k: nat)
    requires Run(st, ops) && k <= |ops|
    ensures Inv(st[k]) && st[k].history[0] == st[0].db
  {
    if k == 0 {
    } else {
      InvHolds(st, ops, k - 1);
      InvStep(st[k - 1], ops[k - 1]);
    }
  }

  /** The entry is the one that `c`, a call that has returned, put into the log. */
  ghost predicate EntryOf(e: Entry, id: CallId, c: Call) {
    c.phase.Returned? && e == Done(id, c.key, c.mutator, c.phase.outcome)
  }

  /** Calls that have returned and entries of calls correspond one to one. */
  ghost predicate Answered(calls: map<CallId, Call>, log: seq<Entry>) {
    && (forall i :: 0 <= i < |log| && log[i].Done? ==>
          log[i].call in calls && EntryOf(log[i], log[i].call, calls[log[i].call]))
    && (forall i, j :: 0 <= i < j < |log| && log[i].Done? && log[j].Done? ==> log[i].call != log[j].call)
    && (forall id :: id in calls && calls[id].phase.Returned? ==>
          exists i :: 0 <= i < |log| && EntryOf(log[i], id, calls[id]))
  }

  lemma MoveAnswers(calls: map<CallId, Call>, log: seq<Entry>, id: CallId, c: Call)
    requires Answered(calls, log) && id in calls && !calls[id].phase.Returned? && !c.phase.Returned?
    ensures Answered(calls[id := c], log)
  {
  }

  lemma ReturnAnswers(calls: map<CallId, Call>, log: seq<Entry>, id: CallId, c: Call, e: Entry)
    requires Answered(calls, log) && id in calls && !calls[id].phase.Returned? && EntryOf(e, id, c)
    ensures Answered(calls[id := c], log + [e])
  {
    var calls', log' := calls[id := c], log + [e];
    forall x | x in calls' && calls'[x].phase.Returned?
      ensures exists i :: 0 <= i < |log'| && EntryOf(log'[i], x, calls'[x])
    {
      if x == id {
        assert EntryOf(log'[|log|], x, calls'[x]);
      } else {
        var i :| 0 <= i < |log| && EntryOf(log[i], x, calls[x]);
        assert EntryOf(log'[i], x, calls'[x]);
      }
    }
  }

  lemma ForeignAnswers(calls: map<CallId, Call>, log: seq<Entry>, e: Entry)
    requires Answered(calls, log) && !e.Done?
    ensures Answered(calls, log + [e])
  {
    forall x | x in calls && calls[x].phase.Returned?
      ensures exists i :: 0 <= i < |log + [e]| && EntryOf((log + [e])[i], x, calls[x])
    {
      var i :| 0 <= i < |log| && EntryOf(log[i], x, calls[x]);
      assert EntryOf((log + [e])[i], x, calls[x]);
    }
  }

  lemma AnsweredStep(s: State, op: Op)
    requires Answered(s.calls, s.log) && Enabled(s, op)
    ensures Answered(Apply(s, op).calls, Apply(s, op).log)
  {
    var s' := Apply(s, op);
    if op.Expire? || op.Overwrite? {
      ForeignAnswers(s.calls, s.log, s'.log[|s.log|]);
    } else if s'.calls[op.id].phase.Returned? {
      ReturnAnswers(s.calls, s.log, op.id, s'.calls[op.id], s'.log[|s.log|]);
    } else {
      MoveAnswers(s.calls, s.log, op.id, s'.calls[op.id]);
    }
  }

  lemma {:induction false} AnsweredHolds(st: seq<State>, ops: seq<Op>, k: nat)
    requires Run(st, ops) && k <= |ops|
    ensures Answered(st[k].calls, st[k].log)
  {
    if k == 0 {
    } else {
      AnsweredHolds(st, ops, k - 1);
      AnsweredStep(st[k - 1], ops[k - 1]);
    }
  }

  /**
   * Every interleaving equals a serial run: replaying the logged calls atomically in
   * commit order gives every call the outcome it returned and ends in the same table.
   * The log has one entry for each call that has returned and none for any other.
   */
  lemma EveryRunIsSerial(st: seq<State>, ops: seq<Op>, k: nat)
    requires Run(st, ops) && k <= |ops|
    ensures SerialRun(st[k].history, st[k].log)
    ensures st[k].history[0] == st[0].db && st[k].history[|st[k].log|] == st[k].db
    ensures Answered(st[k].calls, st[k].log)
  {
    InvHolds(st, ops, k);
    AnsweredHolds(st, ops, k);
  }

  /** A commit replaces exactly the record that the call read, and by what its mutator made of it. */
  lemma CommitReplacesWhatWasRead(st: seq<State>, ops: seq<Op>, k: nat)
    requires Run(st, ops) && k < |ops| && ops[k].Exec?
    ensures var c := st[k].calls[ops[k].id];
            st[k + 1].calls[ops[k].id].phase.Returned? ==>
              && c.key in st[k].db && st[k].db[c.key] == c.phase.read
              && Mutate(c.mutator, c.phase.read) == Some(st[k + 1].db[c.key])
  {
    InvHolds(st, ops, k);
  }

  /** Of two calls that hold the same record, the first commit makes the second one start over. */
  lemma SecondCommitStartsOver(st: seq<State>, ops: seq<Op>, k: nat, other: CallId)
    requires Run(st, ops) && k < |ops| && ops[k].Exec? && other in st[k].calls && other != ops[k].id
    requires st[k].calls[other].phase.Holding? && st[k].calls[other].key == st[k].calls[ops[k].id].key
    requires st[k + 1].calls[ops[k].id].phase.Returned?
    ensures Enabled(st[k + 1], Exec(other))
    ensures Apply(st[k + 1], Exec(other)).calls[other].phase.Start?
  {
    InvHolds(st, ops, k);
  }

  // ----- the mutators are steps of the task store -----

  /** A claim in Redis is granted exactly when the task store grants it, and writes what its claim writes. */
  lemma ClaimsAsTheTaskStore(db: Table, key: Id, now: Time, lease: Time)
    requires key in db && lease > 0.0
    ensures var m := Mutate(ClaimIt(now, lease), db[key]);
            && (m.Some? <==> db[key].status == Queued || LeaseExpired(db[key], now))
            && (m.Some? <==> Granted(db, Tasks.Claim(key, now, lease)))
            && (m.Some? ==> Step(db, Tasks.Claim(key, now, lease), db[key := m.value]))
  {
  }

  /** A reclaim in Redis settles exactly an expired lease, as the reclaim of that one row does. */
  lemma ReclaimsAsTheTaskStore(db: Table, key: Id, now: Time, maxAttempts: int)
    requires key in db
    ensures var m := Mutate(ReclaimIt(now, maxAttempts), db[key]);
            && (m.Some? <==> LeaseExpired(db[key], now))
            && (m.Some? ==> Step(db, Tasks.Reclaim({key}, now, maxAttempts), db[key := m.value]))
  {
  }

  /** Left alone, a call answers in three commands as the task store would, and writes what that would write. */
  lemma LoneCallsAnswer(s: State, id: CallId)
    requires id in s.calls && s.calls[id].phase.Start?
    ensures Enabled(s, Watch(id)) && Enabled(Apply(s, Watch(id)), Get(id))
    ensures var c, s2 := s.calls[id], Apply(Apply(s, Watch(id)), Get(id));
            if c.key !in s.db then s2.calls[id].phase == Returned(Gone) && s2.db == s.db
            else if Mutate(c.mutator, s.db[c.key]).None? then s2.calls[id].phase == Returned(Declined) && s2.db == s.db
            else
              && Enabled(s2, Exec(id))
              && var t, s3 := Mutate(c.mutator, s.db[c.key]).value, Apply(s2, Exec(id));
                 s3.calls[id].phase == Returned(Applied(t)) && s3.db == s.db[c.key := t]
  {
  }

  /** A call that watches and is not disturbed by a write of its key commits at its first attempt. */
  lemma UndisturbedCallsCommit(st: seq<State>, ops: seq<Op>, i: nat, k: nat)
    requires Run(st, ops) && i < k < |ops| && ops[i].Watch? && ops[k].Exec? && ops[k].id == ops[i].id
    requires forall m :: i < m < k ==> ops[m] != Watch(ops[i].id)
    ensures var key := st[i].calls[ops[i].id].key;
            && ops[i].id in st[k + 1].calls
            && (st[k + 1].calls[ops[i].id].phase.Returned? <==> Version(st[k], key) == Version(st[i], key))
  {
    WatchIsRemembered(st, ops, i, k);
    assert Enabled(st[k], ops[k]) && st[k + 1] == Apply(st[k], ops[k]);
  }

  lemma {:induction false} WatchIsRemembered(st: seq<State>, ops: seq<Op>, i: nat, k: nat)
    requires Run(st, ops) && i < k <= |ops| && ops[i].Watch?
    requires forall m :: i < m < k ==> ops[m] != Watch(ops[i].id)
    ensures ops[i].id in st[i].calls && ops[i].id in st[k].calls
    ensures st[k].calls[ops[i].id].key == st[i].calls[ops[i].id].key
    ensures match st[k].calls[ops[i].id].phase
            case Watching(v) => v == Version(st[i], st[i].calls[ops[i].id].key)
            case Holding(v, _, _) => v == Version(st[i], st[i].calls[ops[i].id].key)
            case _ => true
    decreases k
  {
    assert Enabled(st[k - 1], ops[k - 1]) && st[k] == Apply(st[k - 1], ops[k - 1]);
    if k == i + 1 {
    } else {
      WatchIsRemembered(st, ops, i, k - 1);
    }
  }

  // ----- leases through the serial order -----

  ghost predicate Wins(e: Entry) { e.Done? && e.mutator.ClaimIt? && e.outcome.Applied? }

  /**
   * Entries of `key` between `i` and `j` carry times that do not go back, and whatever else
   * overwrites the record writes a terminal one, as completion and failure do.
   */
  ghost predicate Orderly(log: seq<Entry>, i: nat, j: nat, key: Id)
    requires i <= j < |log|
  {
    && (forall m :: i <= m <= j && log[m].key == key && log[m].Overwritten? ==> Terminal(log[m].task))
    && (forall m, n :: i <= m <= n <= j && log[m].Done? && log[n].Done? && log[m].key == key && log[n].key == key ==>
          log[m].mutator.now <= log[n].mutator.now)
  }

  /** The record stays out of reach until `deadline`, or some later entry of the key reached it. */
  lemma {:induction false} FencedInLog(history: seq<Table>, log: seq<Entry>, i: nat, j: nat, k: nat)
    requires SerialRun(history, log) && i < k <= j < |log| && Wins(log[i]) && Orderly(log, i, j, log[i].key)
    ensures var deadline := log[i].mutator.now + log[i].mutator.lease;
            log[i].key in history[k] ==>
              || Fenced(history[k][log[i].key], deadline, deadline - 1.0)
              || exists m :: i <= m < k && log[m].Done? && log[m].key == log[i].key && deadline <= log[m].mutator.now
  {
    if i + 1 < k {
      FencedInLog(history, log, i, j, k - 1);
      assert Serial(history[k - 1], log[k - 1], history[k]);
    } else {
      assert Serial(history[i], log[i], history[k]);
    }
  }

  /** Two claims of one record that both win lie at least a lease apart, whatever clients did between. */
  lemma WinningClaimsAreLeaseApart(st: seq<State>, ops: seq<Op>, k: nat, i: nat, j: nat)
    requires Run(st, ops) && k <= |ops| && i < j < |st[k].log|
    requires Wins(st[k].log[i]) && Wins(st[k].log[j]) && st[k].log[i].key == st[k].log[j].key
    requires Orderly(st[k].log, i, j, st[k].log[i].key)
    ensures st[k].log[i].mutator.now + st[k].log[i].mutator.lease <= st[k].log[j].mutator.now
  {
    InvHolds(st, ops, k);
    FencedInLog(st[k].history, st[k].log, i, j, j);
    assert Serial(st[k].history[j], st[k].log[j], st[k].history[j + 1]);
  }
}
