/**
 * One router shared by any number of calls. Their questions and reports interleave freely;
 * seen from one breaker they are a run of that breaker.
 */
module SharedRouter {
  import opened Prelude
  import B = Breaker
  import opened Failover

  /** One question or report of some call, to the breaker `key`. */
  datatype Touch = Touch(key: Key, op: B.Op)

  function Touched(bs: Breakers, t: Touch, p: B.Policy): Breakers {
    bs[t.key := B.Apply(BreakerOf(bs, t.key), p, t.op)]
  }

  /** The questions and reports of any number of calls, in the order of time. */
  ghost predicate SharedRun(st: seq<Breakers>, ts: seq<Touch>, p: B.Policy) {
    && B.Valid(p) && |st| == |ts| + 1 && st[0] == map[]
    && (forall i {:trigger ts[i]} :: 0 <= i < |ts| ==> st[i + 1] == Touched(st[i], ts[i], p))
    && (forall i, j :: 0 <= i < j < |ts| ==> ts[i].op.at <= ts[j].op.at)
  }

  // ----- one breaker of many -----

  /** What the first `n` touches ask and tell the breaker `k`. */
  function Own(ts: seq<Touch>, k: Key, n: nat): seq<B.Op>
    requires n <= |ts|
  {
    if n == 0 then [] else Own(ts, k, n - 1) + if ts[n - 1].key == k then [ts[n - 1].op] else []
  }

  /** The states it goes through. */
  ghost function OwnStates(st: seq<Breakers>, ts: seq<Touch>, k: Key, n: nat): (r: seq<B.State>)
    requires n <= |ts| < |st|
    ensures |r| == |Own(ts, k, n)| + 1
  {
    if n == 0 then [BreakerOf(st[0], k)]
    else OwnStates(st, ts, k, n - 1) + if ts[n - 1].key == k then [BreakerOf(st[n], k)] else []
  }

  lemma {:induction false} OwnStateNow(st: seq<Breakers>, ts: seq<Touch>, p: B.Policy, k: Key, n: nat)
    requires SharedRun(st, ts, p) && n <= |ts|
    ensures OwnStates(st, ts, k, n)[|Own(ts, k, n)|] == BreakerOf(st[n], k)
  {
    if n == 0 {
    } else {
      OwnStateNow(st, ts, p, k, n - 1);
      assert st[n] == Touched(st[n - 1], ts[n - 1], p);
    }
  }

  lemma {:induction false} OwnIsEarlier(ts: seq<Touch>, k: Key, n: nat, j: nat)
    requires n <= j < |ts| && forall i, j :: 0 <= i < j < |ts| ==> ts[i].op.at <= ts[j].op.at
    ensures forall m :: 0 <= m < |Own(ts, k, n)| ==> Own(ts, k, n)[m].at <= ts[j].op.at
  {
    if n == 0 {
    } else {
      OwnIsEarlier(ts, k, n - 1, j);
    }
  }

  lemma RunSnoc(st: seq<B.State>, ops: seq<B.Op>, p: B.Policy, op: B.Op, s: B.State)
    requires B.Run(st, ops, p) && s == B.Apply(st[|ops|], p, op) && forall m :: 0 <= m < |ops| ==> ops[m].at <= op.at
    ensures B.Run(st + [s], ops + [op], p)
  {
    var st', ops' := st + [s], ops + [op];
    forall i {:trigger ops'[i]} | 0 <= i < |ops'|
      ensures st'[i + 1] == B.Apply(st'[i], p, ops'[i])
    {
      if i < |ops| {
        assert ops'[i] == ops[i];
      }
    }
  }

  /** Whatever calls there are, each breaker of the router goes through a run of its own. */
  lemma {:induction false} EachBreakerRuns(st: seq<Breakers>, ts: seq<Touch>, p: B.Policy, k: Key, n: nat)
    requires SharedRun(st, ts, p) && n <= |ts|
    ensures B.Run(OwnStates(st, ts, k, n), Own(ts, k, n), p)
  {
    if n == 0 {
    } else {
      EachBreakerRuns(st, ts, p, k, n - 1);
      if ts[n - 1].key == k {
        OwnStateNow(st, ts, p, k, n - 1);
        OwnIsEarlier(ts, k, n - 1, n - 1);
        assert st[n] == Touched(st[n - 1], ts[n - 1], p);
        RunSnoc(OwnStates(st, ts, k, n - 1), Own(ts, k, n - 1), p, ts[n - 1].op, BreakerOf(st[n], k));
      }
    }
  }

  /** Touch `i` of breaker `k` is the operation number `|Own(ts, k, i)|` of its run. */
  lemma {:induction false} OwnAt(st: seq<Breakers>, ts: seq<Touch>, p: B.Policy, k: Key, i: nat, n: nat)
    requires SharedRun(st, ts, p) && i < n <= |ts| && ts[i].key == k
    ensures var m := |Own(ts, k, i)|;
            && m < |Own(ts, k, n)| && Own(ts, k, n)[m] == ts[i].op
            && OwnStates(st, ts, k, n)[m] == BreakerOf(st[i], k)
            && OwnStates(st, ts, k, n)[m + 1] == BreakerOf(st[i + 1], k)
    decreases n
  {
    if i + 1 == n {
      OwnStateNow(st, ts, p, k, i);
    } else {
      OwnAt(st, ts, p, k, i, n - 1);
    }
  }

  lemma {:induction false} OwnGrows(ts: seq<Touch>, k: Key, i: nat, j: nat)
    requires i <= j <= |ts|
    ensures |Own(ts, k, i)| <= |Own(ts, k, j)|
    decreases j
  {
    if i == j {
    } else {
      OwnGrows(ts, k, i, j - 1);
    }
  }

  /** And every operation of its run is such a touch. */
  lemma {:induction false} OwnFrom(ts: seq<Touch>, k: Key, n: nat, m: nat) returns (i: nat)
    requires n <= |ts| && m < |Own(ts, k, n)|
    ensures i < n && ts[i].key == k && |Own(ts, k, i)| == m && Own(ts, k, n)[m] == ts[i].op
    decreases n
  {
    if m == |Own(ts, k, n - 1)| {
      i := n - 1;
    } else {
      i := OwnFrom(ts, k, n - 1, m);
    }
  }

  /** The operations strictly between two touches of `k` come from touches of `k` strictly between them. */
  lemma OwnBetween(ts: seq<Touch>, k: Key, i: nat, j: nat, n: nat, m: nat) returns (x: nat)
    requires i < j < n <= |ts| && |Own(ts, k, i)| < m < |Own(ts, k, j)| && m < |Own(ts, k, n)|
    ensures i < x < j && ts[x].key == k && |Own(ts, k, x)| == m && Own(ts, k, n)[m] == ts[x].op
  {
    x := OwnFrom(ts, k, n, m);
    if x <= i { OwnGrows(ts, k, x, i); }
    if j <= x { OwnGrows(ts, k, j, x); }
  }

  // ----- the guarantees of a breaker, for every target of the router -----

  /** A target is closed exactly while the transient failures all calls reported since its last success are too few. */
  lemma TargetIsClosedBelowTheThreshold(st: seq<Breakers>, ts: seq<Touch>, p: B.Policy, k: Key, n: nat)
    requires SharedRun(st, ts, p) && n <= |ts|
    ensures var ops := Own(ts, k, n);
            BreakerOf(st[n], k).mode == B.Closed <==> B.Streak(ops, |ops|) < p.threshold
  {
    EachBreakerRuns(st, ts, p, k, n);
    OwnStateNow(st, ts, p, k, n);
    B.ClosedBelowTheThreshold(OwnStates(st, ts, k, n), Own(ts, k, n), p, |Own(ts, k, n)|);
  }

  lemma LeasesAreForProbes(st: seq<Breakers>, ts: seq<Touch>, p: B.Policy, n: nat, k: Key)
    requires SharedRun(st, ts, p) && n <= |ts|
    ensures B.LeasesOnlyProbes(BreakerOf(st[n], k))
  {
    EachBreakerRuns(st, ts, p, k, n);
    OwnStateNow(st, ts, p, k, n);
    B.LeaseIsForProbes(OwnStates(st, ts, k, n), Own(ts, k, n), p, |Own(ts, k, n)|);
  }

  /** Touch `i` is an attempt at `k` that the breaker admits. */
  ghost predicate AdmitsAt(st: seq<Breakers>, ts: seq<Touch>, k: Key, i: nat) {
    i < |ts| < |st| && ts[i].key == k && ts[i].op.Acquire? && B.Admits(BreakerOf(st[i], k), ts[i].op.at)
  }

  /** Touch `o` opens the breaker `k`, and until `j` nobody reports a success to it. */
  ghost predicate OpensUntil(st: seq<Breakers>, ts: seq<Touch>, o: nat, j: nat, k: Key) {
    && o < j <= |ts| < |st| && ts[o].key == k
    && BreakerOf(st[o], k).mode != B.Open && BreakerOf(st[o + 1], k).mode == B.Open
    && forall m :: o < m < j && ts[m].key == k ==> !ts[m].op.Success?
  }

  /** After any call has opened a target, no call is admitted there for a cooldown without a success. */
  lemma NobodyDuringCooldown(st: seq<Breakers>, ts: seq<Touch>, p: B.Policy, o: nat, j: nat, k: Key)
    requires SharedRun(st, ts, p) && OpensUntil(st, ts, o, j, k) && AdmitsAt(st, ts, k, j)
    ensures ts[j].op.at >= ts[o].op.at + p.cooldown
  {
    var n := |ts|;
    var a, b, ops := |Own(ts, k, o)|, |Own(ts, k, j)|, Own(ts, k, n);
    EachBreakerRuns(st, ts, p, k, n);
    OwnAt(st, ts, p, k, o, n);
    OwnAt(st, ts, p, k, j, n);
    OwnAt(st, ts, p, k, o, j);
    assert B.NoSuccess(ops, a, b) by {
      forall m | a < m < b && m < |ops|
        ensures !ops[m].Success?
      {
        var x := OwnBetween(ts, k, o, j, n, m);
      }
    }
    B.NobodyDuringCooldown(OwnStates(st, ts, k, n), ops, p, a, b);
  }

  /** Touch `i` reports a transient failure to `k`, and until `j` nobody reports a success to it. */
  ghost predicate FailsUntil(ts: seq<Touch>, i: nat, j: nat, k: Key) {
    && i < j <= |ts| && ts[i].key == k && ts[i].op.Failure? && B.Transient(ts[i].op.error)
    && forall m :: i < m < j && ts[m].key == k ==> !ts[m].op.Success?
  }

  /** A failed probe of a target, whoever reports it, keeps every call away for a cooldown without a success. */
  lemma FailedProbeReopens(st: seq<Breakers>, ts: seq<Touch>, p: B.Policy, i: nat, j: nat, k: Key)
    requires SharedRun(st, ts, p) && FailsUntil(ts, i, j, k) && AdmitsAt(st, ts, k, j)
    requires BreakerOf(st[i], k).mode == B.HalfOpen
    ensures ts[j].op.at >= ts[i].op.at + p.cooldown
  {
    var n := |ts|;
    var a, b, ops := |Own(ts, k, i)|, |Own(ts, k, j)|, Own(ts, k, n);
    EachBreakerRuns(st, ts, p, k, n);
    OwnAt(st, ts, p, k, i, n);
    OwnAt(st, ts, p, k, j, n);
    OwnAt(st, ts, p, k, i, j);
    assert B.NoSuccess(ops, a, b) by {
      forall m | a < m < b && m < |ops|
        ensures !ops[m].Success?
      {
        var x := OwnBetween(ts, k, i, j, n, m);
      }
    }
    B.FailedProbeReopens(OwnStates(st, ts, k, n), ops, p, a, b);
  }

  /** Two probes of a target, by whatever calls, with no report to it between them are a cooldown apart. */
  lemma ProbesAreACooldownApart(st: seq<Breakers>, ts: seq<Touch>, p: B.Policy, i: nat, j: nat, k: Key)
    requires SharedRun(st, ts, p) && i < j && AdmitsAt(st, ts, k, i) && AdmitsAt(st, ts, k, j)
    requires BreakerOf(st[i], k).mode != B.Closed && BreakerOf(st[j], k).mode != B.Closed
    requires forall m :: i < m < j && ts[m].key == k ==> ts[m].op.Acquire?
    ensures ts[j].op.at >= ts[i].op.at + p.cooldown
  {
    var n := |ts|;
    var a, b, ops := |Own(ts, k, i)|, |Own(ts, k, j)|, Own(ts, k, n);
    EachBreakerRuns(st, ts, p, k, n);
    OwnAt(st, ts, p, k, i, n);
    OwnAt(st, ts, p, k, j, n);
    OwnAt(st, ts, p, k, i, j);
    assert B.NoReport(ops, a, b) by {
      forall m | a < m < b && m < |ops|
        ensures ops[m].Acquire?
      {
        var x := OwnBetween(ts, k, i, j, n, m);
      }
    }
    B.ProbesAreACooldownApart(OwnStates(st, ts, k, n), ops, p, a, b);
  }

  /** No target wedges: a cooldown after any touch of it, with attempts only since, some call has been admitted. */
  lemma NoTargetWedges(st: seq<Breakers>, ts: seq<Touch>, p: B.Policy, i: nat, j: nat, k: Key) returns (x: nat)
    requires SharedRun(st, ts, p) && i < j < |ts| && ts[i].key == k && ts[j].key == k
    requires forall m :: i < m <= j && ts[m].key == k ==> ts[m].op.Acquire?
    requires ts[j].op.at >= ts[i].op.at + p.cooldown
    ensures i < x <= j && AdmitsAt(st, ts, k, x)
  {
    var n := |ts|;
    var a, b, ops := |Own(ts, k, i)|, |Own(ts, k, j)|, Own(ts, k, n);
    EachBreakerRuns(st, ts, p, k, n);
    OwnAt(st, ts, p, k, i, n);
    OwnAt(st, ts, p, k, j, n);
    OwnAt(st, ts, p, k, i, j);
    forall m | a + 1 <= m <= b
      ensures ops[m].Acquire?
    {
      if m < b { var y := OwnBetween(ts, k, i, j, n, m); }
    }
    var c := B.NeverWedges(OwnStates(st, ts, k, n), ops, p, a + 1, b);
    if c == b {
      x := j;
    } else {
      x := OwnBetween(ts, k, i, j, n, c);
      OwnAt(st, ts, p, k, x, n);
    }
  }

  // ----- calls that interleave -----

  type CallId = nat

  /** The model call that is under way: the clock and the breakers at its admission. */
  datatype Asking = Asking(head: Time, atAsk: Breakers, asked: Time)

  /** One `ainvoke`; `turns` and `log` observe what it has met and done so far. */
  datatype Call = Call(
    chain: seq<string>, role: Role, deadline: Time, turns: seq<Turn>, asking: Option<Asking>,
    last: Option<B.Error>, ending: Option<Ending>, log: seq<Event>)

  /** `history` and `touches` observe what became of the breakers. */
  datatype State = State(breakers: Breakers, calls: map<CallId, Call>, history: seq<Breakers>, touches: seq<Touch>)

  datatype Step =
    | Begin(id: CallId, chain: seq<string>, role: Role, deadline: Time)
    | Go(id: CallId, head: Time, at: Time)       // the loop up to the next await
    | Hear(id: CallId, reply: Reply, at: Time)   // the model call ends and is reported

  predicate Enabled(s: State, a: Step) {
    match a
    case Begin(id, _, _, _) => id !in s.calls
    case Go(id, _, at) => id in s.calls && s.calls[id].asking.None? && s.calls[id].ending.None? && InTime(s, at)
    case Hear(id, _, at) => id in s.calls && s.calls[id].asking.Some? && InTime(s, at)
  }

  predicate InTime(s: State, at: Time) { s.touches != [] ==> s.touches[|s.touches| - 1].op.at <= at }

  function Put(s: State, id: CallId, c: Call): State { s.(calls := s.calls[id := c]) }

  function Do(s: State, t: Touch, p: B.Policy): State {
    var bs := Touched(s.breakers, t, p);
    s.(breakers := bs, history := s.history + [bs], touches := s.touches + [t])
  }

  predicate Fits(c: Call) { |c.turns| < |c.chain| }

  function Here(c: Call): Key
    requires Fits(c)
  {
    (c.role, c.chain[|c.turns|])
  }

  function OutOfTargets(c: Call): Call {
    c.(ending := Some(if c.last.Some? then Raised(c.last.value) else Unavailable))
  }

  /** A position that is passed without a model call: it is too late, or the breaker refuses. */
  function Passed(c: Call, head: Time, at: Time, bs: Breakers): Call {
    c.(turns := c.turns + [Turn(head, bs, at, CutShort, bs, at)])
  }

  function TooLate(c: Call, head: Time, at: Time, bs: Breakers): Call {
    Passed(c, head, at, bs).(ending := Some(DeadlineExceeded))
  }

  function Refused(c: Call, head: Time, at: Time, bs: Breakers, left: B.State): Call {
    Passed(c, head, at, bs).(log := c.log + [Asked(|c.turns|, false, left)])
  }

  function Started(c: Call, head: Time, at: Time, bs: Breakers, left: B.State): Call {
    c.(asking := Some(Asking(head, bs, at)), log := c.log + [Asked(|c.turns|, true, left)])
  }

  function Answered(c: Call, reply: Reply, at: Time, bs: Breakers, left: B.State): Call
    requires c.asking.Some?
  {
    var a := c.asking.value;
    var c' := c.(asking := None, turns := c.turns + [Turn(a.head, a.atAsk, a.asked, reply, bs, at)],
                 log := c.log + [Reported(|c.turns|, ReportOf(reply), left)]);
    match reply
    case Replied(m) => c'.(ending := Some(Message(m)))
    case CutShort => c'.(ending := Some(DeadlineExceeded))
    case Threw(e) => if B.Transient(e) then c'.(last := Some(e)) else c'.(ending := Some(Raised(e)))
  }

  function OpOf(report: Report, now: Time): B.Op {
    match report
    case Success => B.Op.Success(now)
    case Failure(e) => B.Op.Failure(now, e)
    case Release => B.Op.Release(now)
  }

  function Gone(s: State, id: CallId, head: Time, at: Time, p: B.Policy): State
    requires id in s.calls
  {
    var c, bs := s.calls[id], s.breakers;
    if !Fits(c) then Put(s, id, OutOfTargets(c))
    else if c.deadline - head <= 0.0 then Put(s, id, TooLate(c, head, at, bs))
    else if |c.chain| == 1 then Put(s, id, Started(c, head, at, bs, BreakerOf(bs, Here(c))))
    else
      var s' := Do(s, Touch(Here(c), B.Acquire(at)), p);
      var left := BreakerOf(s'.breakers, Here(c));
      if B.Admits(BreakerOf(bs, Here(c)), at) then Put(s', id, Started(c, head, at, bs, left))
      else Put(s', id, Refused(c, head, at, bs, left))
  }

  function Done(s: State, id: CallId, reply: Reply, at: Time, p: B.Policy): State
    requires id in s.calls && s.calls[id].asking.Some?
  {
    var c := s.calls[id];
    if !Fits(c) then s
    else
      var s' := Do(s, Touch(Here(c), OpOf(ReportOf(reply), at)), p);
      Put(s', id, Answered(c, reply, at, s.breakers, BreakerOf(s'.breakers, Here(c))))
  }

  function Apply(s: State, a: Step, p: B.Policy): State
    requires Enabled(s, a)
  {
    match a
    case Begin(id, chain, role, deadline) => Put(s, id, Call(chain, role, deadline, [], None, None, None, []))
    case Go(id, head, at) => Gone(s, id, head, at, p)
    case Hear(id, reply, at) => Done(s, id, reply, at, p)
  }

  const IDLE := State(map[], map[], [map[]], [])

  ghost predicate Run(st: seq<State>, steps: seq<Step>, p: B.Policy) {
    && B.Valid(p) && |st| == |steps| + 1 && st[0] == IDLE
    && forall i {:trigger steps[i]} :: 0 <= i < |steps| ==>
         Enabled(st[i], steps[i]) && st[i + 1] == Apply(st[i], steps[i], p)
  }

  /** A call remembers what it met: the clock, the breakers and the replies are recorded as they were. */
  lemma TurnsAreRecorded(s: State, a: Step, p: B.Policy)
    requires Enabled(s, a) && !a.Begin? && Fits(s.calls[a.id])
    ensures a.id in Apply(s, a, p).calls
    ensures var c, c' := s.calls[a.id], Apply(s, a, p).calls[a.id];
            && c'.chain == c.chain && c'.role == c.role && c'.deadline == c.deadline
            && match a
               case Go(_, head, at) =>
                 if c'.asking.Some? then c'.asking == Some(Asking(head, s.breakers, at)) && c'.turns == c.turns
                 else
                   && |c'.turns| == |c.turns| + 1 && c'.turns[..|c.turns|] == c.turns
                   && var turn := c'.turns[|c.turns|];
                      turn.head == head && turn.atAsk == s.breakers && turn.asked == at
               case Hear(_, reply, at) =>
                 && var asked := c.asking.value;
                    c'.turns == c.turns + [Turn(asked.head, asked.atAsk, asked.asked, reply, s.breakers, at)]
  {
  }

  /** The chain, the role and the deadline of a call are those it began with. */
  lemma {:induction false} CallsKeepTheirTerms(st: seq<State>, steps: seq<Step>, p: B.Policy, k: nat, id: CallId)
    returns (i: nat)
    requires Run(st, steps, p) && k <= |steps| && id in st[k].calls
    ensures var c := st[k].calls[id]; i < k && steps[i] == Begin(id, c.chain, c.role, c.deadline)
  {
    var s, a := st[k - 1], steps[k - 1];
    assert Enabled(s, a) && st[k] == Apply(s, a, p);
    if a.Begin? && a.id == id {
      i := k - 1;
    } else {
      i := CallsKeepTheirTerms(st, steps, p, k - 1, id);
      if a.id == id && Fits(s.calls[id]) { TurnsAreRecorded(s, a, p); }
    }
  }

  // ----- interleaved calls are a shared run -----

  ghost predicate Recorded(s: State, p: B.Policy) {
    SharedRun(s.history, s.touches, p) && s.history[|s.touches|] == s.breakers
  }

  lemma DoRecords(s: State, t: Touch, p: B.Policy)
    requires Recorded(s, p) && InTime(s, t.op.at)
    ensures Recorded(Do(s, t, p), p)
  {
    var s' := Do(s, t, p);
    forall i {:trigger s'.touches[i]} | 0 <= i < |s'.touches|
      ensures s'.history[i + 1] == Touched(s'.history[i], s'.touches[i], p)
    {
      if i < |s.touches| {
        assert s'.touches[i] == s.touches[i];
      }
    }
  }

  lemma StepRecords(s: State, a: Step, p: B.Policy)
    requires Recorded(s, p) && Enabled(s, a)
    ensures Recorded(Apply(s, a, p), p)
  {
    match a
    case Begin(_, _, _, _) =>
    case Go(id, head, at) => if Fits(s.calls[id]) { DoRecords(s, Touch(Here(s.calls[id]), B.Acquire(at)), p); }
    case Hear(id, reply, at) =>
      if Fits(s.calls[id]) { DoRecords(s, Touch(Here(s.calls[id]), OpOf(ReportOf(reply), at)), p); }
  }

  /** In every interleaving of any number of calls, the breakers go through a shared run. */
  lemma {:induction false} CallsAreASharedRun(st: seq<State>, steps: seq<Step>, p: B.Policy, k: nat)
    requires Run(st, steps, p) && k <= |steps|
    ensures SharedRun(st[k].history, st[k].touches, p) && st[k].history[|st[k].touches|] == st[k].breakers
  {
    if k == 0 {
    } else {
      CallsAreASharedRun(st, steps, p, k - 1);
      StepRecords(st[k - 1], steps[k - 1], p);
    }
  }

  // ----- and each of them is a walk -----

  /** `w` is a whole script that begins as the call has gone so far. */
  ghost predicate Completes(w: Walk, c: Call, p: B.Policy) {
    && w.chain == c.chain && w.role == c.role && w.deadline == c.deadline && w.policy == p && Scripted(w)
    && |c.turns| <= |c.chain| && w.turns[..|c.turns|] == c.turns
    && (c.asking.Some? ==>
          && Fits(c)
          && var a, turn := c.asking.value, w.turns[|c.turns|];
             turn.head == a.head && turn.atAsk == a.atAsk && turn.asked == a.asked)
  }

  /** What the walk has logged before position `i`, with `rest` still to come. */
  ghost predicate Before(w: Walk, i: nat, last: Option<B.Error>, log: seq<Event>)
    requires Scripted(w) && i <= |w.chain|
  {
    var whole, rest := From(w, 0, map[], None), From(w, i, map[], last);
    whole.ending == rest.ending && whole.log == log + rest.log
  }

  ghost predicate After(w: Walk, ending: Ending, log: seq<Event>)
    requires Scripted(w)
  {
    From(w, 0, map[], None).ending == ending && From(w, 0, map[], None).log == log
  }

  /** The call does what the recursive walk over any completion of its script does. */
  ghost predicate Tells(w: Walk, c: Call, p: B.Policy)
    requires Completes(w, c, p)
  {
    var i, n := |c.turns|, |c.log|;
    if c.ending.Some? then c.asking.None? && After(w, c.ending.value, c.log)
    else if c.asking.None? then Before(w, i, c.last, c.log)
    else
      && n > 0 && c.log[n - 1] == Asked(i, true, AskLeaves(w, i)) && Before(w, i, c.last, c.log[..n - 1])
      && !Late(w, i) && Admitted(w, i)
  }

  ghost predicate CallOk(c: Call, p: B.Policy) { forall w :: Completes(w, c, p) ==> Tells(w, c, p) }

  lemma {:induction false} BreakersDoNotMatter(w: Walk, i: nat, a: Breakers, b: Breakers, last: Option<B.Error>)
    requires Scripted(w) && i <= |w.chain|
    ensures From(w, i, a, last).ending == From(w, i, b, last).ending
    ensures From(w, i, a, last).log == From(w, i, b, last).log
    decreases |w.chain| - i
  {
    if i == |w.chain| {
    } else {
      var v := Visited(w, i);
      if v.ending.None? { BreakersDoNotMatter(w, i + 1, Left(w, i, a), Left(w, i, b), Later(last, v.error)); }
    }
  }

  /** One position further. */
  lemma Further(w: Walk, i: nat, last: Option<B.Error>, log: seq<Event>)
    requires Scripted(w) && i < |w.chain| && Before(w, i, last, log)
    ensures var v := Visited(w, i);
            if v.ending.Some? then After(w, v.ending.value, log + v.log)
            else Before(w, i + 1, Later(last, v.error), log + v.log)
  {
    var v := Visited(w, i);
    if v.ending.None? {
      BreakersDoNotMatter(w, i + 1, Left(w, i, map[]), map[], Later(last, v.error));
      var rest := From(w, i + 1, map[], Later(last, v.error));
      assert From(w, i, map[], last).log == v.log + rest.log;
      assert log + (v.log + rest.log) == log + v.log + rest.log;
    } else {
      assert From(w, i, map[], last).log == v.log;
    }
  }

  lemma Shorter(w: Walk, c: Call, c': Call, p: B.Policy, turn: Turn)
    requires Completes(w, c', p) && c'.turns == c.turns + [turn]
    requires c'.chain == c.chain && c'.role == c.role && c'.deadline == c.deadline
    requires c.asking.Some? ==>
               var a := c.asking.value; turn.head == a.head && turn.atAsk == a.atAsk && turn.asked == a.asked
    ensures Completes(w, c, p) && Fits(c) && w.turns[|c.turns|] == turn
  {
    var n := |c.turns|;
    assert w.turns[n] == w.turns[..n + 1][n] == turn;
    assert w.turns[..n] == w.turns[..n + 1][..n] == c.turns;
  }

  lemma TooLateTells(c: Call, head: Time, at: Time, bs: Breakers, p: B.Policy)
    requires CallOk(c, p) && c.asking.None? && c.ending.None? && Fits(c) && c.deadline - head <= 0.0
    ensures CallOk(TooLate(c, head, at, bs), p)
  {
    var c' := TooLate(c, head, at, bs);
    forall w | Completes(w, c', p)
      ensures Tells(w, c', p)
    {
      Shorter(w, c, c', p, Turn(head, bs, at, CutShort, bs, at));
      assert Tells(w, c, p);
      Further(w, |c.turns|, c.last, c.log);
      assert c.log + [] == c.log;
    }
  }

  lemma RefusedTells(c: Call, head: Time, at: Time, bs: Breakers, p: B.Policy, left: B.State)
    requires CallOk(c, p) && c.asking.None? && c.ending.None? && Fits(c) && c.deadline - head > 0.0 && |c.chain| > 1
    requires !B.Admits(BreakerOf(bs, Here(c)), at) && left == B.Acquired(BreakerOf(bs, Here(c)), p, at)
    ensures CallOk(Refused(c, head, at, bs, left), p)
  {
    var c' := Refused(c, head, at, bs, left);
    forall w | Completes(w, c', p)
      ensures Tells(w, c', p)
    {
      Shorter(w, c, c', p, Turn(head, bs, at, CutShort, bs, at));
      assert Tells(w, c, p);
      Further(w, |c.turns|, c.last, c.log);
    }
  }

  lemma StartedTells(c: Call, head: Time, at: Time, bs: Breakers, p: B.Policy, left: B.State)
    requires CallOk(c, p) && c.asking.None? && c.ending.None? && Fits(c) && c.deadline - head > 0.0
    requires |c.chain| == 1 || B.Admits(BreakerOf(bs, Here(c)), at)
    requires left == if |c.chain| == 1 then BreakerOf(bs, Here(c)) else B.Acquired(BreakerOf(bs, Here(c)), p, at)
    ensures CallOk(Started(c, head, at, bs, left), p)
  {
    var c' := Started(c, head, at, bs, left);
    forall w | Completes(w, c', p)
      ensures Tells(w, c', p)
    {
      assert Completes(w, c, p) && Tells(w, c, p);
      assert c'.log[..|c.log|] == c.log;
    }
  }

  /** What the walk makes of a position whose model call has ended. */
  lemma AnsweredVisit(w: Walk, i: nat, reply: Reply)
    requires Scripted(w) && i < |w.chain| && !Late(w, i) && Admitted(w, i) && w.turns[i].reply == reply
    ensures var v := Visited(w, i);
            && v.log == [Asked(i, true, AskLeaves(w, i)), Reported(i, ReportOf(reply), ReportLeaves(w, i))]
            && match reply
               case Replied(m) => v.ending == Some(Message(m))
               case CutShort => v.ending == Some(DeadlineExceeded)
               case Threw(e) =>
                 if B.Transient(e) then v.ending == None && v.error == Some(e) else v.ending == Some(Raised(e))
  {
  }

  lemma AnsweredFurther(w: Walk, i: nat, reply: Reply, last: Option<B.Error>, log: seq<Event>)
    requires Scripted(w) && i < |w.chain| && !Late(w, i) && Admitted(w, i) && w.turns[i].reply == reply
    requires Before(w, i, last, log)
    ensures var log' := log + [Asked(i, true, AskLeaves(w, i)), Reported(i, ReportOf(reply), ReportLeaves(w, i))];
            match reply
            case Replied(m) => After(w, Message(m), log')
            case CutShort => After(w, DeadlineExceeded, log')
            case Threw(e) => if B.Transient(e) then Before(w, i + 1, Some(e), log') else After(w, Raised(e), log')
  {
    AnsweredVisit(w, i, reply);
    Further(w, i, last, log);
  }

  lemma LastTwo(log: seq<Event>, e: Event)
    requires log != []
    ensures log + [e] == log[..|log| - 1] + [log[|log| - 1], e]
  {
  }

  lemma AnsweredTellsOf(w: Walk, c: Call, reply: Reply, at: Time, bs: Breakers, p: B.Policy, left: B.State)
    requires Completes(w, c, p) && Tells(w, c, p) && c.asking.Some? && c.ending.None?
    requires left == Heard(BreakerOf(bs, Here(c)), p, ReportOf(reply), at)
    requires Completes(w, Answered(c, reply, at, bs, left), p)
    requires var turn := w.turns[|c.turns|]; turn.reply == reply && turn.atReport == bs && turn.reported == at
    ensures Tells(w, Answered(c, reply, at, bs, left), p)
  {
    var c', i, prior := Answered(c, reply, at, bs, left), |c.turns|, c.log[..|c.log| - 1];
    assert ReportLeaves(w, i) == left;
    AnsweredFurther(w, i, reply, c.last, prior);
    LastTwo(c.log, Reported(i, ReportOf(reply), left));
    match reply
    case Replied(m) => EndedTells(w, c', p, Message(m));
    case CutShort => EndedTells(w, c', p, DeadlineExceeded);
    case Threw(e) => if B.Transient(e) { OngoingTells(w, c', p); } else { EndedTells(w, c', p, Raised(e)); }
  }

  lemma EndedTells(w: Walk, c: Call, p: B.Policy, ending: Ending)
    requires Completes(w, c, p) && c.asking.None? && c.ending == Some(ending) && After(w, ending, c.log)
    ensures Tells(w, c, p)
  {
  }

  lemma OngoingTells(w: Walk, c: Call, p: B.Policy)
    requires Completes(w, c, p) && c.asking.None? && c.ending.None? && Before(w, |c.turns|, c.last, c.log)
    ensures Tells(w, c, p)
  {
  }

  lemma AnsweredTells(c: Call, reply: Reply, at: Time, bs: Breakers, p: B.Policy, left: B.State)
    requires CallOk(c, p) && c.asking.Some? && c.ending.None? && Fits(c)
    requires left == Heard(BreakerOf(bs, Here(c)), p, ReportOf(reply), at)
    ensures CallOk(Answered(c, reply, at, bs, left), p)
  {
    var c', a := Answered(c, reply, at, bs, left), c.asking.value;
    forall w | Completes(w, c', p)
      ensures Tells(w, c', p)
    {
      Shorter(w, c, c', p, Turn(a.head, a.atAsk, a.asked, reply, bs, at));
      AnsweredTellsOf(w, c, reply, at, bs, p, left);
    }
  }

  lemma OutOfTargetsTells(c: Call, p: B.Policy)
    requires CallOk(c, p) && c.asking.None? && c.ending.None? && !Fits(c)
    ensures CallOk(OutOfTargets(c), p)
  {
    var c' := OutOfTargets(c);
    forall w | Completes(w, c', p)
      ensures Tells(w, c', p)
    {
      assert Completes(w, c, p) && Tells(w, c, p);
      assert c.log + [] == c.log;
    }
  }

  ghost predicate CallsOk(s: State, p: B.Policy) {
    forall id :: id in s.calls ==>
      && CallOk(s.calls[id], p) && |s.calls[id].turns| <= |s.calls[id].chain|
      && (s.calls[id].asking.Some? ==> s.calls[id].ending.None? && Fits(s.calls[id]))
  }

  lemma GoTells(s: State, id: CallId, head: Time, at: Time, p: B.Policy)
    requires CallsOk(s, p) && Enabled(s, Go(id, head, at))
    ensures CallsOk(Gone(s, id, head, at, p), p)
  {
    var c, bs := s.calls[id], s.breakers;
    if !Fits(c) {
      OutOfTargetsTells(c, p);
    } else if c.deadline - head <= 0.0 {
      TooLateTells(c, head, at, bs, p);
    } else if |c.chain| == 1 {
      StartedTells(c, head, at, bs, p, BreakerOf(bs, Here(c)));
    } else {
      var left := B.Acquired(BreakerOf(bs, Here(c)), p, at);
      if B.Admits(BreakerOf(bs, Here(c)), at) { StartedTells(c, head, at, bs, p, left); }
      else { RefusedTells(c, head, at, bs, p, left); }
    }
  }

  lemma HearTells(s: State, id: CallId, reply: Reply, at: Time, p: B.Policy)
    requires CallsOk(s, p) && Enabled(s, Hear(id, reply, at))
    ensures CallsOk(Done(s, id, reply, at, p), p)
  {
    var c := s.calls[id];
    AnsweredTells(c, reply, at, s.breakers, p, Heard(BreakerOf(s.breakers, Here(c)), p, ReportOf(reply), at));
  }

  lemma BeginTells(chain: seq<string>, role: Role, deadline: Time, p: B.Policy)
    ensures CallOk(Call(chain, role, deadline, [], None, None, None, []), p)
  {
    var c := Call(chain, role, deadline, [], None, None, None, []);
    forall w | Completes(w, c, p)
      ensures Tells(w, c, p)
    {
      assert [] + From(w, 0, map[], None).log == From(w, 0, map[], None).log;
    }
  }

  lemma {:induction false} CallsTell(st: seq<State>, steps: seq<Step>, p: B.Policy, k: nat)
    requires Run(st, steps, p) && k <= |steps|
    ensures CallsOk(st[k], p)
  {
    if k == 0 {
    } else {
      CallsTell(st, steps, p, k - 1);
      match steps[k - 1]
      case Begin(id, chain, role, deadline) => BeginTells(chain, role, deadline, p);
      case Go(id, head, at) => GoTells(st[k - 1], id, head, at, p);
      case Hear(id, reply, at) => HearTells(st[k - 1], id, reply, at, p);
    }
  }

  function Blank(n: nat): seq<Turn> { seq(n, _ => Turn(0.0, map[], 0.0, CutShort, map[], 0.0)) }

  /**
   * However calls interleave, each that has ended went through a walk: with the clock, the
   * replies and the breakers it met, it ended as the walk ends and told the breakers what the
   * walk tells them. So what holds of every walk holds of every call.
   */
  lemma EachCallIsAWalk(st: seq<State>, steps: seq<Step>, p: B.Policy, k: nat, id: CallId) returns (w: Walk)
    requires Run(st, steps, p) && k <= |steps| && id in st[k].calls && st[k].calls[id].ending.Some?
    ensures var c := st[k].calls[id];
            && Completes(w, c, p) && c.ending == Some(EndingOf(w)) && c.log == From(w, 0, map[], None).log
            && Paired(c.log, 0)
  {
    CallsTell(st, steps, p, k);
    var c := st[k].calls[id];
    w := Walk(c.chain, c.role, c.turns + Blank(|c.chain| - |c.turns|), c.deadline, p);
    assert Completes(w, c, p) && Tells(w, c, p);
    WalkFollowsItsAdmissions(w, map[]);
    EachAdmissionIsReportedOnce(w, 0, map[], None);
  }

  /** The moment a call reports, its target has no leased probe, whatever the other calls did since it asked. */
  lemma NoProbeIsLeftBehindByAnyone(st: seq<State>, steps: seq<Step>, p: B.Policy, k: nat)
    requires Run(st, steps, p) && k < |steps| && steps[k].Hear?
    ensures Fits(st[k].calls[steps[k].id])
    ensures BreakerOf(st[k + 1].breakers, Here(st[k].calls[steps[k].id])).probeUntil == None
  {
    CallsTell(st, steps, p, k);
    CallsAreASharedRun(st, steps, p, k);
    assert Enabled(st[k], steps[k]) && st[k + 1] == Apply(st[k], steps[k], p);
    var c := st[k].calls[steps[k].id];
    LeasesAreForProbes(st[k].history, st[k].touches, p, |st[k].touches|, Here(c));
  }

  // ----- the breakers at its start do not decide a call -----

  function OpenedAt(now: Time, p: B.Policy): B.State { B.State.State(B.Open, 1, now + p.cooldown, None) }

  const A := (Default, "a")
  const Z := (Default, "z")

  /** The questions and reports of two calls on two targets, both failing transiently. */
  lemma TwoCalls(p: B.Policy, e: B.Error) returns (st: seq<Breakers>, ts: seq<Touch>)
    requires p.threshold == 1 && p.cooldown > 2.0 && B.Transient(e)
    ensures SharedRun(st, ts, p) && |ts| == 7 && st[0] == map[]
    ensures st[5] == st[6] == map[A := OpenedAt(1.0, p), Z := OpenedAt(2.0, p)]
    ensures ts[0] == Touch(A, B.Acquire(1.0)) && ts[5] == Touch(A, B.Op.Failure(3.0, e))
    ensures ts[6] == Touch(Z, B.Acquire(4.0))
  {
    ts := [Touch(A, B.Acquire(1.0)), Touch(A, B.Acquire(1.0)), Touch(A, B.Op.Failure(1.0, e)),
           Touch(Z, B.Acquire(1.0)), Touch(Z, B.Op.Failure(2.0, e)), Touch(A, B.Op.Failure(3.0, e)),
           Touch(Z, B.Acquire(4.0))];
    var s1, s3, s4 := map[A := B.NEW], map[A := OpenedAt(1.0, p)], map[A := OpenedAt(1.0, p), Z := B.NEW];
    var s5 := map[A := OpenedAt(1.0, p), Z := OpenedAt(2.0, p)];
    st := [map[], s1, s1, s3, s4, s5, s5, s5];
    assert Touched(s1, ts[1], p) == s1 && Touched(s1, ts[2], p) == s3 && Touched(s3, ts[3], p) == s4;
    assert Touched(s4, ts[4], p) == s5 && Touched(s5, ts[5], p) == s5 && Touched(s5, ts[6], p) == s5;
  }

  /**
   * Both targets are closed when the walk starts, and one failure opens a breaker. While it
   * waits for its first target another call fails on both; the walk is then refused at the
   * second, although its start state would have let it through.
   */
  lemma OthersDecideToo(cooldown: Time, e: B.Error) returns (w: Walk, st: seq<Breakers>, ts: seq<Touch>)
    requires cooldown > 2.0 && B.Transient(e)
    ensures Valid(w) && |w.chain| == 2 && SharedRun(st, ts, w.policy) && |ts| == 7
    ensures st[0] == w.turns[0].atAsk && ts[0] == Touch(KeyOf(w, 0), B.Acquire(w.turns[0].asked))
    ensures st[5] == w.turns[0].atReport && ts[5] == Touch(KeyOf(w, 0), B.Op.Failure(w.turns[0].reported, e))
    ensures st[6] == w.turns[1].atAsk && ts[6] == Touch(KeyOf(w, 1), B.Acquire(w.turns[1].asked))
    ensures B.Admits(BreakerOf(st[0], KeyOf(w, 1)), w.turns[1].asked) && !Admitted(w, 1)
    ensures Reached(w, 1) && EndingOf(w) == Raised(e)
  {
    var p := B.Policy(1, cooldown);
    st, ts := TwoCalls(p, e);
    var turns := [Turn(1.0, st[0], 1.0, Threw(e), st[5], 3.0), Turn(4.0, st[6], 4.0, CutShort, st[6], 4.0)];
    w := Walk(["a", "z"], Default, turns, 9.0, p);
    assert !Stops(w, 0) && !Admitted(w, 1) && !Stops(w, 1);
    assert FirstStop(w, 1) == FirstStop(w, 2) == 2 && FirstStop(w, 0) == 2;
    assert LastError(w, 0) == None && LastError(w, 1) == Some(e) && LastError(w, 2) == Some(e);
  }
}
