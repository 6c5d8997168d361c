/** The failover walk over a chain of model targets, one breaker per target, under one deadline. */
module Failover {
  import opened Prelude
  import B = Breaker

  datatype Role = Default | Judge

  datatype Settings = Settings(
    chatModel: string, judgeModel: string, fallbacks: seq<string>, local: bool, deadlineSeconds: Time, policy: B.Policy)

  // ----- the chain -----

  /** The first target of a role; a judge without its own model is refused outside local use. */
  function Primary(s: Settings, role: Role): Option<string> {
    if role == Judge && s.judgeModel != "" then Some(s.judgeModel)
    else if role == Judge && s.chatModel != "" && !s.local then None
    else Some(s.chatModel)
  }

  function Dedupe(targets: seq<string>): seq<string> {
    if targets == [] then []
    else
      var rest, last := targets[..|targets| - 1], targets[|targets| - 1];
      if last in rest then Dedupe(rest) else Dedupe(rest) + [last]
  }

  function Chain(s: Settings, role: Role): Option<seq<string>> {
    match Primary(s, role)
    case None => None
    case Some(first) => Some(Dedupe([first] + if role == Default then s.fallbacks else []))
  }

  /** Where a target first occurs. */
  function First(targets: seq<string>, t: string): (i: nat)
    requires t in targets
    ensures i < |targets| && targets[i] == t && forall k :: 0 <= k < i ==> targets[k] != t
  {
    if targets[0] == t then 0 else 1 + First(targets[1..], t)
  }

  ghost predicate Distinct(targets: seq<string>) {
    forall i, j :: 0 <= i < j < |targets| ==> targets[i] != targets[j]
  }

  lemma FirstOfPrefix(targets: seq<string>, n: nat, t: string)
    requires n <= |targets| && t in targets[..n]
    ensures First(targets, t) == First(targets[..n], t)
  {
    assert targets[First(targets[..n], t)] == t;
  }

  /** The chain has the same targets, each once, in the order in which they first occur. */
  lemma {:induction false} DedupeKeepsFirsts(targets: seq<string>)
    ensures Distinct(Dedupe(targets))
    ensures forall t :: t in Dedupe(targets) <==> t in targets
    ensures forall i, j :: 0 <= i < j < |Dedupe(targets)| ==>
              First(targets, Dedupe(targets)[i]) < First(targets, Dedupe(targets)[j])
  {
    if targets == [] {
    } else {
      var n := |targets| - 1;
      var rest, last, r := targets[..n], targets[n], Dedupe(targets);
      DedupeKeepsFirsts(rest);
      assert targets == rest + [last];
      forall i, j | 0 <= i < j < |r|
        ensures First(targets, r[i]) < First(targets, r[j])
      {
        FirstOfPrefix(targets, n, r[i]);
        if r[j] in rest { FirstOfPrefix(targets, n, r[j]); }
      }
    }
  }

  // ----- one walk -----

  type Key = (Role, string)

  type Breakers = map<Key, B.State>

  /** Breakers are built when first asked for. */
  function BreakerOf(bs: Breakers, k: Key): B.State { if k in bs then bs[k] else B.NEW }

  /** How an attempt ends; `CutShort` is any exception after the budget ran out. */
  datatype Reply = Replied(message: string) | Threw(error: B.Error) | CutShort

  /**
   * The script of one chain position: the clock at its head, at its admission and at its
   * report, the reply, and what the breakers have become by the admission and by the report.
   * The router is shared, and other calls ask and report while this one waits for a model.
   */
  datatype Turn = Turn(head: Time, atAsk: Breakers, asked: Time, reply: Reply, atReport: Breakers, reported: Time)

  datatype Walk = Walk(chain: seq<string>, role: Role, turns: seq<Turn>, deadline: Time, policy: B.Policy)

  predicate Scripted(w: Walk) { |w.turns| == |w.chain| }

  ghost predicate Valid(w: Walk) { w.chain != [] && Distinct(w.chain) && Scripted(w) }

  datatype Ending = Message(message: string) | DeadlineExceeded | Raised(error: B.Error) | Unavailable | Misconfigured

  datatype Report = Success | Failure(error: B.Error) | Release

  /** What the walk asks and tells the breaker of position `i`, and the state in which it leaves it. */
  datatype Event = Asked(i: nat, admitted: bool, left: B.State) | Reported(i: nat, report: Report, left: B.State)

  datatype Trace = Trace(ending: Ending, breakers: Breakers, log: seq<Event>)

  function KeyOf(w: Walk, i: nat): Key
    requires i < |w.chain|
  {
    (w.role, w.chain[i])
  }

  function Heard(s: B.State, p: B.Policy, report: Report, now: Time): B.State {
    match report
    case Success => B.Succeeded(s)
    case Failure(e) => B.Failed(s, p, e, now)
    case Release => B.Released(s)
  }

  function ReportOf(reply: Reply): Report {
    match reply
    case Replied(_) => Success
    case Threw(e) => Failure(e)
    case CutShort => Release
  }

  predicate Late(w: Walk, i: nat)
    requires Scripted(w) && i < |w.chain|
  {
    w.deadline - w.turns[i].head <= 0.0
  }

  /** The breaker found at position `i` lets the call through; a chain of one is never gated. */
  predicate Admitted(w: Walk, i: nat)
    requires Scripted(w) && i < |w.chain|
  {
    |w.chain| == 1 || B.Admits(BreakerOf(w.turns[i].atAsk, KeyOf(w, i)), w.turns[i].asked)
  }

  /** The breaker of position `i` as the admission question leaves it. */
  function AskLeaves(w: Walk, i: nat): B.State
    requires Scripted(w) && i < |w.chain|
  {
    var b := BreakerOf(w.turns[i].atAsk, KeyOf(w, i));
    if |w.chain| == 1 then b else B.Acquired(b, w.policy, w.turns[i].asked)
  }

  /** And as the report leaves it. */
  function ReportLeaves(w: Walk, i: nat): B.State
    requires Scripted(w) && i < |w.chain|
  {
    Heard(BreakerOf(w.turns[i].atReport, KeyOf(w, i)), w.policy, ReportOf(w.turns[i].reply), w.turns[i].reported)
  }

  /** What comes of one position: the end of the walk, or an error to remember. */
  datatype Visit = Visit(ending: Option<Ending>, error: Option<B.Error>, log: seq<Event>)

  function Visited(w: Walk, i: nat): Visit
    requires Scripted(w) && i < |w.chain|
  {
    if Late(w, i) then Visit(Some(DeadlineExceeded), None, [])
    else if !Admitted(w, i) then Visit(None, None, [Asked(i, false, AskLeaves(w, i))])
    else
      var reply := w.turns[i].reply;
      var log := [Asked(i, true, AskLeaves(w, i)), Reported(i, ReportOf(reply), ReportLeaves(w, i))];
      match reply
      case Replied(m) => Visit(Some(Message(m)), None, log)
      case CutShort => Visit(Some(DeadlineExceeded), None, log)
      case Threw(e) => if B.Transient(e) then Visit(None, Some(e), log) else Visit(Some(Raised(e)), None, log)
  }

  /** The breakers after position `i`: those it found last, but for its own. */
  function Left(w: Walk, i: nat, bs: Breakers): Breakers
    requires Scripted(w) && i < |w.chain|
  {
    if Late(w, i) then bs
    else if Admitted(w, i) then w.turns[i].atReport[KeyOf(w, i) := ReportLeaves(w, i)]
    else w.turns[i].atAsk[KeyOf(w, i) := AskLeaves(w, i)]
  }

  function Later(last: Option<B.Error>, error: Option<B.Error>): Option<B.Error> { if error.Some? then error else last }

  /** The walk from position `i` on. */
  function From(w: Walk, i: nat, bs: Breakers, last: Option<B.Error>): Trace
    requires Scripted(w) && i <= |w.chain|
    decreases |w.chain| - i
  {
    if i == |w.chain| then Trace(if last.Some? then Raised(last.value) else Unavailable, bs, [])
    else
      var v := Visited(w, i);
      if v.ending.Some? then Trace(v.ending.value, Left(w, i, bs), v.log)
      else
        var rest := From(w, i + 1, Left(w, i, bs), Later(last, v.error));
        rest.(log := v.log + rest.log)
  }

  // ----- the router and the loop -----

  class ModelRouter {
    const settings: Settings
    var breakers: Breakers

    constructor (settings: Settings)
      ensures this.settings == settings && breakers == map[]
    {
      this.settings := settings;
      breakers := map[];
    }

    method TryAcquire(target: string, role: Role, chain: seq<string>, now: Time) returns (admitted: bool)
      modifies this
      ensures var b := BreakerOf(old(breakers), (role, target));
              && (admitted <==> |chain| == 1 || B.Admits(b, now))
              && breakers == if |chain| == 1 then old(breakers)
                             else old(breakers)[(role, target) := B.Acquired(b, settings.policy, now)]
    {
      if |chain| == 1 { return true; }
      var b := BreakerOf(breakers, (role, target));
      admitted := B.Admits(b, now);
      breakers := breakers[(role, target) := B.Acquired(b, settings.policy, now)];
    }

    /** Release, record_success and record_error. */
    method Tell(target: string, role: Role, report: Report, now: Time)
      modifies this
      ensures breakers == old(breakers)[(role, target) :=
                Heard(BreakerOf(old(breakers), (role, target)), settings.policy, report, now)]
    {
      var b := BreakerOf(breakers, (role, target));
      match report {
        case Success => breakers := breakers[(role, target) := B.Succeeded(b)];
        case Failure(e) => breakers := breakers[(role, target) := B.Failed(b, settings.policy, e, now)];
        case Release => breakers := breakers[(role, target) := B.Released(b)];
      }
    }

    /**
     * One pass of the loop: check the deadline, ask the breaker, call the model, report. The
     * two plain assignments to the breakers are the doing of other calls.
     */
    method Attempt(ghost w: Walk, i: nat, chain: seq<string>, role: Role, turn: Turn, deadline: Time)
      returns (ending: Option<Ending>, error: Option<B.Error>, log: seq<Event>)
      requires w.chain == chain && w.role == role && w.deadline == deadline && w.policy == settings.policy
      requires Scripted(w) && i < |chain| && w.turns[i] == turn
      modifies this
      ensures Visit(ending, error, log) == Visited(w, i) && breakers == Left(w, i, old(breakers))
    {
      ending, error, log := None, None, [];
      var remaining := deadline - turn.head;
      if remaining <= 0.0 { return Some(DeadlineExceeded), None, []; }
      var key := (role, chain[i]);
      breakers := turn.atAsk;
      var admitted := TryAcquire(chain[i], role, chain, turn.asked);
      log := [Asked(i, admitted, BreakerOf(breakers, key))];
      if !admitted { return None, None, log; }
      breakers := turn.atReport;
      match turn.reply {
        case CutShort =>
          Tell(chain[i], role, Release, turn.reported);
          return Some(DeadlineExceeded), None, log + [Reported(i, Release, breakers[key])];
        case Threw(e) =>
          Tell(chain[i], role, Failure(e), turn.reported);
          log := log + [Reported(i, Failure(e), breakers[key])];
          if !B.Transient(e) { return Some(Raised(e)), None, log; }
          error := Some(e);
        case Replied(m) =>
          Tell(chain[i], role, Success, turn.reported);
          return Some(Message(m)), None, log + [Reported(i, Success, breakers[key])];
      }
    }

    /** One call: `turns` is what the clock, the models and the other calls do. */
    method Ainvoke(role: Role, start: Time, turns: seq<Turn>) returns (ending: Ending, log: seq<Event>)
      requires Chain(settings, role).Some? ==> |turns| == |Chain(settings, role).value|
      modifies this
      ensures match Chain(settings, role)
              case None => ending == Misconfigured && log == [] && breakers == old(breakers)
              case Some(chain) =>
                Trace(ending, breakers, log)
                == var deadline := start + settings.deadlineSeconds;
                   From(Walk(chain, role, turns, deadline, settings.policy), 0, old(breakers), None)
    {
      log := [];
      if Chain(settings, role).None? { return Misconfigured, log; }
      var chain := Chain(settings, role).value;
      var deadline := start + settings.deadlineSeconds;
      ghost var w := Walk(chain, role, turns, deadline, settings.policy);
      ghost var whole := From(w, 0, breakers, None);
      var last: Option<B.Error> := None;
      for i := 0 to |chain|
        invariant whole.ending == From(w, i, breakers, last).ending
        invariant whole.breakers == From(w, i, breakers, last).breakers
        invariant whole.log == log + From(w, i, breakers, last).log
      {
        var end, error, events := Attempt(w, i, chain, role, turns[i], deadline);
        log := log + events;
        if end.Some? { return end.value, log; }
        last := Later(last, error);
      }
      ending := if last.Some? then Raised(last.value) else Unavailable;
    }
  }

  // ----- every admission is reported once -----

  /** Events `n` and `m` are of position `from` or later, and if both are questions, of rising positions. */
  ghost predicate InOrder(log: seq<Event>, from: nat, n: nat, m: nat)
    requires n <= m < |log|
  {
    log[n].i >= from && (n < m && log[n].Asked? && log[m].Asked? ==> log[n].i < log[m].i)
  }

  /** Asked positions go up from `from` on. */
  ghost predicate Rising(log: seq<Event>, from: nat) {
    forall n, m :: 0 <= n <= m < |log| ==> InOrder(log, from, n, m)
  }

  /** The `n`-th event, if an admission, is followed at once by its report, and if a report, follows its admission. */
  ghost predicate MatchedAt(log: seq<Event>, n: nat)
    requires n < |log|
  {
    match log[n]
    case Asked(i, admitted, _) => admitted ==> n + 1 < |log| && log[n + 1].Reported? && log[n + 1].i == i
    case Reported(i, _, _) => n > 0 && log[n - 1].Asked? && log[n - 1].admitted && log[n - 1].i == i
  }

  ghost predicate Paired(log: seq<Event>, from: nat) {
    Rising(log, from) && forall n :: 0 <= n < |log| ==> MatchedAt(log, n)
  }

  /** The log of one position: nothing, a refusal, or an admission and its report. */
  ghost predicate OneVisit(log: seq<Event>, i: nat) {
    || log == []
    || (|log| == 1 && log[0].Asked? && !log[0].admitted && log[0].i == i)
    || (|log| == 2 && log[0].Asked? && log[0].admitted && log[0].i == i && log[1].Reported? && log[1].i == i)
  }

  lemma RisingAfter(a: seq<Event>, b: seq<Event>, i: nat)
    requires OneVisit(a, i) && Rising(b, i + 1)
    ensures Rising(a + b, i)
  {
    var c, k := a + b, |a|;
    forall n, m | 0 <= n <= m < |c|
      ensures InOrder(c, i, n, m)
    {
      if m >= k { assert InOrder(b, i + 1, m - k, m - k); }
      if n >= k { assert InOrder(b, i + 1, n - k, m - k); }
    }
  }

  lemma MatchedAfter(a: seq<Event>, b: seq<Event>, i: nat, n: nat)
    requires OneVisit(a, i) && n < |a + b| && (n >= |a| ==> MatchedAt(b, n - |a|))
    ensures MatchedAt(a + b, n)
  {
    var c := a + b;
    if n >= |a| {
      var m := n - |a|;
      assert c[n] == b[m] && (n + 1 < |c| ==> c[n + 1] == b[m + 1]) && (n > |a| ==> c[n - 1] == b[m - 1]);
    } else {
      assert c[n] == a[n] && (n + 1 < |a| ==> c[n + 1] == a[n + 1]) && (n > 0 ==> c[n - 1] == a[n - 1]);
    }
  }

  lemma PairedAfter(a: seq<Event>, b: seq<Event>, i: nat)
    requires OneVisit(a, i) && Paired(b, i + 1)
    ensures Paired(a + b, i)
  {
    RisingAfter(a, b, i);
    forall n | 0 <= n < |a + b|
      ensures MatchedAt(a + b, n)
    {
      MatchedAfter(a, b, i, n);
    }
  }

  lemma VisitLogs(w: Walk, i: nat)
    requires Scripted(w) && i < |w.chain|
    ensures var v := Visited(w, i);
            OneVisit(v.log, i) && (v.ending.None? ==> v.log != [] && (v.error.None? <==> !v.log[0].admitted))
  {
  }

  /** Whatever other calls do meanwhile, each granted admission gets exactly one report, in chain order. */
  lemma {:induction false} EachAdmissionIsReportedOnce(w: Walk, i: nat, bs: Breakers, last: Option<B.Error>)
    requires Scripted(w) && i <= |w.chain|
    ensures Paired(From(w, i, bs, last).log, i)
    decreases |w.chain| - i
  {
    if i == |w.chain| {
    } else {
      var v := Visited(w, i);
      VisitLogs(w, i);
      if v.ending.Some? {
        PairedAfter(v.log, [], i);
        assert v.log + [] == v.log;
      } else {
        var rest := From(w, i + 1, Left(w, i, bs), Later(last, v.error));
        EachAdmissionIsReportedOnce(w, i + 1, Left(w, i, bs), Later(last, v.error));
        PairedAfter(v.log, rest.log, i);
        assert From(w, i, bs, last).log == v.log + rest.log;
      }
    }
  }

  /** What a report says: an answer is a success, an error is that failure, a cut-off attempt is only released. */
  ghost predicate Truthful(w: Walk, e: Event)
    requires Scripted(w)
  {
    e.Reported? ==>
      && e.i < |w.chain|
      && (e.report.Success? <==> w.turns[e.i].reply.Replied?)
      && (e.report.Release? <==> w.turns[e.i].reply.CutShort?)
      && (e.report.Failure? ==> w.turns[e.i].reply == Threw(e.report.error))
      && e.left == ReportLeaves(w, e.i)
  }

  /** Every report of a walk is truthful. */
  lemma {:induction false} ReportsAreTruthful(w: Walk, i: nat, bs: Breakers, last: Option<B.Error>)
    requires Scripted(w) && i <= |w.chain|
    ensures forall n :: 0 <= n < |From(w, i, bs, last).log| ==> Truthful(w, From(w, i, bs, last).log[n])
    decreases |w.chain| - i
  {
    if i == |w.chain| {
    } else {
      VisitIsTruthful(w, i);
      var v := Visited(w, i);
      if v.ending.Some? {
        assert From(w, i, bs, last).log == v.log;
      } else {
        var rest := From(w, i + 1, Left(w, i, bs), Later(last, v.error));
        ReportsAreTruthful(w, i + 1, Left(w, i, bs), Later(last, v.error));
        assert From(w, i, bs, last).log == v.log + rest.log;
      }
    }
  }

  lemma VisitIsTruthful(w: Walk, i: nat)
    requires Scripted(w) && i < |w.chain|
    ensures forall n :: 0 <= n < |Visited(w, i).log| ==> Truthful(w, Visited(w, i).log[n])
  {
  }

  /** An attempt cut off by the deadline changes nothing about its breaker but the probe slot. */
  lemma CutShortBlamesNobody(w: Walk, i: nat)
    requires Scripted(w) && i < |w.chain| && w.turns[i].reply.CutShort?
    ensures var found, left := BreakerOf(w.turns[i].atReport, KeyOf(w, i)), ReportLeaves(w, i);
            && left.mode == found.mode && left.failures == found.failures && left.openUntil == found.openUntil
            && left.probeUntil == None
  {
    B.ReleaseSaysNothing(BreakerOf(w.turns[i].atReport, KeyOf(w, i)));
  }

  /** And an answer closes it. */
  lemma AnswersCloseTheBreaker(w: Walk, i: nat, now: Time)
    requires Scripted(w) && i < |w.chain| && w.turns[i].reply.Replied?
    ensures B.Admits(ReportLeaves(w, i), now) && ReportLeaves(w, i).failures == 0
  {
  }

  // ----- the ending follows from the admissions the walk saw -----

  /** Position `i` ends the walk: the time is up, or it was admitted and answered, cut short or failed for good. */
  predicate Stops(w: Walk, i: nat)
    requires Scripted(w) && i < |w.chain|
  {
    Late(w, i) || (Admitted(w, i) && (w.turns[i].reply.Threw? ==> !B.Transient(w.turns[i].reply.error)))
  }

  /** The first position, from `i` on, that ends the walk; the length of the chain if there is none. */
  function FirstStop(w: Walk, i: nat): (n: nat)
    requires Scripted(w) && i <= |w.chain|
    ensures i <= n <= |w.chain| && (n < |w.chain| ==> Stops(w, n)) && forall m :: i <= m < n ==> !Stops(w, m)
    decreases |w.chain| - i
  {
    if i == |w.chain| || Stops(w, i) then i else FirstStop(w, i + 1)
  }

  /** The latest error among the admitted ones of the first `n` positions. */
  function LastError(w: Walk, n: nat): Option<B.Error>
    requires Scripted(w) && n <= |w.chain|
  {
    if n == 0 then None
    else if Admitted(w, n - 1) && w.turns[n - 1].reply.Threw? then Some(w.turns[n - 1].reply.error)
    else LastError(w, n - 1)
  }

  function EndingOf(w: Walk): Ending
    requires Scripted(w)
  {
    var n := FirstStop(w, 0);
    if n == |w.chain| then (if LastError(w, n).Some? then Raised(LastError(w, n).value) else Unavailable)
    else if Late(w, n) then DeadlineExceeded
    else
      match w.turns[n].reply
      case Replied(m) => Message(m)
      case Threw(e) => Raised(e)
      case CutShort => DeadlineExceeded
  }

  lemma {:induction false} EndsFrom(w: Walk, i: nat, bs: Breakers)
    requires Scripted(w) && i <= FirstStop(w, 0)
    ensures From(w, i, bs, LastError(w, i)).ending == EndingOf(w)
    decreases |w.chain| - i
  {
    if i == |w.chain| || i == FirstStop(w, 0) {
    } else {
      assert !Stops(w, i);
      assert LastError(w, i + 1) == Later(LastError(w, i), Visited(w, i).error);
      EndsFrom(w, i + 1, Left(w, i, bs));
    }
  }

  /** Position `i` is asked: its turn comes before the end, or it is the end and not late. */
  predicate Reached(w: Walk, i: nat)
    requires Scripted(w) && i < |w.chain|
  {
    i < FirstStop(w, 0) || (i == FirstStop(w, 0) && !Late(w, i))
  }

  ghost predicate AsksOf(w: Walk, i: nat, log: seq<Event>)
    requires Scripted(w) && i < |w.chain|
  {
    Asked(i, Admitted(w, i), AskLeaves(w, i)) in log
  }

  lemma VisitAsks(w: Walk, i: nat, m: nat)
    requires Scripted(w) && i < |w.chain| && m < |w.chain|
    ensures AsksOf(w, m, Visited(w, i).log) <==> m == i && !Late(w, i)
  {
    var log := Visited(w, i).log;
    if !Late(w, i) { assert log[0] == Asked(i, Admitted(w, i), AskLeaves(w, i)); }
  }

  lemma AsksEither(w: Walk, m: nat, a: seq<Event>, b: seq<Event>)
    requires Scripted(w) && m < |w.chain|
    ensures AsksOf(w, m, a + b) <==> AsksOf(w, m, a) || AsksOf(w, m, b)
  {
  }

  lemma {:induction false} AsksFrom(w: Walk, i: nat, bs: Breakers, last: Option<B.Error>, m: nat)
    requires Scripted(w) && i <= FirstStop(w, 0) && m < |w.chain|
    ensures AsksOf(w, m, From(w, i, bs, last).log) <==> i <= m && Reached(w, m)
    decreases |w.chain| - i
  {
    if i == |w.chain| {
    } else {
      VisitAsks(w, i, m);
      if i == FirstStop(w, 0) {
        assert Stops(w, i);
        assert From(w, i, bs, last).log == Visited(w, i).log;
      } else {
        assert !Stops(w, i);
        var bs', last' := Left(w, i, bs), Later(last, Visited(w, i).error);
        AsksFrom(w, i + 1, bs', last', m);
        AsksEither(w, m, Visited(w, i).log, From(w, i + 1, bs', last').log);
        assert From(w, i, bs, last).log == Visited(w, i).log + From(w, i + 1, bs', last').log;
      }
    }
  }

  /**
   * By the admissions it saw, with the breakers changing under it in any way: the walk ends at
   * the first position that is past the deadline, or admitted and answered, cut short or
   * failed for good; otherwise with the latest transient error, or unavailable if nobody was
   * admitted. The positions asked are exactly those up to there.
   */
  lemma WalkFollowsItsAdmissions(w: Walk, bs: Breakers)
    requires Scripted(w)
    ensures From(w, 0, bs, None).ending == EndingOf(w)
    ensures forall m :: 0 <= m < |w.chain| ==> (AsksOf(w, m, From(w, 0, bs, None).log) <==> Reached(w, m))
  {
    EndsFrom(w, 0, bs);
    forall m | 0 <= m < |w.chain|
      ensures AsksOf(w, m, From(w, 0, bs, None).log) <==> Reached(w, m)
    {
      AsksFrom(w, 0, bs, None, m);
    }
  }

  ghost predicate NobodyAdmitted(log: seq<Event>) { forall n :: 0 <= n < |log| ==> log[n].Asked? && !log[n].admitted }

  lemma AdmittedApart(a: seq<Event>, b: seq<Event>)
    ensures NobodyAdmitted(a + b) <==> NobodyAdmitted(a) && NobodyAdmitted(b)
  {
    assert forall n :: 0 <= n < |a| ==> (a + b)[n] == a[n];
    assert forall n :: 0 <= n < |b| ==> (a + b)[|a| + n] == b[n];
  }

  /** A walk that is not late is unavailable exactly when nothing was admitted and no error is remembered. */
  lemma {:induction false} UnavailableMeansNobodyAdmitted(w: Walk, i: nat, bs: Breakers, last: Option<B.Error>)
    requires Scripted(w) && i <= |w.chain|
    ensures var t := From(w, i, bs, last);
            t.ending == Unavailable <==> last == None && NobodyAdmitted(t.log) && t.ending != DeadlineExceeded
    decreases |w.chain| - i
  {
    if i == |w.chain| {
    } else {
      var v := Visited(w, i);
      VisitLogs(w, i);
      if v.ending.None? {
        var rest := From(w, i + 1, Left(w, i, bs), Later(last, v.error));
        UnavailableMeansNobodyAdmitted(w, i + 1, Left(w, i, bs), Later(last, v.error));
        AdmittedApart(v.log, rest.log);
        assert From(w, i, bs, last).log == v.log + rest.log;
      }
    }
  }

  /**
   * The moment it reports, a walk leaves no probe leased on the breaker, whatever others have
   * done to it since the admission. A breaker leases a probe only while half-open
   * (`Breaker.LeaseIsForProbes`).
   */
  lemma NoProbeIsLeftBehind(w: Walk, i: nat, bs: Breakers)
    requires Scripted(w) && i < |w.chain| && Reached(w, i) && Admitted(w, i)
    requires B.LeasesOnlyProbes(BreakerOf(w.turns[i].atReport, KeyOf(w, i)))
    ensures ReportLeaves(w, i).probeUntil == None
    ensures BreakerOf(Left(w, i, bs), KeyOf(w, i)) == ReportLeaves(w, i)
  {
    assert i < FirstStop(w, 0) ==> !Stops(w, i);
  }

  // ----- a walk that runs alone -----

  /** What the walk itself left before position `i`. */
  function Before(w: Walk, i: nat, bs: Breakers): Breakers
    requires Scripted(w) && i <= |w.chain|
  {
    if i == 0 then bs else Left(w, i - 1, w.turns[i - 1].atAsk)
  }

  /** What the question at position `i` left. */
  function AfterAsk(w: Walk, i: nat): Breakers
    requires Scripted(w) && i < |w.chain|
  {
    if |w.chain| == 1 then w.turns[i].atAsk else w.turns[i].atAsk[KeyOf(w, i) := AskLeaves(w, i)]
  }

  /** Nobody else touches the breakers between one step of the walk and the next. */
  ghost predicate AloneAt(w: Walk, bs: Breakers, i: nat)
    requires Scripted(w) && i < |w.chain|
  {
    w.turns[i].atAsk == Before(w, i, bs) && w.turns[i].atReport == AfterAsk(w, i)
  }

  ghost predicate Alone(w: Walk, bs: Breakers)
    requires Scripted(w)
  {
    forall i :: 0 <= i < |w.chain| ==> AloneAt(w, bs, i)
  }

  /** Positions from `i` on still have the breakers they had at the start, and so has everything off the chain. */
  ghost predicate Ahead(w: Walk, bs: Breakers, now: Breakers, i: nat) {
    && (forall m :: i <= m < |w.chain| ==> BreakerOf(now, KeyOf(w, m)) == BreakerOf(bs, KeyOf(w, m)))
    && (forall k: Key :: k.0 != w.role || k.1 !in w.chain ==> BreakerOf(now, k) == BreakerOf(bs, k))
  }

  /** The breaker of position `m` after its turn, from the one it had at the start. */
  function Settled(w: Walk, bs: Breakers, m: nat): B.State
    requires Scripted(w) && m < |w.chain|
  {
    var b, turn := BreakerOf(bs, KeyOf(w, m)), w.turns[m];
    if |w.chain| == 1 then Heard(b, w.policy, ReportOf(turn.reply), turn.reported)
    else if !B.Admits(b, turn.asked) then b
    else Heard(B.Acquired(b, w.policy, turn.asked), w.policy, ReportOf(turn.reply), turn.reported)
  }

  ghost predicate Behind(w: Walk, bs: Breakers, now: Breakers, i: nat)
    requires Scripted(w) && i <= |w.chain|
  {
    forall m :: 0 <= m < i ==> BreakerOf(now, KeyOf(w, m)) == Settled(w, bs, m)
  }

  lemma LeftAlone(w: Walk, bs: Breakers, i: nat)
    requires Valid(w) && i < |w.chain| && AloneAt(w, bs, i) && Ahead(w, bs, w.turns[i].atAsk, i)
    ensures Ahead(w, bs, Left(w, i, w.turns[i].atAsk), i + 1)
    ensures !Late(w, i) ==> BreakerOf(Left(w, i, w.turns[i].atAsk), KeyOf(w, i)) == Settled(w, bs, i)
  {
    assert forall m :: i < m < |w.chain| ==> KeyOf(w, m) != KeyOf(w, i);
  }

  lemma LeftBehind(w: Walk, bs: Breakers, i: nat)
    requires Valid(w) && i < |w.chain| && AloneAt(w, bs, i) && !Late(w, i)
    requires Ahead(w, bs, w.turns[i].atAsk, i) && Behind(w, bs, w.turns[i].atAsk, i)
    ensures Behind(w, bs, Left(w, i, w.turns[i].atAsk), i + 1)
  {
    LeftAlone(w, bs, i);
    assert forall m :: 0 <= m < i ==> KeyOf(w, m) != KeyOf(w, i);
  }

  lemma {:induction false} AheadAlone(w: Walk, bs: Breakers, i: nat)
    requires Valid(w) && Alone(w, bs) && i <= |w.chain|
    ensures Ahead(w, bs, Before(w, i, bs), i)
    ensures i <= FirstStop(w, 0) ==> Behind(w, bs, Before(w, i, bs), i)
  {
    if i == 0 {
    } else {
      AheadAlone(w, bs, i - 1);
      assert AloneAt(w, bs, i - 1);
      LeftAlone(w, bs, i - 1);
      if i <= FirstStop(w, 0) {
        assert !Stops(w, i - 1);
        LeftBehind(w, bs, i - 1);
      }
    }
  }

  lemma {:induction false} EndsAlone(w: Walk, bs: Breakers, i: nat, last: Option<B.Error>)
    requires Valid(w) && Alone(w, bs) && i <= FirstStop(w, 0)
    ensures var n := FirstStop(w, 0);
            From(w, i, Before(w, i, bs), last).breakers
            == if n == |w.chain| then Before(w, n, bs) else Left(w, n, Before(w, n, bs))
    decreases |w.chain| - i
  {
    if i == |w.chain| || i == FirstStop(w, 0) {
    } else {
      assert !Stops(w, i);
      assert AloneAt(w, bs, i);
      EndsAlone(w, bs, i + 1, Later(last, Visited(w, i).error));
    }
  }

  /** Alone, the walk finds every breaker as it was at the start: its admissions are decided there. */
  lemma AloneIsDecidedAtItsStart(w: Walk, bs: Breakers, i: nat)
    requires Valid(w) && Alone(w, bs) && i < |w.chain|
    ensures BreakerOf(w.turns[i].atAsk, KeyOf(w, i)) == BreakerOf(bs, KeyOf(w, i))
    ensures Admitted(w, i) <==> |w.chain| == 1 || B.Admits(BreakerOf(bs, KeyOf(w, i)), w.turns[i].asked)
  {
    AheadAlone(w, bs, i);
    assert AloneAt(w, bs, i);
  }

  /** Alone, it leaves each breaker it reached as its own question and report make it, and no other changed. */
  lemma AloneTouchesItsOwn(w: Walk, bs: Breakers)
    requires Valid(w) && Alone(w, bs)
    ensures var left := From(w, 0, bs, None).breakers;
            && (forall m :: 0 <= m < |w.chain| ==>
                  BreakerOf(left, KeyOf(w, m))
                  == if Reached(w, m) then Settled(w, bs, m) else BreakerOf(bs, KeyOf(w, m)))
            && (forall k: Key :: k.0 != w.role || k.1 !in w.chain ==> BreakerOf(left, k) == BreakerOf(bs, k))
  {
    var n := FirstStop(w, 0);
    EndsAlone(w, bs, 0, None);
    AheadAlone(w, bs, n);
    if n < |w.chain| {
      assert AloneAt(w, bs, n);
      LeftAlone(w, bs, n);
      if !Late(w, n) { LeftBehind(w, bs, n); }
    }
  }

  // ----- what holds of every chain -----

  /** A target of the chat role comes first, a judge without a model of its own is refused only outside local use. */
  lemma PrimaryTargets(s: Settings)
    ensures Chain(s, Default).Some? && Chain(s, Default).value != [] && Chain(s, Default).value[0] == s.chatModel
    ensures Chain(s, Judge).None? <==> s.judgeModel == "" && s.chatModel != "" && !s.local
    ensures s.judgeModel != "" ==> Chain(s, Judge) == Some([s.judgeModel])
    ensures s.judgeModel == "" && Chain(s, Judge).Some? ==> Chain(s, Judge) == Some([s.chatModel])
  {
    ChainIsWalkable(s, Default);
    if Chain(s, Judge).Some? { JudgeStandsAlone(s); }
  }

  lemma JudgeStandsAlone(s: Settings)
    requires Chain(s, Judge).Some?
    ensures Chain(s, Judge).value == [Primary(s, Judge).value]
  {
    var first := Primary(s, Judge).value;
    assert [first][..0] == [] && Dedupe([]) == [];
    assert Dedupe([first]) == [first];
  }

  /** The chat role walks its own model and all its fallbacks, each once, in the order in which they are configured. */
  lemma DefaultWalksEveryFallback(s: Settings, chain: seq<string>)
    requires Chain(s, Default) == Some(chain)
    ensures forall t :: t in chain <==> t == s.chatModel || t in s.fallbacks
    ensures Distinct(chain) && chain != [] && chain[0] == s.chatModel
    ensures forall i, j :: 0 < i < j < |chain| ==>
              && chain[i] in s.fallbacks && chain[j] in s.fallbacks
              && First(s.fallbacks, chain[i]) < First(s.fallbacks, chain[j])
  {
    var targets := [s.chatModel] + s.fallbacks;
    assert targets[1..] == s.fallbacks;
    DedupeKeepsFirsts(targets);
    ChainIsWalkable(s, Default);
    forall i, j | 0 < i < j < |chain|
      ensures chain[i] in s.fallbacks && chain[j] in s.fallbacks
      ensures First(s.fallbacks, chain[i]) < First(s.fallbacks, chain[j])
    {
      assert chain[i] in targets && chain[j] in targets && chain[0] != chain[i] && chain[0] != chain[j];
      assert First(targets, chain[i]) == 1 + First(s.fallbacks, chain[i]);
      assert First(targets, chain[j]) == 1 + First(s.fallbacks, chain[j]);
    }
  }

  /** Position `i` is passed: refused by its breaker, or failed in a way that another target may fix. */
  predicate PassedBy(w: Walk, i: nat)
    requires Scripted(w) && i < |w.chain|
  {
    !Late(w, i) && (!Admitted(w, i) || (w.turns[i].reply.Threw? && B.Transient(w.turns[i].reply.error)))
  }

  predicate AnswersAt(w: Walk, i: nat)
    requires Scripted(w) && i < |w.chain|
  {
    !Late(w, i) && Admitted(w, i) && w.turns[i].reply.Replied?
  }

  /**
   * The call fails over: every configured fallback is a position of the walk, and if those
   * before it were passed by and it is admitted and answers in time, the call ends with its
   * answer.
   */
  lemma FallbackAnswers(s: Settings, w: Walk, bs: Breakers, t: string) returns (n: nat)
    requires Chain(s, Default) == Some(w.chain) && Scripted(w) && t in s.fallbacks
    ensures n < |w.chain| && w.chain[n] == t
    ensures (forall i :: 0 <= i < n ==> PassedBy(w, i)) && AnswersAt(w, n) ==>
              From(w, 0, bs, None).ending == Message(w.turns[n].reply.message)
  {
    DefaultWalksEveryFallback(s, w.chain);
    assert t in w.chain;
    n :| n < |w.chain| && w.chain[n] == t;
    if (forall i :: 0 <= i < n ==> PassedBy(w, i)) && AnswersAt(w, n) {
      StopsThere(w, n);
      WalkFollowsItsAdmissions(w, bs);
    }
  }

  lemma StopsThere(w: Walk, n: nat)
    requires Scripted(w) && n < |w.chain| && Stops(w, n) && forall i :: 0 <= i < n ==> PassedBy(w, i)
    ensures FirstStop(w, 0) == n
  {
    assert forall i :: 0 <= i < n ==> PassedBy(w, i) ==> !Stops(w, i);
  }

  /** The chain a router walks is non-empty, without duplicates, and starts with the primary target. */
  lemma ChainIsWalkable(s: Settings, role: Role)
    requires Chain(s, role).Some?
    ensures var chain := Chain(s, role).value;
            chain != [] && Distinct(chain) && chain[0] == Primary(s, role).value
  {
    var targets := [Primary(s, role).value] + if role == Default then s.fallbacks else [];
    DedupeKeepsFirsts(targets);
    var chain := Dedupe(targets);
    assert targets[0] in chain;
    var j :| 0 <= j < |chain| && chain[j] == targets[0];
    assert First(targets, chain[j]) == 0;
  }
}
