/** The circuit breaker: closed, open and half-open, with a leased probe slot. */
module Breaker {
  import opened Prelude

  datatype Mode = Closed | Open | HalfOpen

  datatype Policy = Policy(threshold: int, cooldown: Time)

  predicate Valid(p: Policy) { p.threshold > 0 && p.cooldown > 0.0 }

  /** `network` marks a timeout or a connection error, by type or by class name. */
  datatype Error = Error(status: Option<int>, network: bool)

  predicate Transient(e: Error) {
    if e.status.Some? then e.status.value in {408, 429} || e.status.value >= 500 else e.network
  }

  /** Overload, a server error or an unreachable provider may pass; any other status is the caller's fault for good. */
  lemma WhatMayPass(e: Error)
    ensures e.status == Some(408) || e.status == Some(429) ==> Transient(e)
    ensures e.status.Some? && e.status.value >= 500 ==> Transient(e)
    ensures e.status.Some? && e.status.value < 500 && e.status.value != 408 && e.status.value != 429 ==> !Transient(e)
    ensures e.status.None? ==> (Transient(e) <==> e.network)
  {
  }

  datatype State = State(mode: Mode, failures: int, openUntil: Time, probeUntil: Option<Time>)

  const NEW := State(Closed, 0, 0.0, None)

  /** Would the breaker admit a caller now? */
  predicate Admits(s: State, now: Time) {
    match s.mode
    case Closed => true
    case Open => s.openUntil <= now
    case HalfOpen => s.probeUntil.None? || s.probeUntil.value <= now
  }

  function Acquired(s: State, p: Policy, now: Time): State {
    if s.mode != Closed && Admits(s, now) then s.(mode := HalfOpen, probeUntil := Some(now + p.cooldown)) else s
  }

  function Released(s: State): State { s.(probeUntil := None) }

  function Succeeded(s: State): State { s.(failures := 0, mode := Closed, probeUntil := None) }

  function Opened(s: State, p: Policy, now: Time): State {
    s.(mode := Open, openUntil := now + p.cooldown, probeUntil := None)
  }

  function Failed(s: State, p: Policy, e: Error, now: Time): State {
    if !Transient(e) then Released(s)
    else
      match s.mode
      case HalfOpen => Opened(s, p, now)
      case Open => s
      case Closed =>
        if s.failures + 1 >= p.threshold then Opened(s.(failures := s.failures + 1), p, now)
        else s.(failures := s.failures + 1)
  }

  class CircuitBreaker {
    const policy: Policy
    var mode: Mode
    var failures: int
    var openUntil: Time
    var probeUntil: Option<Time>

    function Value(): State
      reads this
    {
      State(mode, failures, openUntil, probeUntil)
    }

    constructor (threshold: int, cooldown: Time)
      requires threshold > 0 && cooldown > 0.0
      ensures policy == Policy(threshold, cooldown) && Value() == NEW
    {
      policy := Policy(threshold, cooldown);
      mode, failures, openUntil, probeUntil := Closed, 0, 0.0, None;
    }

    method TryAcquire(now: Time) returns (admitted: bool)
      modifies this
      ensures admitted == Admits(old(Value()), now) && Value() == Acquired(old(Value()), policy, now)
    {
      if mode == Closed { return true; }
      if mode == Open {
        if now < openUntil { return false; }
        mode := HalfOpen;
        probeUntil := None;
      }
      if probeUntil.Some? && now < probeUntil.value { return false; }
      probeUntil := Some(now + policy.cooldown);
      admitted := true;
    }

    method ReleaseProbe()
      modifies this
      ensures Value() == Released(old(Value()))
    {
      probeUntil := None;
    }

    method RecordSuccess()
      modifies this
      ensures Value() == Succeeded(old(Value()))
    {
      failures := 0;
      mode := Closed;
      probeUntil := None;
    }

    method RecordFailure(e: Error, now: Time)
      modifies this
      ensures Value() == Failed(old(Value()), policy, e, now)
    {
      if !Transient(e) {
        probeUntil := None;
        return;
      }
      if mode == HalfOpen {
        Trip(now);
        return;
      }
      if mode == Open { return; }
      failures := failures + 1;
      if failures >= policy.threshold { Trip(now); }
    }

    method Trip(now: Time)
      modifies this
      ensures Value() == Opened(old(Value()), policy, now)
    {
      mode := Open;
      openUntil := now + policy.cooldown;
      probeUntil := None;
    }
  }

  /** A released slot says nothing of the provider: only the lease is gone. */
  lemma ReleaseSaysNothing(s: State)
    ensures Released(s).mode == s.mode && Released(s).failures == s.failures && Released(s).openUntil == s.openUntil
  {
  }

  // ----- runs -----

  datatype Op =
    | Acquire(at: Time)
    | Release(at: Time)
    | Success(at: Time)
    | Failure(at: Time, error: Error)

  function Apply(s: State, p: Policy, op: Op): State {
    match op
    case Acquire(at) => Acquired(s, p, at)
    case Release(_) => Released(s)
    case Success(_) => Succeeded(s)
    case Failure(at, e) => Failed(s, p, e, at)
  }

  ghost predicate Run(st: seq<State>, ops: seq<Op>, p: Policy) {
    && Valid(p) && |st| == |ops| + 1 && st[0] == NEW
    && (forall i {:trigger ops[i]} :: 0 <= i < |ops| ==> st[i + 1] == Apply(st[i], p, ops[i]))
    && (forall i, j :: 0 <= i < j < |ops| ==> ops[i].at <= ops[j].at)
  }

  /** Transient failures since the last success. */
  function Streak(ops: seq<Op>, k: nat): nat
    requires k <= |ops|
  {
    if k == 0 || ops[k - 1].Success? then 0
    else Streak(ops, k - 1) + if ops[k - 1].Failure? && Transient(ops[k - 1].error) then 1 else 0
  }

  /** The breaker is closed exactly when its count, and the streak it stands for, is below the threshold. */
  lemma {:induction false} ClosedBelowTheThreshold(st: seq<State>, ops: seq<Op>, p: Policy, k: nat)
    requires Run(st, ops, p) && k <= |ops|
    ensures st[k].mode == Closed <==> st[k].failures < p.threshold
    ensures st[k].mode == Closed <==> Streak(ops, k) < p.threshold
    ensures st[k].failures == if Streak(ops, k) < p.threshold then Streak(ops, k) else p.threshold
  {
    if k == 0 {
    } else {
      ClosedBelowTheThreshold(st, ops, p, k - 1);
      assert st[k] == Apply(st[k - 1], p, ops[k - 1]);
    }
  }

  ghost predicate NoSuccess(ops: seq<Op>, i: nat, j: nat) {
    forall m :: i < m < j && m < |ops| ==> !ops[m].Success?
  }

  /** Until the cooldown is over the breaker stays open, whatever else is reported. */
  lemma {:induction false} StaysOpen(st: seq<State>, ops: seq<Op>, p: Policy, i: nat, j: nat)
    requires Run(st, ops, p) && i < j <= |ops| && st[i].mode != Open && st[i + 1].mode == Open && NoSuccess(ops, i, j)
    requires ops[j - 1].at < ops[i].at + p.cooldown
    ensures st[j].mode == Open && st[j].openUntil == ops[i].at + p.cooldown
    decreases j
  {
    if i + 1 == j {
    } else {
      StaysOpen(st, ops, p, i, j - 1);
    }
    assert st[j] == Apply(st[j - 1], p, ops[j - 1]);
  }

  /** After opening, nobody is admitted for a full cooldown unless a success is reported. */
  lemma NobodyDuringCooldown(st: seq<State>, ops: seq<Op>, p: Policy, i: nat, j: nat)
    requires Run(st, ops, p) && i < j < |ops| && st[i].mode != Open && st[i + 1].mode == Open && NoSuccess(ops, i, j)
    requires ops[j].Acquire? && Admits(st[j], ops[j].at)
    ensures ops[j].at >= ops[i].at + p.cooldown
  {
    if ops[j].at < ops[i].at + p.cooldown { StaysOpen(st, ops, p, i, j); }
  }

  ghost predicate NoReport(ops: seq<Op>, i: nat, j: nat) {
    forall m :: i < m < j && m < |ops| ==> ops[m].Acquire?
  }

  ghost predicate ProbesAt(st: seq<State>, ops: seq<Op>, i: nat) {
    i < |ops| < |st| && ops[i].Acquire? && st[i].mode != Closed && Admits(st[i], ops[i].at)
  }

  lemma {:induction false} LeaseHolds(st: seq<State>, ops: seq<Op>, p: Policy, i: nat, j: nat)
    requires Run(st, ops, p) && i < j <= |ops| && ProbesAt(st, ops, i) && NoReport(ops, i, j)
    requires ops[j - 1].at < ops[i].at + p.cooldown
    ensures st[j].mode == HalfOpen && st[j].probeUntil == Some(ops[i].at + p.cooldown)
    decreases j
  {
    if i + 1 == j {
    } else {
      LeaseHolds(st, ops, p, i, j - 1);
    }
    assert st[j] == Apply(st[j - 1], p, ops[j - 1]);
  }

  /** Two probes with no report between them are at least one cooldown apart. */
  lemma ProbesAreACooldownApart(st: seq<State>, ops: seq<Op>, p: Policy, i: nat, j: nat)
    requires Run(st, ops, p) && i < j && ProbesAt(st, ops, i) && ProbesAt(st, ops, j) && NoReport(ops, i, j)
    ensures ops[j].at >= ops[i].at + p.cooldown
  {
    if ops[j].at < ops[i].at + p.cooldown { LeaseHolds(st, ops, p, i, j); }
  }

  /** No wait reaches further than one cooldown past the latest event. */
  lemma {:induction false} WaitsAreShort(st: seq<State>, ops: seq<Op>, p: Policy, k: nat)
    requires Run(st, ops, p) && 0 < k <= |ops|
    ensures st[k].mode == Open ==> st[k].openUntil <= ops[k - 1].at + p.cooldown
    ensures st[k].mode == HalfOpen && st[k].probeUntil.Some? ==> st[k].probeUntil.value <= ops[k - 1].at + p.cooldown
    ensures st[k].mode == Closed ==> st[k].probeUntil == None
  {
    if k == 1 {
    } else {
      WaitsAreShort(st, ops, p, k - 1);
    }
    assert st[k] == Apply(st[k - 1], p, ops[k - 1]);
  }

  /** Only a half-open breaker has leased its probe slot. */
  ghost predicate LeasesOnlyProbes(s: State) { s.mode != HalfOpen ==> s.probeUntil == None }

  lemma {:induction false} LeaseIsForProbes(st: seq<State>, ops: seq<Op>, p: Policy, k: nat)
    requires Run(st, ops, p) && k <= |ops|
    ensures LeasesOnlyProbes(st[k])
  {
    if k == 0 {
    } else {
      LeaseIsForProbes(st, ops, p, k - 1);
      assert st[k] == Apply(st[k - 1], p, ops[k - 1]);
    }
  }

  lemma {:induction false} RefusalsChangeNothing(st: seq<State>, ops: seq<Op>, p: Policy, k: nat, m: nat)
    requires Run(st, ops, p) && k <= m <= |ops|
    requires forall a :: k <= a < m ==> ops[a].Acquire? && !Admits(st[a], ops[a].at)
    ensures st[m] == st[k]
    decreases m
  {
    if k == m {
    } else {
      RefusalsChangeNothing(st, ops, p, k, m - 1);
      assert st[m] == Apply(st[m - 1], p, ops[m - 1]);
    }
  }

  /**
   * The breaker never wedges: from any reachable state on, with nothing but attempts, one of
   * them has been admitted by the time a cooldown has passed.
   */
  lemma NeverWedges(st: seq<State>, ops: seq<Op>, p: Policy, k: nat, m: nat) returns (a: nat)
    requires Run(st, ops, p) && k <= m < |ops| && (forall a :: k <= a <= m ==> ops[a].Acquire?)
    requires k > 0 ==> ops[m].at >= ops[k - 1].at + p.cooldown
    ensures k <= a <= m && Admits(st[a], ops[a].at)
  {
    if x :| k <= x < m && Admits(st[x], ops[x].at) {
      a := x;
    } else {
      a := m;
      RefusalsChangeNothing(st, ops, p, k, m);
      if k > 0 { WaitsAreShort(st, ops, p, k); }
    }
  }

  /** Below the threshold everyone is admitted. */
  lemma ClosedAdmitsEveryone(st: seq<State>, ops: seq<Op>, p: Policy, k: nat, now: Time)
    requires Run(st, ops, p) && k <= |ops| && Streak(ops, k) < p.threshold
    ensures Admits(st[k], now)
  {
    ClosedBelowTheThreshold(st, ops, p, k);
  }

  /**
   * A transient failure that leaves the streak at the threshold or above opens a breaker that
   * was not open: at the threshold out of closed, and every time out of half-open. Nobody is
   * admitted for a full cooldown from then on, unless a success is reported.
   */
  lemma FailureStartsACooldown(st: seq<State>, ops: seq<Op>, p: Policy, i: nat, j: nat)
    requires Run(st, ops, p) && i < j < |ops| && NoSuccess(ops, i, j)
    requires ops[i].Failure? && Transient(ops[i].error) && st[i].mode != Open && Streak(ops, i + 1) >= p.threshold
    requires ops[j].Acquire? && Admits(st[j], ops[j].at)
    ensures ops[j].at >= ops[i].at + p.cooldown
  {
    ClosedBelowTheThreshold(st, ops, p, i + 1);
    assert st[i + 1] == Apply(st[i], p, ops[i]);
    NobodyDuringCooldown(st, ops, p, i, j);
  }

  /** In particular a failed probe does: nobody is admitted for a full cooldown after it. */
  lemma FailedProbeReopens(st: seq<State>, ops: seq<Op>, p: Policy, i: nat, j: nat)
    requires Run(st, ops, p) && i < j < |ops| && NoSuccess(ops, i, j)
    requires ops[i].Failure? && Transient(ops[i].error) && st[i].mode == HalfOpen
    requires ops[j].Acquire? && Admits(st[j], ops[j].at)
    ensures ops[j].at >= ops[i].at + p.cooldown
  {
    ClosedBelowTheThreshold(st, ops, p, i);
    FailureStartsACooldown(st, ops, p, i, j);
  }

  /** A probe that is given back, or fails for a reason that says nothing of the provider, frees its slot at once. */
  lemma FreedProbeIsGrantedAgain(st: seq<State>, ops: seq<Op>, p: Policy, i: nat, now: Time)
    requires Run(st, ops, p) && i < |ops| && st[i].mode == HalfOpen
    requires ops[i].Release? || (ops[i].Failure? && !Transient(ops[i].error))
    ensures Admits(st[i + 1], now)
  {
    assert st[i + 1] == Apply(st[i], p, ops[i]);
  }

  /** Nothing but refused attempts, releases and failures between `i` and `j`. */
  ghost predicate NoAdmission(st: seq<State>, ops: seq<Op>, i: nat, j: nat)
    requires |st| == |ops| + 1 && j <= |ops|
  {
    forall m :: i < m < j ==> !ops[m].Success? && (ops[m].Acquire? ==> !Admits(st[m], ops[m].at))
  }

  lemma {:induction false} CooldownIsFixed(st: seq<State>, ops: seq<Op>, p: Policy, i: nat, j: nat)
    requires Run(st, ops, p) && i < j <= |ops| && NoAdmission(st, ops, i, j)
    requires st[i].mode != Open && st[i + 1].mode == Open
    ensures st[j].mode == Open && st[j].openUntil == ops[i].at + p.cooldown
    decreases j
  {
    assert st[j] == Apply(st[j - 1], p, ops[j - 1]);
    if i + 1 == j {
    } else {
      CooldownIsFixed(st, ops, p, i, j - 1);
    }
  }

  /** Failures that arrive while it is open do not prolong a cooldown: it ends when it was to end. */
  lemma LateFailuresDoNotProlong(st: seq<State>, ops: seq<Op>, p: Policy, i: nat, j: nat)
    requires Run(st, ops, p) && i < j < |ops| && NoAdmission(st, ops, i, j)
    requires st[i].mode != Open && st[i + 1].mode == Open && ops[j].Acquire?
    ensures Admits(st[j], ops[j].at) <==> ops[j].at >= ops[i].at + p.cooldown
  {
    CooldownIsFixed(st, ops, p, i, j);
  }
}
