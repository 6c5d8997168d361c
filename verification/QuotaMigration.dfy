/**
 * Moving the usage of one subject and resource into its current window. Several calls may
 * migrate at once; each command of each call is its own atomic step.
 */
module QuotaMigration {
  import opened Prelude
  import opened QuotaModels

  type Window = string
  type ProcId = nat

  datatype Bucket = Bucket(used: int, resetAt: Time)

  datatype Doc = Doc(window: Window, cost: int, status: Status, idempotencyKey: Option<string>)

  /**
   * Where a migration stands. `used` is what it holds of the counter it deleted; once that is
   * added to the target the number only observes what the documents of `from` still stand for.
   */
  datatype Point =
    | Scan
    | Touch
    | Claim(rest: seq<Window>)
    | Add(from: Window, used: int, rest: seq<Window>)
    | Repoint(from: Window, used: int, rest: seq<Window>)
    | Done

  datatype Proc = Proc(target: Window, resetAt: Time, now: Time, at: Point)

  datatype State = State(counters: map<Window, Bucket>, docs: map<Id, Doc>, procs: map<ProcId, Proc>)

  /** One command of process `p`; a scan also says in which order the cursor gave the stale windows. */
  datatype Op = Op(p: ProcId, order: seq<Window>)

  predicate Stale(counters: map<Window, Bucket>, p: Proc, w: Window) {
    w in counters && w != p.target && counters[w].resetAt > p.now
  }

  ghost predicate Lists(order: seq<Window>, counters: map<Window, Bucket>, p: Proc) {
    && (forall w :: w in order <==> Stale(counters, p, w))
    && (forall i, j :: 0 <= i < j < |order| ==> order[i] != order[j])
  }

  ghost predicate Enabled(s: State, op: Op) {
    && op.p in s.procs && s.procs[op.p].at != Done
    && (s.procs[op.p].at == Scan ==> Lists(op.order, s.counters, s.procs[op.p]))
  }

  function Goto(s: State, p: ProcId, at: Point): State
    requires p in s.procs
  {
    s.(procs := s.procs[p := s.procs[p].(at := at)])
  }

  function Loop(rest: seq<Window>): Point { if rest == [] then Done else Claim(rest) }

  function UsedOf(counters: map<Window, Bucket>, w: Window): int { if w in counters then counters[w].used else 0 }

  function Scanned(s: State, op: Op): State
    requires op.p in s.procs
  {
    Goto(s, op.p,
         if op.order != [] then Claim(op.order) else if s.procs[op.p].target in s.counters then Touch else Done)
  }

  function Touched(s: State, p: ProcId): State
    requires p in s.procs
  {
    var Proc(target, resetAt, _, _) := s.procs[p];
    if target !in s.counters then Goto(s, p, Done)
    else Goto(s.(counters := s.counters[target := s.counters[target].(resetAt := resetAt)]), p, Done)
  }

  function Claimed(s: State, p: ProcId): State
    requires p in s.procs && s.procs[p].at.Claim? && s.procs[p].at.rest != []
  {
    var w, rest := s.procs[p].at.rest[0], s.procs[p].at.rest[1..];
    if w in s.counters then Goto(s.(counters := s.counters - {w}), p, Add(w, s.counters[w].used, rest))
    else Goto(s, p, Loop(rest))
  }

  function Added(s: State, p: ProcId): State
    requires p in s.procs && s.procs[p].at.Add?
  {
    var Proc(target, resetAt, _, Add(from, used, rest)) := s.procs[p];
    var sum := Bucket(UsedOf(s.counters, target) + used, resetAt);
    Goto(s.(counters := s.counters[target := sum]), p, Repoint(from, used, rest))
  }

  function Redirected(docs: map<Id, Doc>, from: Window, to: Window): map<Id, Doc> {
    map id | id in docs :: if docs[id].window == from then docs[id].(window := to) else docs[id]
  }

  function Repointed(s: State, p: ProcId): State
    requires p in s.procs && s.procs[p].at.Repoint?
  {
    var at := s.procs[p].at;
    Goto(s.(docs := Redirected(s.docs, at.from, s.procs[p].target)), p, Loop(at.rest))
  }

  function Step(s: State, op: Op): State
    requires op.p in s.procs
  {
    match s.procs[op.p].at
    case Scan => Scanned(s, op)
    case Touch => Touched(s, op.p)
    case Claim(rest) => if rest == [] then s else Claimed(s, op.p)
    case Add(_, _, _) => Added(s, op.p)
    case Repoint(_, _, _) => Repointed(s, op.p)
    case Done => s
  }

  ghost predicate Run(st: seq<State>, ops: seq<Op>) {
    && |st| == |ops| + 1 && (forall p :: p in st[0].procs ==> st[0].procs[p].at == Scan)
    && forall i {:trigger ops[i]} :: 0 <= i < |ops| ==> Enabled(st[i], ops[i]) && st[i + 1] == Step(st[i], ops[i])
  }

  ghost predicate AtRest(s: State) { forall p :: p in s.procs ==> s.procs[p].at == Done }

  // ----- conservation, whatever the targets -----

  function Usage(): (Window, Bucket) -> int { (w: Window, c: Bucket) => c.used }

  /** Usage deleted from one counter and not yet added to another. */
  function InHand(): (ProcId, Proc) -> int { (p: ProcId, q: Proc) => if q.at.Add? then q.at.used else 0 }

  ghost function Everything(s: State): int { Total(s.counters, Usage()) + Total(s.procs, InHand()) }

  lemma MoveKeeps(s: State, p: ProcId, at: Point)
    requires p in s.procs
    ensures Total(Goto(s, p, at).procs, InHand())
         == Total(s.procs, InHand()) - InHand()(p, s.procs[p]) + InHand()(p, s.procs[p].(at := at))
  {
    TotalUpdate(s.procs, p, s.procs[p].(at := at), InHand());
  }

  lemma PutKeeps(counters: map<Window, Bucket>, w: Window, c: Bucket)
    ensures Total(counters[w := c], Usage()) == Total(counters, Usage()) - UsedOf(counters, w) + c.used
  {
    if w in counters { TotalUpdate(counters, w, c, Usage()); } else { TotalInsert(counters, w, c, Usage()); }
  }

  lemma StepConserves(s: State, op: Op)
    requires op.p in s.procs
    ensures Everything(Step(s, op)) == Everything(s)
  {
    var p := op.p;
    var Proc(target, resetAt, _, at) := s.procs[p];
    MoveKeeps(s, p, Step(s, op).procs[p].at);
    match at
    case Touch =>
      if target in s.counters { PutKeeps(s.counters, target, s.counters[target].(resetAt := resetAt)); }
    case Claim(rest) =>
      if rest != [] && rest[0] in s.counters { TotalRemove(s.counters, rest[0], Usage()); }
    case Add(from, used, rest) =>
      PutKeeps(s.counters, target, Bucket(UsedOf(s.counters, target) + used, resetAt));
    case _ =>
  }

  /** The counters plus what is in hand add up to the same total at every point of every run. */
  lemma {:induction false} TotalIsConstant(st: seq<State>, ops: seq<Op>, k: nat)
    requires Run(st, ops) && k <= |ops|
    ensures Everything(st[k]) == Total(st[0].counters, Usage())
  {
    if k > 0 {
      TotalIsConstant(st, ops, k - 1);
      StepConserves(st[k - 1], ops[k - 1]);
    } else {
      TotalDrop(st[0].procs, st[0].procs.Keys, InHand());
      assert st[0].procs - st[0].procs.Keys == map[];
    }
  }

  // ----- one common target -----

  ghost predicate Common(s: State, target: Window) { forall p :: p in s.procs ==> s.procs[p].target == target }

  predicate Pending(q: Proc) { q.at.Add? || q.at.Repoint? }

  function Rest(at: Point): seq<Window> {
    if at.Claim? || at.Add? || at.Repoint? then at.rest else []
  }

  /** A window being moved is not the target, has no counter, and is moved by one process only. */
  ghost predicate Shape(s: State, target: Window) {
    && Common(s, target)
    && (forall p :: p in s.procs ==> target !in Rest(s.procs[p].at))
    && (forall p :: p in s.procs && Pending(s.procs[p]) ==>
          s.procs[p].at.from != target && s.procs[p].at.from !in s.counters)
    && (forall p, q :: p in s.procs && q in s.procs && p != q && Pending(s.procs[p]) && Pending(s.procs[q]) ==>
          s.procs[p].at.from != s.procs[q].at.from)
  }

  /** The window a process is moving, if any. */
  function From(at: Point): Option<Window> { if at.Add? || at.Repoint? then Some(at.from) else None }

  lemma MoveShapes(s: State, s': State, p: ProcId, target: Window)
    requires Shape(s, target) && p in s.procs && p in s'.procs
    requires s'.procs == s.procs[p := s.procs[p].(at := s'.procs[p].at)]
    requires forall w :: w in s'.counters ==> w in s.counters || w == target
    requires target !in Rest(s'.procs[p].at)
    requires From(s'.procs[p].at) in {None, From(s.procs[p].at)}
          || (From(s'.procs[p].at).value in s.counters && s'.counters == s.counters - {From(s'.procs[p].at).value})
    requires From(s'.procs[p].at) != Some(target)
    ensures Shape(s', target)
  {
  }

  lemma ShapeStep(s: State, op: Op, target: Window)
    requires Shape(s, target) && Enabled(s, op)
    ensures Shape(Step(s, op), target)
  {
    MoveShapes(s, Step(s, op), op.p, target);
  }

  lemma {:induction false} ShapeHolds(st: seq<State>, ops: seq<Op>, target: Window, k: nat)
    requires Run(st, ops) && k <= |ops| && Common(st[0], target)
    ensures Shape(st[k], target)
  {
    if k == 0 {
    } else {
      ShapeHolds(st, ops, target, k - 1);
      ShapeStep(st[k - 1], ops[k - 1], target);
    }
  }

  // ----- no stale counter is left -----

  /** Whatever is stale for a process that has scanned is still on its list. */
  ghost predicate Listed(s: State, target: Window, p: ProcId)
    requires p in s.procs
  {
    var q := s.procs[p];
    q.at != Scan ==> forall w :: Stale(s.counters, q, w) ==> w in Rest(q.at)
  }

  lemma ListedStep(s: State, op: Op, target: Window, p: ProcId)
    requires Shape(s, target) && Enabled(s, op) && p in s.procs && Listed(s, target, p)
    ensures p in Step(s, op).procs && Listed(Step(s, op), target, p)
  {
    var s' := Step(s, op);
    assert s'.procs[p].target == s.procs[p].target == target && s'.procs[p].now == s.procs[p].now;
    forall w | Stale(s'.counters, s'.procs[p], w)
      ensures s'.procs[p].at != Scan ==> w in Rest(s'.procs[p].at)
    {
      assert Stale(s.counters, s.procs[p], w);
    }
  }

  lemma {:induction false} ListedHolds(st: seq<State>, ops: seq<Op>, target: Window, k: nat, p: ProcId)
    requires Run(st, ops) && k <= |ops| && Common(st[0], target) && p in st[0].procs
    ensures p in st[k].procs && Listed(st[k], target, p)
  {
    if k == 0 {
    } else {
      ListedHolds(st, ops, target, k - 1, p);
      ShapeHolds(st, ops, target, k - 1);
      ListedStep(st[k - 1], ops[k - 1], target, p);
    }
  }

  /** Once a migration is done, no counter that was unexpired for it is left beside the target's. */
  lemma NoStaleCounterRemains(st: seq<State>, ops: seq<Op>, target: Window, k: nat, p: ProcId)
    requires Run(st, ops) && k <= |ops| && Common(st[0], target)
    requires p in st[0].procs && p in st[k].procs && st[k].procs[p].at == Done
    ensures forall w :: w in st[k].counters && w != target ==> st[k].counters[w].resetAt <= st[k].procs[p].now
  {
    ListedHolds(st, ops, target, k, p);
    ShapeHolds(st, ops, target, k);
    forall w | w in st[k].counters && w != target
      ensures st[k].counters[w].resetAt <= st[k].procs[p].now
    {
      assert w !in Rest(st[k].procs[p].at);
      assert !Stale(st[k].counters, st[k].procs[p], w);
    }
  }

  // ----- every reservation follows its counter -----

  ghost predicate Moving(s: State, w: Window) {
    exists p :: p in s.procs && Pending(s.procs[p]) && s.procs[p].at.from == w
  }

  /** Where a reservation that started in window `w` is to be found. */
  ghost function Place(counters: map<Window, Bucket>, s: State, target: Window, w: Window): Window {
    if w in counters && w !in s.counters && !Moving(s, w) then target else w
  }

  ghost predicate Followed(first: State, s: State, target: Window) {
    && s.docs.Keys == first.docs.Keys
    && (forall id :: id in s.docs ==>
          s.docs[id] == first.docs[id].(window := Place(first.counters, s, target, first.docs[id].window)))
    && (forall w :: w in s.counters && w != target ==> w in first.counters)
    && (forall w :: Moving(s, w) ==> w in first.counters)
  }

  lemma MovingStep(s: State, op: Op, target: Window, w: Window)
    requires Enabled(s, op) && Shape(s, target)
    ensures var at, at' := s.procs[op.p].at, Step(s, op).procs[op.p].at;
            if From(at') == From(at) then Moving(Step(s, op), w) <==> Moving(s, w)
            else if From(at') == None then Moving(Step(s, op), w) <==> Moving(s, w) && From(at) != Some(w)
            else Moving(Step(s, op), w) <==> Moving(s, w) || From(at') == Some(w)
  {
    var s', p := Step(s, op), op.p;
    assert s'.procs == s.procs[p := s.procs[p].(at := s'.procs[p].at)];
    if q :| q in s.procs && Pending(s.procs[q]) && s.procs[q].at.from == w && q != p {
      assert Pending(s'.procs[q]) && s'.procs[q].at.from == w;
    }
    if q :| q in s'.procs && Pending(s'.procs[q]) && s'.procs[q].at.from == w && q != p {
      assert Pending(s.procs[q]) && s.procs[q].at.from == w;
    }
    if Pending(s'.procs[p]) { assert Moving(s', s'.procs[p].at.from); }
    if Pending(s.procs[p]) { assert Moving(s, s.procs[p].at.from); }
  }

  lemma DocFollows(first: State, s: State, op: Op, target: Window, id: Id)
    requires Shape(s, target) && Enabled(s, op) && Followed(first, s, target) && id in s.docs
    ensures id in Step(s, op).docs
    ensures Step(s, op).docs[id]
         == first.docs[id].(window := Place(first.counters, Step(s, op), target, first.docs[id].window))
  {
    var at, w := s.procs[op.p].at, first.docs[id].window;
    MovingStep(s, op, target, w);
    if at.Repoint? { assert Moving(s, at.from); }
  }

  lemma FollowedStep(first: State, s: State, op: Op, target: Window)
    requires Shape(s, target) && Enabled(s, op) && Followed(first, s, target)
    ensures Followed(first, Step(s, op), target)
  {
    forall id | id in s.docs
      ensures id in Step(s, op).docs
      ensures Step(s, op).docs[id]
           == first.docs[id].(window := Place(first.counters, Step(s, op), target, first.docs[id].window))
    {
      DocFollows(first, s, op, target, id);
    }
    forall w | Moving(Step(s, op), w)
      ensures w in first.counters
    {
      MovingStep(s, op, target, w);
      assert From(Step(s, op).procs[op.p].at) == Some(w) && !Moving(s, w) ==> w in s.counters && w != target;
    }
  }

  lemma {:induction false} FollowedHolds(st: seq<State>, ops: seq<Op>, target: Window, k: nat)
    requires Run(st, ops) && k <= |ops| && Common(st[0], target)
    ensures Followed(st[0], st[k], target)
  {
    if k == 0 {
    } else {
      FollowedHolds(st, ops, target, k - 1);
      ShapeHolds(st, ops, target, k - 1);
      FollowedStep(st[0], st[k - 1], ops[k - 1], target);
    }
  }

  /**
   * At rest a reservation points at the target if its counter was moved, and is exactly as it
   * was if its counter is still there or there never was one.
   */
  lemma ReservationsFollowTheirCounter(st: seq<State>, ops: seq<Op>, target: Window)
    requires Run(st, ops) && Common(st[0], target) && AtRest(st[|ops|])
    ensures st[|ops|].docs.Keys == st[0].docs.Keys
    ensures forall id :: id in st[0].docs ==>
              var w := st[0].docs[id].window;
              st[|ops|].docs[id] ==
                if w in st[0].counters && w !in st[|ops|].counters then st[0].docs[id].(window := target)
                else st[0].docs[id]
  {
    FollowedHolds(st, ops, target, |ops|);
    assert forall w :: !Moving(st[|ops|], w);
  }

  // ----- the target takes over -----

  /** A scan leads to the stale windows if there are any, and otherwise only to the target's own counter. */
  lemma ScansLeadOn(s: State, op: Op)
    requires Enabled(s, op) && s.procs[op.p].at == Scan
    ensures var q := s.procs[op.p];
            var at, stale := Step(s, op).procs[op.p].at, exists w :: Stale(s.counters, q, w);
            && (stale ==> at.Claim? && forall w :: w in at.rest <==> Stale(s.counters, q, w))
            && (!stale ==> at == if q.target in s.counters then Touch else Done)
  {
    if op.order == [] {
      assert forall w :: w !in op.order;
    } else {
      assert op.order[0] in op.order;
    }
  }

  /** Whoever adds to the target's counter or touches it leaves it with its own reset time. */
  lemma TargetTakesTheResetTime(s: State, op: Op)
    requires Enabled(s, op)
    requires s.procs[op.p].at.Add? || (s.procs[op.p].at == Touch && s.procs[op.p].target in s.counters)
    ensures var q, s' := s.procs[op.p], Step(s, op);
            && q.target in s'.counters && s'.counters[q.target].resetAt == q.resetAt
            && s'.counters[q.target].used == UsedOf(s.counters, q.target) + (if q.at.Add? then q.at.used else 0)
            && (forall w :: w != q.target ==> (w in s'.counters <==> w in s.counters))
            && (forall w :: w != q.target && w in s.counters ==> s'.counters[w] == s.counters[w])
  {
  }

  // ----- every migration ends -----

  /** The commands a process has still to give after its scan. */
  function Left(at: Point): nat {
    match at
    case Touch => 1
    case Claim(rest) => 3 * |rest|
    case Add(_, _, rest) => 3 * |rest| + 2
    case Repoint(_, _, rest) => 3 * |rest| + 1
    case _ => 0
  }

  /** After its scan a process has at most so many commands left, none exactly when it is done, and each is one less. */
  lemma CommandsRunOut(s: State, op: Op)
    requires Enabled(s, op) && s.procs[op.p].at != Scan && (s.procs[op.p].at.Claim? ==> s.procs[op.p].at.rest != [])
    ensures op.p in Step(s, op).procs && Step(s, op).procs[op.p].at != Scan
    ensures Left(Step(s, op).procs[op.p].at) < Left(s.procs[op.p].at)
    ensures Step(s, op).procs[op.p].at.Claim? ==> Step(s, op).procs[op.p].at.rest != []
  {
  }

  lemma {:induction false} AnyOrder(windows: set<Window>) returns (order: seq<Window>)
    ensures forall w :: w in order <==> w in windows
    ensures forall i, j :: 0 <= i < j < |order| ==> order[i] != order[j]
    decreases |windows|
  {
    if windows == {} {
      order := [];
    } else {
      var w :| w in windows;
      order := AnyOrder(windows - {w});
      order := [w] + order;
    }
  }

  /** A process that is not done can always go on, whatever the others have done. */
  lemma NotDoneCanGoOn(s: State, p: ProcId) returns (op: Op)
    requires p in s.procs && s.procs[p].at != Done
    ensures op.p == p && Enabled(s, op)
  {
    var windows := set w | w in s.counters && Stale(s.counters, s.procs[p], w);
    var order := AnyOrder(windows);
    op := Op(p, order);
  }

  // ----- expired counters stay where they are -----

  /** Counter `w` is as it was, and no process has it on its list or in its hands. */
  ghost predicate Spared(first: State, s: State, w: Window) {
    && w in first.counters && w in s.counters && s.counters[w] == first.counters[w]
    && s.procs.Keys == first.procs.Keys
    && (forall p :: p in s.procs ==> s.procs[p].now == first.procs[p].now && w !in Rest(s.procs[p].at))
  }

  lemma MoveSpares(first: State, s: State, s': State, p: ProcId, w: Window)
    requires Spared(first, s, w) && p in s.procs && p in s'.procs
    requires s'.procs == s.procs[p := s.procs[p].(at := s'.procs[p].at)] && w !in Rest(s'.procs[p].at)
    requires w in s'.counters && s'.counters[w] == s.counters[w]
    ensures Spared(first, s', w)
  {
  }

  lemma ExpiredIsNotListed(s: State, op: Op, w: Window)
    requires Enabled(s, op) && w in s.counters && s.counters[w].resetAt <= s.procs[op.p].now
    requires w !in Rest(s.procs[op.p].at)
    ensures op.p in Step(s, op).procs && w !in Rest(Step(s, op).procs[op.p].at)
  {
    assert !Stale(s.counters, s.procs[op.p], w);
  }

  lemma UnlistedStays(s: State, op: Op, w: Window)
    requires Enabled(s, op) && w in s.counters && w != s.procs[op.p].target && w !in Rest(s.procs[op.p].at)
    ensures w in Step(s, op).counters && Step(s, op).counters[w] == s.counters[w]
  {
  }

  lemma SparedStep(first: State, s: State, op: Op, target: Window, w: Window)
    requires Spared(first, s, w) && Common(s, target) && Enabled(s, op) && w != target
    requires first.counters[w].resetAt <= first.procs[op.p].now
    ensures Spared(first, Step(s, op), w)
  {
    ExpiredIsNotListed(s, op, w);
    UnlistedStays(s, op, w);
    MoveSpares(first, s, Step(s, op), op.p, w);
  }

  lemma {:induction false} SparedHolds(st: seq<State>, ops: seq<Op>, target: Window, k: nat, w: Window)
    requires Run(st, ops) && k <= |ops| && Common(st[0], target) && w != target && w in st[0].counters
    requires forall p :: p in st[0].procs ==> st[0].counters[w].resetAt <= st[0].procs[p].now
    ensures Spared(st[0], st[k], w)
  {
    if k == 0 {
    } else {
      SparedHolds(st, ops, target, k - 1, w);
      ShapeHolds(st, ops, target, k - 1);
      assert Enabled(st[k - 1], ops[k - 1]);
      SparedStep(st[0], st[k - 1], ops[k - 1], target, w);
    }
  }

  /**
   * A counter that had expired for every migration is left alone by all of them: at no point
   * of any interleaving has it, or any reservation of its window, changed.
   */
  lemma ExpiredCountersStay(st: seq<State>, ops: seq<Op>, target: Window, k: nat, w: Window)
    requires Run(st, ops) && k <= |ops| && Common(st[0], target) && w != target && w in st[0].counters
    requires forall p :: p in st[0].procs ==> st[0].counters[w].resetAt <= st[0].procs[p].now
    ensures w in st[k].counters && st[k].counters[w] == st[0].counters[w]
    ensures forall id :: id in st[0].docs && st[0].docs[id].window == w ==>
              id in st[k].docs && st[k].docs[id] == st[0].docs[id]
  {
    SparedHolds(st, ops, target, k, w);
    FollowedHolds(st, ops, target, k);
  }

  /** The unique index on window and idempotency key. */
  ghost predicate IndexHolds(docs: map<Id, Doc>) {
    forall a, b ::
      a in docs && b in docs && a != b && docs[a].idempotencyKey.Some? && docs[a].window == docs[b].window ==>
      docs[a].idempotencyKey != docs[b].idempotencyKey
  }

  ghost predicate NoSharedKeys(docs: map<Id, Doc>) {
    forall a, b :: a in docs && b in docs && docs[a].window != docs[b].window && docs[a].idempotencyKey.Some? ==>
      docs[a].idempotencyKey != docs[b].idempotencyKey
  }

  /** Without a key shared between windows, no redirection ever breaks the unique index. */
  lemma IndexIsNeverBroken(st: seq<State>, ops: seq<Op>, target: Window, k: nat)
    requires Run(st, ops) && k <= |ops| && Common(st[0], target)
    requires IndexHolds(st[0].docs) && NoSharedKeys(st[0].docs)
    ensures IndexHolds(st[k].docs)
  {
    FollowedHolds(st, ops, target, k);
  }

  // ----- the ledger -----

  /** What the documents of window `w` stand for. */
  function LiveAt(w: Window): (Id, Doc) -> int {
    (id: Id, d: Doc) => if d.window == w && d.status != Refunded then d.cost else 0
  }

  ghost function LiveIn(docs: map<Id, Doc>, w: Window): int { Total(docs, LiveAt(w)) }

  /** Usage already added to the target whose documents still point elsewhere. */
  function Behind(): (ProcId, Proc) -> int { (p: ProcId, q: Proc) => if q.at.Repoint? then q.at.used else 0 }

  ghost predicate Settled(s: State, target: Window, w: Window) {
    w != target && !Moving(s, w) ==> UsedOf(s.counters, w) == LiveIn(s.docs, w)
  }

  ghost predicate Ledger(s: State, target: Window) {
    && (forall w :: Settled(s, target, w))
    && (forall p :: p in s.procs && Pending(s.procs[p]) ==> s.procs[p].at.used == LiveIn(s.docs, s.procs[p].at.from))
    && UsedOf(s.counters, target) == LiveIn(s.docs, target) + Total(s.procs, Behind())
  }

  function Either(v: Window, w: Window): (Id, Doc) -> int {
    (id: Id, d: Doc) => LiveAt(v)(id, d) + LiveAt(w)(id, d)
  }

  lemma RedirectMoves(docs: map<Id, Doc>, from: Window, to: Window, w: Window)
    requires from != to
    ensures LiveIn(Redirected(docs, from, to), w)
         == if w == from then 0 else if w == to then LiveIn(docs, to) + LiveIn(docs, from) else LiveIn(docs, w)
  {
    var moved := Redirected(docs, from, to);
    if w == from {
      TotalDrop(moved, moved.Keys, LiveAt(w));
      assert moved - moved.Keys == map[];
    } else if w == to {
      TotalSplit(docs, Either(to, from), LiveAt(to), LiveAt(from));
      TotalSame(moved, docs, LiveAt(to), Either(to, from));
    } else {
      TotalSame(moved, docs, LiveAt(w), LiveAt(w));
    }
  }

  lemma SettledStep(s: State, op: Op, target: Window, w: Window)
    requires Shape(s, target) && Ledger(s, target) && Enabled(s, op)
    ensures Settled(Step(s, op), target, w)
  {
    var at := s.procs[op.p].at;
    assert Settled(s, target, w);
    MovingStep(s, op, target, w);
    if at.Repoint? { RedirectMoves(s.docs, at.from, target, w); }
  }

  lemma HeldStep(s: State, op: Op, target: Window, p: ProcId)
    requires Shape(s, target) && Ledger(s, target) && Enabled(s, op) && p in s.procs
    ensures p in Step(s, op).procs
    ensures var at := Step(s, op).procs[p].at;
            at.Add? || at.Repoint? ==> at.used == LiveIn(Step(s, op).docs, at.from)
  {
    var at := s.procs[op.p].at;
    if at.Repoint? && p != op.p && Pending(s.procs[p]) {
      RedirectMoves(s.docs, at.from, target, s.procs[p].at.from);
    } else if at.Claim? && at.rest != [] {
      assert Settled(s, target, at.rest[0]);
    }
  }

  lemma LedgerStep(s: State, op: Op, target: Window)
    requires Shape(s, target) && Ledger(s, target) && Enabled(s, op)
    ensures Ledger(Step(s, op), target)
  {
    var s', p, at := Step(s, op), op.p, s.procs[op.p].at;
    forall w ensures Settled(s', target, w) { SettledStep(s, op, target, w); }
    forall q | q in s'.procs && Pending(s'.procs[q])
      ensures s'.procs[q].at.used == LiveIn(s'.docs, s'.procs[q].at.from)
    {
      HeldStep(s, op, target, q);
    }
    TotalUpdate(s.procs, p, s'.procs[p], Behind());
    if at.Repoint? { RedirectMoves(s.docs, at.from, target, target); }
  }

  lemma {:induction false} LedgerHolds(st: seq<State>, ops: seq<Op>, target: Window, k: nat)
    requires Run(st, ops) && k <= |ops| && Common(st[0], target)
    requires forall w :: UsedOf(st[0].counters, w) == LiveIn(st[0].docs, w)
    ensures Ledger(st[k], target)
  {
    if k > 0 {
      LedgerHolds(st, ops, target, k - 1);
      ShapeHolds(st, ops, target, k - 1);
      LedgerStep(st[k - 1], ops[k - 1], target);
    } else {
      TotalDrop(st[0].procs, st[0].procs.Keys, Behind());
      assert st[0].procs - st[0].procs.Keys == map[];
    }
  }

  /** If every counter agreed with its documents before, every counter agrees with them at rest. */
  lemma MigrationKeepsTheLedger(st: seq<State>, ops: seq<Op>, target: Window, w: Window)
    requires Run(st, ops) && Common(st[0], target) && AtRest(st[|ops|])
    requires forall w :: UsedOf(st[0].counters, w) == LiveIn(st[0].docs, w)
    ensures UsedOf(st[|ops|].counters, w) == LiveIn(st[|ops|].docs, w)
  {
    var s := st[|ops|];
    LedgerHolds(st, ops, target, |ops|);
    assert Settled(s, target, w);
    TotalDrop(s.procs, s.procs.Keys, Behind());
    assert s.procs - s.procs.Keys == map[];
  }
}
