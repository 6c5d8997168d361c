/** The sliding-window rate limiter: in memory with lazy eviction, in Redis with key expiry. */
module RateLimit {
  import opened Prelude

  datatype Config = Config(limit: int, window: Time, threshold: int)

  predicate Valid(c: Config) { c.limit > 0 && c.window > 0.0 && c.threshold > 0 }

  /** A key and the index of a window. */
  type Bucket = (string, int)

  type Buckets = map<Bucket, int>

  datatype Verdict = Verdict(allowed: bool, remaining: int)

  datatype Call = Call(key: string, at: Time)

  function Index(c: Config, now: Time): int
    requires Valid(c)
  {
    (now / c.window).Floor
  }

  function Start(c: Config, i: int): Time { i as real * c.window }

  function Elapsed(c: Config, now: Time): Time
    requires Valid(c)
  {
    now - Start(c, Index(c, now))
  }

  /** How much of the previous window still counts. */
  function Carried(c: Config, now: Time, previous: int): int
    requires Valid(c)
  {
    var weight := 1.0 - Elapsed(c, now) / c.window;
    (previous as real * if weight < 0.0 then 0.0 else weight).Floor
  }

  function Judge(c: Config, now: Time, current: int, previous: int): Verdict
    requires Valid(c)
  {
    var weighted := current + Carried(c, now, previous);
    if weighted >= c.limit then Verdict(false, 0) else Verdict(true, Max(c.limit - (weighted + 1), 0))
  }

  function Ceil(x: real): int { -((-x).Floor) }

  /** What is left of the window; both limiters tell a refused caller, one rounding down and one up. */
  function Remaining(c: Config, now: Time): Time
    requires Valid(c)
  {
    c.window - Elapsed(c, now)
  }

  function MemoryHint(c: Config, now: Time): int
    requires Valid(c)
  {
    Max(Remaining(c, now).Floor, 1)
  }

  function RedisHint(c: Config, now: Time): int
    requires Valid(c)
  {
    Max(Ceil(Remaining(c, now)), 1)
  }

  function Get(counts: Buckets, b: Bucket): int { if b in counts then counts[b] else 0 }

  function Look(c: Config, counts: Buckets, k: Call): Verdict
    requires Valid(c)
  {
    Judge(c, k.at, Get(counts, (k.key, Index(c, k.at))), Get(counts, (k.key, Index(c, k.at) - 1)))
  }

  function Next(c: Config, counts: Buckets, k: Call): Buckets
    requires Valid(c)
  {
    var b := (k.key, Index(c, k.at));
    if Look(c, counts, k).allowed then counts[b := Get(counts, b) + 1] else counts
  }

  function Older(counts: Buckets, index: int): set<Bucket> { set b | b in counts && b.1 < index - 1 }

  function Evicted(c: Config, counts: Buckets, index: int): Buckets {
    if |counts| < c.threshold then counts else counts - Older(counts, index)
  }

  // ----- in memory -----

  class InMemoryRateLimiter {
    const config: Config
    var counts: Buckets

    constructor (limit: int, window: Time, threshold: int)
      requires limit > 0 && window > 0.0 && threshold > 0
      ensures config == Config(limit, window, threshold) && counts == map[]
    {
      config := Config(limit, window, threshold);
      counts := map[];
    }

    method Check(key: string, now: Time) returns (verdict: Verdict, retryAfter: Option<int>)
      requires Valid(config)
      modifies this
      ensures var kept := Evicted(config, old(counts), Index(config, now));
              verdict == Look(config, kept, Call(key, now)) && counts == Next(config, kept, Call(key, now))
      ensures retryAfter == if verdict.allowed then None else Some(MemoryHint(config, now))
    {
      var index := (now / config.window).Floor;
      EvictIfNeeded(index);
      var current := if (key, index) in counts then counts[(key, index)] else 0;
      var previous := if (key, index - 1) in counts then counts[(key, index - 1)] else 0;
      var weighted := current + Carried(config, now, previous);
      if weighted >= config.limit {
        var elapsed := now - Start(config, index);
        return Verdict(false, 0), Some(Max((config.window - elapsed).Floor, 1));
      }
      counts := counts[(key, index) := current + 1];
      verdict := Verdict(true, Max(config.limit - (current + 1 + Carried(config, now, previous)), 0));
      retryAfter := None;
    }

    method EvictIfNeeded(index: int)
      modifies this
      ensures counts == Evicted(config, old(counts), index)
    {
      if |counts| < config.threshold { return; }
      var expired := set b | b in counts && b.1 < index - 1;
      var left := expired;
      while left != {}
        invariant left <= expired && counts == old(counts) - (expired - left)
      {
        var b :| b in left;
        counts := counts - {b};
        left := left - {b};
      }
    }
  }

  /** Below the threshold nothing goes; from it on exactly the buckets older than the previous window. */
  lemma EvictionTakesTheOld(c: Config, counts: Buckets, index: int, b: Bucket)
    ensures b in Evicted(c, counts, index) <==> b in counts && (|counts| < c.threshold || b.1 >= index - 1)
    ensures b in Evicted(c, counts, index) ==> Evicted(c, counts, index)[b] == counts[b]
  {
  }

  // ----- in Redis -----

  datatype Entry = Entry(count: int, expireAt: Time)

  type Keys = map<Bucket, Entry>

  /** A read of a key; one whose time has come reads as absent. */
  function Read(keys: Keys, b: Bucket, now: Time): int {
    if b in keys && now < keys[b].expireAt then keys[b].count else 0
  }

  function Incremented(c: Config, keys: Keys, b: Bucket, now: Time): Keys {
    var n := Read(keys, b, now) + 1;
    keys[b := Entry(n, if n == 1 then now + 2.0 * c.window else keys[b].expireAt)]
  }

  function RedisLook(c: Config, keys: Keys, k: Call): Verdict
    requires Valid(c)
  {
    Judge(c, k.at, Read(keys, (k.key, Index(c, k.at)), k.at), Read(keys, (k.key, Index(c, k.at) - 1), k.at))
  }

  function RedisNext(c: Config, keys: Keys, k: Call): Keys
    requires Valid(c)
  {
    if RedisLook(c, keys, k).allowed then Incremented(c, keys, (k.key, Index(c, k.at)), k.at) else keys
  }

  /** A key's end is set by its first increment and not moved by later ones; no other key is touched. */
  lemma FirstIncrementSetsTheEnd(c: Config, keys: Keys, b: Bucket, now: Time)
    requires Read(keys, b, now) >= 0
    ensures var keys' := Incremented(c, keys, b, now);
            && b in keys' && keys'[b].count == Read(keys, b, now) + 1
            && keys'[b].expireAt == (if Read(keys, b, now) == 0 then now + 2.0 * c.window else keys[b].expireAt)
            && forall x :: x != b ==> (x in keys' <==> x in keys) && (x in keys ==> keys'[x] == keys[x])
  {
  }

  class RedisRateLimiter {
    const config: Config
    var keys: Keys

    constructor (limit: int, window: Time)
      requires limit > 0 && window > 0.0
      ensures config.limit == limit && config.window == window && Valid(config) && keys == map[]
    {
      config := Config(limit, window, 1);
      keys := map[];
    }

    method Increment(b: Bucket, now: Time) returns (n: int)
      modifies this
      ensures n == Read(old(keys), b, now) + 1
      ensures b in keys && keys == old(keys)[b := Entry(n, keys[b].expireAt)]
      ensures b in old(keys) && now < old(keys)[b].expireAt ==> keys[b].expireAt == old(keys)[b].expireAt
    {
      n := Read(keys, b, now) + 1;
      keys := keys[b := Entry(n, if b in keys then keys[b].expireAt else now)];
    }

    /** The script and the result built from what it returns. */
    method Check(key: string, now: Time) returns (verdict: Verdict, retryAfter: Option<int>)
      requires Valid(config)
      modifies this
      ensures verdict == RedisLook(config, old(keys), Call(key, now))
      ensures keys == RedisNext(config, old(keys), Call(key, now))
      ensures retryAfter == if verdict.allowed then None else Some(RedisHint(config, now))
    {
      var index := (now / config.window).Floor;
      var current := Read(keys, (key, index), now);
      var previous := Read(keys, (key, index - 1), now);
      var weighted := current + Carried(config, now, previous);
      if weighted >= config.limit {
        var elapsed := now - Start(config, index);
        return Verdict(false, 0), Some(Max(Ceil(config.window - elapsed), 1));
      }
      var n := Increment((key, index), now);
      if n == 1 {
        keys := keys[(key, index) := keys[(key, index)].(expireAt := now + 2.0 * config.window)];
      }
      verdict := Verdict(true, Max(config.limit - (n + Carried(config, now, previous)), 0));
      retryAfter := None;
    }
  }

  /**
   * Waiting as long as the Redis limiter says always reaches the next window, and a second
   * less never does. The in-memory hint is at most one second less, and reaches it exactly
   * when the rest of the window is a whole number of seconds or at most one second.
   */
  lemma HintsReachTheNextWindow(c: Config, now: Time)
    requires Valid(c)
    ensures now + RedisHint(c, now) as real >= Start(c, Index(c, now) + 1)
    ensures now + (RedisHint(c, now) - 1) as real < Start(c, Index(c, now) + 1)
    ensures MemoryHint(c, now) <= RedisHint(c, now) <= MemoryHint(c, now) + 1
    ensures now + MemoryHint(c, now) as real >= Start(c, Index(c, now) + 1) <==>
            Remaining(c, now).Floor as real == Remaining(c, now) || Remaining(c, now) <= 1.0
  {
    StartGrows(c, Index(c, now), Index(c, now));
    IndexOf(c, now);
    var h := RedisHint(c, now);
    assert (h - 1) as real == h as real - 1.0;
  }

  // ----- forgetting changes nothing -----

  /** The limiter that keeps every bucket forever. */
  function Verdicts(c: Config, counts: Buckets, checks: seq<Call>): seq<Verdict>
    requires Valid(c)
    decreases |checks|
  {
    if checks == [] then [] else [Look(c, counts, checks[0])] + Verdicts(c, Next(c, counts, checks[0]), checks[1..])
  }

  function MemoryVerdicts(c: Config, counts: Buckets, checks: seq<Call>): seq<Verdict>
    requires Valid(c)
    decreases |checks|
  {
    if checks == [] then []
    else
      var kept := Evicted(c, counts, Index(c, checks[0].at));
      [Look(c, kept, checks[0])] + MemoryVerdicts(c, Next(c, kept, checks[0]), checks[1..])
  }

  function RedisVerdicts(c: Config, keys: Keys, checks: seq<Call>): seq<Verdict>
    requires Valid(c)
    decreases |checks|
  {
    if checks == [] then []
    else [RedisLook(c, keys, checks[0])] + RedisVerdicts(c, RedisNext(c, keys, checks[0]), checks[1..])
  }

  ghost predicate Ordered(checks: seq<Call>) {
    forall i, j :: 0 <= i < j < |checks| ==> checks[i].at <= checks[j].at
  }

  lemma Times(a: real, b: real, w: real)
    requires w > 0.0
    ensures a <= b <==> a * w <= b * w
    ensures a < b <==> a * w < b * w
  {
  }

  /** Comparing a scaled fraction `l * (e / w)` with a number is comparing `l * e` with its multiple of `w`. */
  lemma Ratio(l: real, e: real, w: real, m: real)
    requires w > 0.0
    ensures l * (e / w) <= m <==> l * e <= m * w
    ensures l * (e / w) < m <==> l * e < m * w
  {
    var x := e / w;
    assert x * w == e;
    assert l * x * w == l * (x * w);
    Times(l * x, m, w);
  }

  lemma Fraction(e: real, w: real)
    requires 0.0 <= e < w
    ensures 0.0 <= e / w < 1.0
  {
    Times(0.0, e / w, w);
    Times(e / w, 1.0, w);
  }

  lemma Complement(p: real, x: real)
    ensures p * (1.0 - x) == p - p * x
  {
  }

  lemma Scales(p: real, q: real, x: real, y: real)
    requires 0.0 <= p <= q && 0.0 <= x <= y
    ensures 0.0 <= p * x <= q * y
  {
    assert 0.0 <= p * x <= q * x;
    assert q * x <= q * y;
  }

  lemma StartGrows(c: Config, i: int, j: int)
    requires Valid(c) && i <= j
    ensures Start(c, i) <= Start(c, j) && Start(c, i + 1) == Start(c, i) + c.window
  {
    Times(i as real, j as real, c.window);
    assert (i + 1) as real == i as real + 1.0;
    Complement(c.window, -(i as real));
  }

  lemma Quotient(a: real, w: real)
    requires w > 0.0
    ensures a / w * w == a
  {
  }

  lemma AtLeastMultiple(a: real, w: real, i: int)
    requires w > 0.0 && i as real <= a / w
    ensures i as real * w <= a
  {
    Quotient(a, w);
    Times(i as real, a / w, w);
  }

  lemma BelowMultiple(a: real, w: real, i: int)
    requires w > 0.0 && a / w < i as real
    ensures a < i as real * w
  {
    Quotient(a, w);
    Times(a / w, i as real, w);
  }

  lemma IndexOf(c: Config, now: Time)
    requires Valid(c)
    ensures Start(c, Index(c, now)) <= now < Start(c, Index(c, now) + 1)
    ensures 0.0 <= Elapsed(c, now) < c.window
  {
    var i := Index(c, now);
    assert i as real <= now / c.window < (i + 1) as real;
    AtLeastMultiple(now, c.window, i);
    BelowMultiple(now, c.window, i + 1);
    StartGrows(c, i, i);
  }

  lemma IndexGrows(c: Config, a: Time, b: Time)
    requires Valid(c) && a <= b
    ensures Index(c, a) <= Index(c, b)
  {
    Times(a / c.window, b / c.window, c.window);
  }

  /** Eviction has dropped no bucket of window `index - 1` or later. */
  ghost predicate Recent(mem: Buckets, all: Buckets, index: int) {
    forall b: Bucket :: b.1 >= index - 1 ==> Get(mem, b) == Get(all, b)
  }

  lemma {:induction false} EvictionChangesNothing(c: Config, mem: Buckets, all: Buckets, checks: seq<Call>)
    requires Valid(c) && Ordered(checks)
    requires checks != [] ==> Recent(mem, all, Index(c, checks[0].at))
    ensures MemoryVerdicts(c, mem, checks) == Verdicts(c, all, checks)
    decreases |checks|
  {
    if checks == [] {
    } else {
      var k, rest := checks[0], checks[1..];
      var index := Index(c, k.at);
      var kept := Evicted(c, mem, index);
      assert Recent(kept, all, index);
      assert Get(kept, (k.key, index)) == Get(all, (k.key, index));
      assert Get(kept, (k.key, index - 1)) == Get(all, (k.key, index - 1));
      if rest != [] {
        IndexGrows(c, k.at, rest[0].at);
        assert Recent(Next(c, kept, k), Next(c, all, k), Index(c, rest[0].at));
      }
      EvictionChangesNothing(c, Next(c, kept, k), Next(c, all, k), rest);
    }
  }

  /** Every key holds its bucket's count and outlives the next window. */
  ghost predicate Mirrors(c: Config, keys: Keys, all: Buckets) {
    && keys.Keys == all.Keys
    && forall b :: b in keys ==> keys[b].count == all[b] > 0 && keys[b].expireAt >= Start(c, b.1 + 2)
  }

  lemma ReadsTheSame(c: Config, keys: Keys, all: Buckets, b: Bucket, now: Time)
    requires Valid(c) && Mirrors(c, keys, all) && b.1 >= Index(c, now) - 1
    ensures Read(keys, b, now) == Get(all, b) && (b in keys ==> now < keys[b].expireAt)
  {
    IndexOf(c, now);
    StartGrows(c, Index(c, now) + 1, b.1 + 2);
  }

  lemma {:induction false} ExpiryChangesNothing(c: Config, keys: Keys, all: Buckets, checks: seq<Call>)
    requires Valid(c) && Mirrors(c, keys, all)
    ensures RedisVerdicts(c, keys, checks) == Verdicts(c, all, checks)
    decreases |checks|
  {
    if checks == [] {
    } else {
      var k := checks[0];
      var index := Index(c, k.at);
      ReadsTheSame(c, keys, all, (k.key, index), k.at);
      ReadsTheSame(c, keys, all, (k.key, index - 1), k.at);
      IndexOf(c, k.at);
      StartGrows(c, index, index + 1);
      StartGrows(c, index + 1, index + 1);
      assert Mirrors(c, RedisNext(c, keys, k), Next(c, all, k));
      ExpiryChangesNothing(c, RedisNext(c, keys, k), Next(c, all, k), checks[1..]);
    }
  }

  /** Check by check, all three limiters allow the same and leave the same. */
  lemma LimitersAgree(c: Config, checks: seq<Call>)
    requires Valid(c) && Ordered(checks)
    ensures MemoryVerdicts(c, map[], checks) == RedisVerdicts(c, map[], checks) == Verdicts(c, map[], checks)
  {
    EvictionChangesNothing(c, map[], map[], checks);
    ExpiryChangesNothing(c, map[], map[], checks);
  }

  // ----- the bound at a window boundary -----

  /** The part of `previous` admissions that has slid out after `e` seconds, rounded up. */
  function Slid(c: Config, previous: int, e: Time): int
    requires Valid(c)
  {
    Ceil(previous as real * (e / c.window))
  }

  lemma CarriedIsTheRest(c: Config, now: Time, previous: int)
    requires Valid(c) && previous >= 0
    ensures Carried(c, now, previous) == previous - Slid(c, previous, Elapsed(c, now))
  {
    IndexOf(c, now);
    var x := Elapsed(c, now) / c.window;
    Fraction(Elapsed(c, now), c.window);
    Complement(previous as real, x);
  }

  lemma SlidGrows(c: Config, p: int, q: int, d: Time, e: Time)
    requires Valid(c) && 0 <= p <= q && 0.0 <= d <= e
    ensures 0 <= Slid(c, p, d) <= Slid(c, q, e)
  {
    var x, y := d / c.window, e / c.window;
    Times(0.0, x, c.window);
    Times(x, y, c.window);
    Scales(p as real, q as real, x, y);
  }

  /** The call falls into window `i`, at most `e` seconds after its start. */
  predicate Within(c: Config, k: Call, key: string, i: int, e: Time)
    requires Valid(c)
  {
    k.key == key && Index(c, k.at) == i && Elapsed(c, k.at) <= e
  }

  /** How many calls of a key were admitted in the first `e` seconds of window `i`. */
  function Admitted(c: Config, checks: seq<Call>, verdicts: seq<Verdict>, key: string, i: int, e: Time): (n: int)
    requires Valid(c) && |checks| == |verdicts|
    ensures 0 <= n <= |checks|
    decreases |checks|
  {
    if checks == [] then 0
    else (if verdicts[0].allowed && Within(c, checks[0], key, i, e) then 1 else 0)
         + Admitted(c, checks[1..], verdicts[1..], key, i, e)
  }

  lemma {:induction false} OnePerCheck(c: Config, counts: Buckets, checks: seq<Call>)
    requires Valid(c)
    ensures |Verdicts(c, counts, checks)| == |checks|
    decreases |checks|
  {
    if checks == [] {
    } else {
      OnePerCheck(c, Next(c, counts, checks[0]), checks[1..]);
    }
  }

  ghost predicate Counting(counts: Buckets) { forall b :: b in counts ==> counts[b] > 0 }

  /** What is left of the run adds to what the buckets hold. */
  lemma {:induction false} WindowIsBounded(c: Config, counts: Buckets, checks: seq<Call>, key: string, i: int)
    requires Valid(c) && Counting(counts) && Get(counts, (key, i)) <= c.limit
    requires |Verdicts(c, counts, checks)| == |checks|
    ensures Get(counts, (key, i)) + Admitted(c, checks, Verdicts(c, counts, checks), key, i, c.window) <= c.limit
    decreases |checks|
  {
    if checks == [] {
    } else {
      var k := checks[0];
      var index := Index(c, k.at);
      IndexOf(c, k.at);
      CarriedIsPositive(c, k.at, Get(counts, (k.key, index - 1)));
      OnePerCheck(c, Next(c, counts, k), checks[1..]);
      assert Verdicts(c, counts, checks)[1..] == Verdicts(c, Next(c, counts, k), checks[1..]);
      WindowIsBounded(c, Next(c, counts, k), checks[1..], key, i);
    }
  }

  lemma CarriedIsPositive(c: Config, now: Time, previous: int)
    requires Valid(c) && previous >= 0
    ensures 0 <= Carried(c, now, previous)
  {
    IndexOf(c, now);
    Fraction(Elapsed(c, now), c.window);
    var x := Elapsed(c, now) / c.window;
    Scales(0.0, previous as real, 0.0, 1.0 - x);
  }

  /** After `n` early admissions in window `i + 1`, on top of the `p` that window `i` holds. */
  ghost predicate Early(c: Config, counts: Buckets, checks: seq<Call>, key: string, i: int, e: Time, n: int)
    requires Valid(c)
  {
    var p := Get(counts, (key, i));
    && 0 <= n <= Get(counts, (key, i + 1)) && p <= c.limit && p + n <= c.limit + Slid(c, p, e)
    && (n > 0 && checks != [] ==> Index(c, checks[0].at) > i)
  }

  lemma EarlyStep(c: Config, counts: Buckets, checks: seq<Call>, key: string, i: int, e: Time, n: int)
    requires Valid(c) && Ordered(checks) && checks != [] && Counting(counts) && 0.0 <= e
    requires Early(c, counts, checks, key, i, e, n)
    ensures Counting(Next(c, counts, checks[0]))
    ensures var more := if Look(c, counts, checks[0]).allowed && Within(c, checks[0], key, i + 1, e) then 1 else 0;
            Early(c, Next(c, counts, checks[0]), checks[1..], key, i, e, n + more)
  {
    var k := checks[0];
    var p := Get(counts, (key, i));
    if |checks| > 1 { IndexGrows(c, k.at, checks[1].at); }
    CarriedIsPositive(c, k.at, Get(counts, (k.key, Index(c, k.at) - 1)));
    if k.key == key && Index(c, k.at) == i {
      SlidGrows(c, p, p + 1, e, e);
    } else if Within(c, k, key, i + 1, e) {
      IndexOf(c, k.at);
      CarriedIsTheRest(c, k.at, p);
      SlidGrows(c, p, p, Elapsed(c, k.at), e);
    }
  }

  lemma {:induction false} BoundaryFrom(
    c: Config, counts: Buckets, checks: seq<Call>, key: string, i: int, e: Time, n: int)
    requires Valid(c) && Ordered(checks) && Counting(counts) && 0.0 <= e && Early(c, counts, checks, key, i, e, n)
    requires |Verdicts(c, counts, checks)| == |checks|
    ensures var v := Verdicts(c, counts, checks);
            var p := Get(counts, (key, i)) + Admitted(c, checks, v, key, i, c.window);
            p + n + Admitted(c, checks, v, key, i + 1, e) <= c.limit + Slid(c, p, e)
    decreases |checks|
  {
    if checks == [] {
    } else {
      var k := checks[0];
      IndexOf(c, k.at);
      EarlyStep(c, counts, checks, key, i, e, n);
      OnePerCheck(c, Next(c, counts, k), checks[1..]);
      assert Verdicts(c, counts, checks)[1..] == Verdicts(c, Next(c, counts, k), checks[1..]);
      var more := if Look(c, counts, k).allowed && Within(c, k, key, i + 1, e) then 1 else 0;
      BoundaryFrom(c, Next(c, counts, k), checks[1..], key, i, e, n + more);
    }
  }

  /**
   * The admissions of one key in a window plus those in the first `e` seconds of the next are
   * at most the limit plus the part of the earlier window that has slid out, rounded up.
   */
  lemma BoundaryIsBounded(c: Config, checks: seq<Call>, key: string, i: int, e: Time)
    requires Valid(c) && Ordered(checks) && 0.0 <= e
    ensures |MemoryVerdicts(c, map[], checks)| == |checks|
    ensures var v := MemoryVerdicts(c, map[], checks);
            var previous := Admitted(c, checks, v, key, i, c.window);
            && previous <= c.limit
            && previous + Admitted(c, checks, v, key, i + 1, e) <= c.limit + Slid(c, previous, e)
  {
    LimitersAgree(c, checks);
    OnePerCheck(c, map[], checks);
    WindowIsBounded(c, map[], checks, key, i);
    SlidGrows(c, 0, 0, 0.0, e);
    BoundaryFrom(c, map[], checks, key, i, e, 0);
  }

  // ----- the remaining count is exact -----

  /** `n` checks of one key at one time. */
  function Repeated(k: Call, n: nat): (r: seq<Call>)
    ensures |r| == n && forall i :: 0 <= i < n ==> r[i] == k
  {
    if n == 0 then [] else [k] + Repeated(k, n - 1)
  }

  /** What a key may still use at a time, by the window's count and the share carried over. */
  function Room(c: Config, counts: Buckets, k: Call): int
    requires Valid(c)
  {
    var index := Index(c, k.at);
    c.limit - Get(counts, (k.key, index)) - Carried(c, k.at, Get(counts, (k.key, index - 1)))
  }

  lemma {:induction false} RoomIsUsedUp(c: Config, counts: Buckets, k: Call, n: nat)
    requires Valid(c)
    ensures var v := Verdicts(c, counts, Repeated(k, n));
            |v| == n && forall i :: 0 <= i < n ==> (v[i].allowed <==> i < Room(c, counts, k))
    decreases n
  {
    if n == 0 {
    } else {
      var rest := Next(c, counts, k);
      RoomIsUsedUp(c, rest, k, n - 1);
      assert Repeated(k, n)[1..] == Repeated(k, n - 1);
      assert Room(c, rest, k) == if Room(c, counts, k) > 0 then Room(c, counts, k) - 1 else Room(c, counts, k);
    }
  }

  /**
   * The remaining count is a promise that is kept exactly: right after a check that leaves
   * `r`, `r` further checks of the key at the same time are allowed and every later one is not.
   */
  lemma RemainingIsExact(c: Config, counts: Buckets, k: Call, n: nat)
    requires Valid(c)
    ensures var r, v := Look(c, counts, k).remaining, Verdicts(c, Next(c, counts, k), Repeated(k, n));
            && r >= 0 && |v| == n && forall i :: 0 <= i < n ==> (v[i].allowed <==> i < r)
  {
    RoomIsUsedUp(c, Next(c, counts, k), k, n);
  }

  // ----- twice the limit -----

  lemma NotAllSlid(c: Config, e: Time)
    requires Valid(c) && c.limit as real * e <= (c.limit - 1) as real * c.window
    ensures Slid(c, c.limit, e) < c.limit
  {
    Ratio(c.limit as real, e, c.window, (c.limit - 1) as real);
  }

  /** As long as less than the last admission has slid out, the two windows stay below twice the limit. */
  lemma BelowTwiceTheLimit(c: Config, checks: seq<Call>, key: string, i: int, e: Time)
    requires Valid(c) && Ordered(checks) && 0.0 <= e && c.limit as real * e <= (c.limit - 1) as real * c.window
    ensures var v := MemoryVerdicts(c, map[], checks);
            && |v| == |checks|
            && Admitted(c, checks, v, key, i, c.window) + Admitted(c, checks, v, key, i + 1, e) < 2 * c.limit
  {
    BoundaryIsBounded(c, checks, key, i, e);
    var previous := Admitted(c, checks, MemoryVerdicts(c, map[], checks), key, i, c.window);
    SlidGrows(c, previous, c.limit, e, e);
    NotAllSlid(c, e);
  }

  /** `m` calls at time `s`, then `n` at time `t`. */
  function Burst(key: string, s: Time, m: nat, t: Time, n: nat): (r: seq<Call>)
    ensures |r| == m + n && forall i :: 0 <= i < m + n ==> r[i] == Call(key, if i < m then s else t)
    decreases m + n
  {
    if m > 0 then [Call(key, s)] + Burst(key, s, m - 1, t, n)
    else if n > 0 then [Call(key, t)] + Burst(key, s, m, t, n - 1)
    else []
  }

  lemma NothingCarried(c: Config, now: Time)
    requires Valid(c)
    ensures Carried(c, now, 0) == 0
  {
    CarriedIsTheRest(c, now, 0);
  }

  lemma {:induction false} BurstIsAdmitted(
    c: Config, counts: Buckets, key: string, i: int, s: Time, m: nat, t: Time, n: nat)
    requires Valid(c) && Index(c, s) == i && Index(c, t) == i + 1
    requires m <= c.limit && n <= c.limit && (m > 0 ==> n == c.limit)
    requires Get(counts, (key, i - 1)) == 0
    requires Get(counts, (key, i)) == c.limit - m && Get(counts, (key, i + 1)) == c.limit - n
    requires Carried(c, t, c.limit) == 0
    ensures var v := Verdicts(c, counts, Burst(key, s, m, t, n));
            |v| == m + n && forall j :: 0 <= j < m + n ==> v[j].allowed
    decreases m + n
  {
    var checks := Burst(key, s, m, t, n);
    NothingCarried(c, s);
    if m > 0 {
      assert checks[1..] == Burst(key, s, m - 1, t, n);
      BurstIsAdmitted(c, Next(c, counts, checks[0]), key, i, s, m - 1, t, n);
    } else if n > 0 {
      assert checks[1..] == Burst(key, s, m, t, n - 1);
      BurstIsAdmitted(c, Next(c, counts, checks[0]), key, i, s, m, t, n - 1);
    }
  }

  lemma {:induction false} BurstIsCounted(
    c: Config, key: string, i: int, s: Time, m: nat, t: Time, n: nat, v: seq<Verdict>)
    requires Valid(c) && Index(c, s) == i && Index(c, t) == i + 1
    requires |v| == m + n && forall j :: 0 <= j < m + n ==> v[j].allowed
    ensures Admitted(c, Burst(key, s, m, t, n), v, key, i, c.window) == m
    ensures Admitted(c, Burst(key, s, m, t, n), v, key, i + 1, Elapsed(c, t)) == n
    decreases m + n
  {
    var checks := Burst(key, s, m, t, n);
    IndexOf(c, s);
    if m > 0 {
      assert checks[1..] == Burst(key, s, m - 1, t, n);
      BurstIsCounted(c, key, i, s, m - 1, t, n, v[1..]);
    } else if n > 0 {
      assert checks[1..] == Burst(key, s, m, t, n - 1);
      BurstIsCounted(c, key, i, s, m, t, n - 1, v[1..]);
    }
  }

  /** Close enough to its end, a window carries nothing of a full one before it. */
  lemma AllSlid(c: Config, e: Time)
    requires Valid(c) && 0.0 <= e < c.window && c.limit as real * e > (c.limit - 1) as real * c.window
    ensures Slid(c, c.limit, e) == c.limit
  {
    Ratio(c.limit as real, e, c.window, (c.limit - 1) as real);
    Fraction(e, c.window);
    Scales(c.limit as real, c.limit as real, e / c.window, 1.0);
  }

  /** A time `e` seconds into window `i`. */
  lemma Into(c: Config, i: int, e: Time)
    requires Valid(c) && 0.0 <= e < c.window
    ensures Index(c, Start(c, i) + e) == i && Elapsed(c, Start(c, i) + e) == e
  {
    var k := Index(c, Start(c, i) + e);
    IndexOf(c, Start(c, i) + e);
    StartGrows(c, i, i);
    if k < i { StartGrows(c, k + 1, i); }
    if k > i { StartGrows(c, i + 1, k); }
  }

  /**
   * Past that point twice the limit is reached, by two bursts less than one window apart:
   * the bound is sharp, and the limiter does not keep every span of one window below it.
   */
  lemma TwiceTheLimitIsReached(c: Config, key: string, e: Time) returns (checks: seq<Call>)
    requires Valid(c) && 0.0 <= e < c.window && c.limit as real * e > (c.limit - 1) as real * c.window
    ensures Ordered(checks) && |checks| == 2 * c.limit && checks[2 * c.limit - 1].at - checks[0].at < c.window
    ensures var v := MemoryVerdicts(c, map[], checks);
            && |v| == |checks| && (forall j :: 0 <= j < |v| ==> v[j].allowed)
            && Admitted(c, checks, v, key, 0, c.window) + Admitted(c, checks, v, key, 1, e) == 2 * c.limit
  {
    var s, t := Start(c, 0) + (e + c.window) / 2.0, Start(c, 1) + e;
    Into(c, 0, (e + c.window) / 2.0);
    Into(c, 1, e);
    CarriedIsTheRest(c, s, 0);
    CarriedIsTheRest(c, t, c.limit);
    AllSlid(c, e);
    checks := Burst(key, s, c.limit, t, c.limit);
    BurstIsAdmitted(c, map[], key, 0, s, c.limit, t, c.limit);
    LimitersAgree(c, checks);
    BurstIsCounted(c, key, 0, s, c.limit, t, c.limit, MemoryVerdicts(c, map[], checks));
  }
}
