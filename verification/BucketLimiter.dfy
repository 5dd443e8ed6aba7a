/**
 The bucket limiter: one counter per fixed bucket of `window` milliseconds, each a Redis key with an
 expiry, and a weighted look at a "previous" bucket. As coded, the previous key is the one `window`
 buckets back, not the one before.
 */
module BucketLimiter {
  import opened Options

  type Period = w: int | w >= 1 witness 1

  datatype Config = Config(tokens: int, window: Period)

  datatype Counter = Counter(value: nat, expireAt: int)

  /** The counters of one identifier by bucket number. */
  type Store = map<int, Counter>

  datatype Call = Check(now: int) | Limit(now: int)

  datatype Response = Response(success: bool, limit: int, remaining: int, resetMs: int, windowMs: int)

  // ---------------------------------------------------------------- the scripts and their wrappers

  function Max(a: int, b: int): int { if a < b then b else a }

  function Min(a: int, b: int): int { if a < b then a else b }

  /** The number of the bucket a timestamp falls into. */
  function Bucket(cfg: Config, now: int): (b: int)
    ensures b * cfg.window <= now < (b + 1) * cfg.window
  {
    now / cfg.window
  }

  /** GET: a counter whose expiry has passed is gone. */
  function Get(store: Store, bucket: int, now: int): Option<nat> {
    if bucket in store && now <= store[bucket].expireAt then Some(store[bucket].value) else None
  }

  function OrElse(count: Option<nat>, default: int): int {
    match count
    case None => default
    case Some(n) => n
  }

  /** The share of the previous bucket that still counts at `now`. */
  function Weight(cfg: Config, now: int): real {
    1.0 - (now % cfg.window) as real / cfg.window as real
  }

  /** The scripts' refusal test. A missing current counter enters it as -1. */
  function Blocked(cfg: Config, current: Option<nat>, previous: Option<nat>, now: int): bool {
    OrElse(previous, 0) as real * Weight(cfg, now) + OrElse(current, -1) as real >= cfg.tokens as real
  }

  function BlockedIn(cfg: Config, store: Store, now: int): bool {
    var current := Bucket(cfg, now);
    Blocked(cfg, Get(store, current, now), Get(store, current - cfg.window, now), now)
  }

  /** INCR, with PEXPIRE on the first increment only. */
  function Increment(cfg: Config, store: Store, now: int): Store {
    var current := Bucket(cfg, now);
    var value := OrElse(Get(store, current, now), 0) + 1;
    store[current := Counter(value, if value == 1 then now + cfg.window * 2 + 1000 else store[current].expireAt)]
  }

  function Respond(cfg: Config, now: int, remaining: int): Response {
    Response(remaining >= 0, cfg.tokens, Max(0, remaining), (Bucket(cfg, now) + 1) * cfg.window, cfg.window)
  }

  function Step(cfg: Config, store: Store, call: Call): (Store, Response) {
    var used := OrElse(Get(store, Bucket(cfg, call.now), call.now), 0);
    if BlockedIn(cfg, store, call.now) then (store, Respond(cfg, call.now, -1))
    else
      match call
      case Check(now) => (store, Respond(cfg, now, cfg.tokens - used))
      case Limit(now) => (Increment(cfg, store, now), Respond(cfg, now, cfg.tokens - (used + 1)))
  }

  /** The limiter as the source stores it: counters incremented in place. */
  class SlidingWindow {
    const cfg: Config
    var counters: map<int, Counter>

    constructor (tokens: int, window: Period)
      ensures cfg == Config(tokens, window) && counters == map[]
    {
      cfg := Config(tokens, window);
      counters := map[];
    }

    method RunCheck(now: int) returns (r: Response)
      ensures (counters, r) == Step(cfg, counters, Check(now))
    {
      var currentWindow := now / cfg.window;
      var previousWindow := currentWindow - cfg.window;
      var current := Get(counters, currentWindow, now);
      var remaining := -1;
      if !Blocked(cfg, current, Get(counters, previousWindow, now), now) {
        remaining := cfg.tokens - OrElse(current, 0);
      }
      var reset := (currentWindow + 1) * cfg.window;
      r := Response(remaining >= 0, cfg.tokens, Max(0, remaining), reset, cfg.window);
    }

    method RunLimit(now: int) returns (r: Response)
      modifies this
      ensures (counters, r) == Step(cfg, old(counters), Limit(now))
    {
      var currentWindow := now / cfg.window;
      var previousWindow := currentWindow - cfg.window;
      var current := Get(counters, currentWindow, now);
      var remaining := -1;
      if !Blocked(cfg, current, Get(counters, previousWindow, now), now) {
        var newValue := OrElse(current, 0) + 1;
        if newValue == 1 {
          counters := counters[currentWindow := Counter(newValue, now + cfg.window * 2 + 1000)];
        } else {
          counters := counters[currentWindow := Counter(newValue, counters[currentWindow].expireAt)];
        }
        remaining := cfg.tokens - newValue;
      }
      var reset := (currentWindow + 1) * cfg.window;
      r := Response(remaining >= 0, cfg.tokens, Max(0, remaining), reset, cfg.window);
    }
  }

  // ---------------------------------------------------------------- runs

  ghost predicate NonDecreasing(calls: seq<Call>) {
    forall i, j :: 0 <= i < j < |calls| ==> calls[i].now <= calls[j].now
  }

  function StoreAfter(cfg: Config, calls: seq<Call>): Store {
    if calls == [] then map[]
    else Step(cfg, StoreAfter(cfg, calls[..|calls| - 1]), calls[|calls| - 1]).0
  }

  function Answer(cfg: Config, calls: seq<Call>, i: nat): Response
    requires i < |calls|
  {
    Step(cfg, StoreAfter(cfg, calls[..i]), calls[i]).1
  }

  function One(b: bool): nat { if b then 1 else 0 }

  /** The last call of a run is a `limit` that lets its request through. */
  predicate AdmitsLast(cfg: Config, calls: seq<Call>)
    requires calls != []
  {
    calls[|calls| - 1].Limit? && Answer(cfg, calls, |calls| - 1).success
  }

  /** How many calls of the run were admitted in a bucket. */
  function AdmittedIn(cfg: Config, calls: seq<Call>, bucket: int): nat {
    if calls == [] then 0
    else
      var n := |calls| - 1;
      AdmittedIn(cfg, calls[..n], bucket)
      + One(AdmitsLast(cfg, calls) && Bucket(cfg, calls[n].now) == bucket)
  }

  /** How many calls of the run were admitted at an instant in [from, from + window). */
  function AdmittedFrom(cfg: Config, calls: seq<Call>, from: int): nat {
    if calls == [] then 0
    else
      var n := |calls| - 1;
      AdmittedFrom(cfg, calls[..n], from)
      + One(AdmitsLast(cfg, calls) && from <= calls[n].now < from + cfg.window)
  }

  /** How many `limit` calls of the run fell into a bucket, admitted or not. */
  function AttemptsIn(cfg: Config, calls: seq<Call>, bucket: int): nat {
    if calls == [] then 0
    else
      var n := |calls| - 1;
      AttemptsIn(cfg, calls[..n], bucket) + One(calls[n].Limit? && Bucket(cfg, calls[n].now) == bucket)
  }

  // ---------------------------------------------------------------- arithmetic of buckets

  lemma WeightIsNonNegative(cfg: Config, now: int, previous: nat)
    ensures previous as real * Weight(cfg, now) >= 0.0
  {
  }

  /** A counter as full as the limit refuses, whatever the previous counter holds. */
  lemma FullCounterBlocks(cfg: Config, current: Option<nat>, previous: Option<nat>, now: int)
    ensures current.Some? && current.value >= cfg.tokens ==> Blocked(cfg, current, previous, now)
    ensures previous == None && cfg.tokens >= 1 ==>
              (Blocked(cfg, current, previous, now) <==> OrElse(current, 0) >= cfg.tokens)
  {
  }

  lemma BucketsAreOrdered(cfg: Config, a: int, b: int)
    requires a <= b
    ensures a * cfg.window <= b * cfg.window
  {
  }

  /** Two instants less than a window apart lie in one bucket or in two that follow each other. */
  lemma IntervalSpansTwoBuckets(cfg: Config, from: int, now: int)
    requires from <= now < from + cfg.window
    ensures Bucket(cfg, now) == Bucket(cfg, from) || Bucket(cfg, now) == Bucket(cfg, from) + 1
  {
    var a, b := Bucket(cfg, from), Bucket(cfg, now);
    assert (a + 2) * cfg.window == (a + 1) * cfg.window + cfg.window;
    if b < a {
      BucketsAreOrdered(cfg, b + 1, a);
    }
    if b > a + 1 {
      BucketsAreOrdered(cfg, a + 2, b);
    }
  }

  // ---------------------------------------------------------------- the invariant of a run

  /** Every counter was created inside its bucket and its expiry was set then; it never exceeds the limit. */
  ghost predicate Dated(cfg: Config, store: Store, clock: int) {
    forall b :: b in store ==>
      && b <= Bucket(cfg, clock)
      && b * cfg.window + 2 * cfg.window + 1000 <= store[b].expireAt < (b + 1) * cfg.window + 2 * cfg.window + 1000
      && 1 <= store[b].value <= cfg.tokens
  }

  /** The counters hold exactly the admitted calls of each bucket. */
  ghost predicate Counts(cfg: Config, store: Store, calls: seq<Call>) {
    forall b :: AdmittedIn(cfg, calls, b) == if b in store then store[b].value else 0
  }

  /** A counter cannot expire while its bucket is current. */
  lemma CurrentCounterIsLive(cfg: Config, store: Store, clock: int, now: int)
    requires Dated(cfg, store, clock) && clock <= now
    ensures var b := Bucket(cfg, now); b in store ==> Get(store, b, now) == Some(store[b].value)
  {
  }

  lemma StepKeepsDates(cfg: Config, store: Store, clock: int, call: Call)
    requires cfg.tokens >= 1 && Dated(cfg, store, clock) && clock <= call.now
    ensures Dated(cfg, Step(cfg, store, call).0, call.now)
    ensures call.Limit? && !BlockedIn(cfg, store, call.now) ==> Step(cfg, store, call).1.success
  {
    var current, now := Bucket(cfg, call.now), call.now;
    CurrentCounterIsLive(cfg, store, clock, now);
    FullCounterBlocks(cfg, Get(store, current, now), Get(store, current - cfg.window, now), now);
    if Bucket(cfg, clock) > current {
      BucketsAreOrdered(cfg, current + 1, Bucket(cfg, clock));
    }
    var next := Step(cfg, store, call).0;
    forall b | b in next
      ensures b <= Bucket(cfg, now) && 1 <= next[b].value <= cfg.tokens
      ensures b * cfg.window + 2 * cfg.window + 1000 <= next[b].expireAt
              < (b + 1) * cfg.window + 2 * cfg.window + 1000
    {
      if b != current {
        assert b in store && next[b] == store[b];
      }
    }
  }

  lemma {:induction false} RunInvariant(cfg: Config, calls: seq<Call>, clock: int)
    requires cfg.tokens >= 1 && NonDecreasing(calls)
    requires forall i :: 0 <= i < |calls| ==> calls[i].now <= clock
    ensures Dated(cfg, StoreAfter(cfg, calls), clock)
    ensures Counts(cfg, StoreAfter(cfg, calls), calls)
    decreases |calls|
  {
    if calls != [] {
      var n := |calls| - 1;
      var now, before, after := calls[n].now, StoreAfter(cfg, calls[..n]), StoreAfter(cfg, calls);
      RunInvariant(cfg, calls[..n], now);
      StepKeepsDates(cfg, before, now, calls[n]);
      CurrentCounterIsLive(cfg, before, now, now);
      if Bucket(cfg, now) > Bucket(cfg, clock) {
        BucketsAreOrdered(cfg, Bucket(cfg, clock) + 1, Bucket(cfg, now));
      }
      forall b ensures AdmittedIn(cfg, calls, b) == if b in after then after[b].value else 0 {
        assert AdmittedIn(cfg, calls[..n], b) == if b in before then before[b].value else 0;
      }
    }
  }

  /** On every run a counter outlives its bucket: what a call reads from the current key is exactly how many calls
      this bucket has admitted so far, an absent key being none. */
  lemma CurrentReadIsAdmitted(cfg: Config, calls: seq<Call>, i: nat)
    requires cfg.tokens >= 1 && NonDecreasing(calls) && i < |calls|
    ensures var b := Bucket(cfg, calls[i].now);
            OrElse(Get(StoreAfter(cfg, calls[..i]), b, calls[i].now), 0) == AdmittedIn(cfg, calls[..i], b)
  {
    var now, store := calls[i].now, StoreAfter(cfg, calls[..i]);
    RunInvariant(cfg, calls[..i], now);
    CurrentCounterIsLive(cfg, store, now, now);
    assert Counts(cfg, store, calls[..i]);
  }

  // ---------------------------------------------------------------- the bounds

  /** Whatever the previous counter holds, a bucket never admits more than `tokens` calls. */
  lemma BucketBound(cfg: Config, calls: seq<Call>, bucket: int)
    requires cfg.tokens >= 1 && NonDecreasing(calls)
    ensures AdmittedIn(cfg, calls, bucket) <= cfg.tokens
  {
    if calls != [] {
      RunInvariant(cfg, calls, calls[|calls| - 1].now);
    }
  }

  lemma {:induction false} IntervalWithinTwoBuckets(cfg: Config, calls: seq<Call>, from: int)
    ensures var b := Bucket(cfg, from);
            AdmittedFrom(cfg, calls, from) <= AdmittedIn(cfg, calls, b) + AdmittedIn(cfg, calls, b + 1)
    decreases |calls|
  {
    if calls != [] {
      var n := |calls| - 1;
      IntervalWithinTwoBuckets(cfg, calls[..n], from);
      if from <= calls[n].now < from + cfg.window {
        IntervalSpansTwoBuckets(cfg, from, calls[n].now);
      }
    }
  }

  /** Any half-open interval as long as the window admits at most twice the limit. */
  lemma IntervalBound(cfg: Config, calls: seq<Call>, from: int)
    requires cfg.tokens >= 1 && NonDecreasing(calls)
    ensures AdmittedFrom(cfg, calls, from) <= 2 * cfg.tokens
  {
    IntervalWithinTwoBuckets(cfg, calls, from);
    BucketBound(cfg, calls, Bucket(cfg, from));
    BucketBound(cfg, calls, Bucket(cfg, from) + 1);
  }

  // ---------------------------------------------------------------- every answer of every run

  /** When the first call was admitted in a bucket. */
  function FirstAdmitted(cfg: Config, calls: seq<Call>, bucket: int): Option<int> {
    if calls == [] then None
    else
      var n := |calls| - 1;
      var first := FirstAdmitted(cfg, calls[..n], bucket);
      if first == None && AdmitsLast(cfg, calls) && Bucket(cfg, calls[n].now) == bucket then Some(calls[n].now)
      else first
  }

  /** A bucket has a counter once it has admitted a call, and it expires two windows and a second after that call. */
  predicate Aged(cfg: Config, store: Store, calls: seq<Call>, b: int) {
    match FirstAdmitted(cfg, calls, b)
    case None => b !in store
    case Some(first) => b in store && store[b].expireAt == first + 2 * cfg.window + 1000
  }

  lemma {:induction false} RunIsAged(cfg: Config, calls: seq<Call>, b: int)
    requires cfg.tokens >= 1 && NonDecreasing(calls)
    ensures Aged(cfg, StoreAfter(cfg, calls), calls, b)
    decreases |calls|
  {
    if calls != [] {
      var n := |calls| - 1;
      var now, before := calls[n].now, StoreAfter(cfg, calls[..n]);
      RunIsAged(cfg, calls[..n], b);
      RunInvariant(cfg, calls[..n], now);
      StepKeepsDates(cfg, before, now, calls[n]);
      CurrentCounterIsLive(cfg, before, now, now);
    }
  }

  /** What the bucket `window` buckets back has admitted before call i, as long as its counter has not expired. */
  function PreviousAdmitted(cfg: Config, calls: seq<Call>, i: nat): nat
    requires i < |calls|
  {
    var b := calls[i].now / cfg.window - cfg.window;
    match FirstAdmitted(cfg, calls[..i], b)
    case None => 0
    case Some(first) =>
      if calls[i].now <= first + 2 * cfg.window + 1000 then AdmittedIn(cfg, calls[..i], b) else 0
  }

  /** The refusal over whole numbers: each previous call weighs the rest of the current bucket, each current call a
      whole window, and an untouched bucket one window less than nothing. */
  predicate Refuses(cfg: Config, previous: nat, current: nat, now: int) {
    previous * (cfg.window - now % cfg.window) + (if current == 0 then -1 else current) * cfg.window
    >= cfg.tokens * cfg.window
  }

  lemma ScaledSum(p: real, m: real, w: real, c: real, t: real)
    requires w > 0.0
    ensures p * (1.0 - m / w) + c >= t <==> p * (w - m) + c * w >= t * w
  {
    assert (p * (1.0 - m / w)) * w == p * (w - m) by {
      assert (1.0 - m / w) * w == w - m;
    }
    var left := p * (1.0 - m / w) + c - t;
    assert left * w == p * (w - m) + c * w - t * w;
    assert left >= 0.0 <==> left * w >= 0.0;
  }

  lemma RealProducts(p: int, a: int, c: int, w: int, t: int)
    ensures p as real * a as real + c as real * w as real >= t as real * w as real <==> p * a + c * w >= t * w
  {
    assert (p * a) as real == p as real * a as real;
    assert (c * w) as real == c as real * w as real;
    assert (t * w) as real == t as real * w as real;
  }

  lemma BlockedIsRefused(cfg: Config, current: Option<nat>, previous: Option<nat>, now: int)
    requires current != Some(0)
    ensures Blocked(cfg, current, previous, now) <==> Refuses(cfg, OrElse(previous, 0), OrElse(current, 0), now)
  {
    var p, c, w, m := OrElse(previous, 0), OrElse(current, -1), cfg.window, now % cfg.window;
    ScaledSum(p as real, m as real, w as real, c as real, cfg.tokens as real);
    RealProducts(p, w - m, c, w, cfg.tokens);
    assert (w - m) as real == w as real - m as real;
  }

  lemma PreviousReadIsAdmitted(cfg: Config, calls: seq<Call>, i: nat)
    requires cfg.tokens >= 1 && NonDecreasing(calls) && i < |calls|
    ensures OrElse(Get(StoreAfter(cfg, calls[..i]), Bucket(cfg, calls[i].now) - cfg.window, calls[i].now), 0)
            == PreviousAdmitted(cfg, calls, i)
  {
    var b := Bucket(cfg, calls[i].now) - cfg.window;
    RunIsAged(cfg, calls[..i], b);
    RunInvariant(cfg, calls[..i], calls[i].now);
    assert Counts(cfg, StoreAfter(cfg, calls[..i]), calls[..i]);
    assert AdmittedIn(cfg, calls[..i], b)
        == if b in StoreAfter(cfg, calls[..i]) then StoreAfter(cfg, calls[..i])[b].value else 0;
  }

  /** On every run, for every window, each answer is fixed by how many calls the current bucket and the one `window`
      buckets back have admitted: refused with nothing left, or let through with what the current bucket leaves of
      the limit, less one if the call itself takes one. The reset is the end of the bucket. */
  lemma AnswersFollowAdmissions(cfg: Config, calls: seq<Call>, i: nat)
    requires cfg.tokens >= 1 && NonDecreasing(calls) && i < |calls|
    ensures var now := calls[i].now;
            var current := AdmittedIn(cfg, calls[..i], now / cfg.window);
            var refused := Refuses(cfg, PreviousAdmitted(cfg, calls, i), current, now);
            Answer(cfg, calls, i)
            == Response(!refused, cfg.tokens,
                        if refused then 0 else cfg.tokens - current - (if calls[i].Limit? then 1 else 0),
                        (now / cfg.window + 1) * cfg.window, cfg.window)
  {
    var now, store := calls[i].now, StoreAfter(cfg, calls[..i]);
    var current := Get(store, Bucket(cfg, now), now);
    var previous := Get(store, Bucket(cfg, now) - cfg.window, now);
    CurrentReadIsAdmitted(cfg, calls, i);
    PreviousReadIsAdmitted(cfg, calls, i);
    RunInvariant(cfg, calls[..i], now);
    BlockedIsRefused(cfg, current, previous, now);
    FullCounterBlocks(cfg, current, previous, now);
  }

  // ---------------------------------------------------------------- the previous bucket as coded

  /** What the i-th call of the run reads from the previous key. */
  function PreviousRead(cfg: Config, calls: seq<Call>, i: nat): Option<nat>
    requires i < |calls|
  {
    Get(StoreAfter(cfg, calls[..i]), Bucket(cfg, calls[i].now) - cfg.window, calls[i].now)
  }

  lemma LongWindowForgetsPrevious(cfg: Config, calls: seq<Call>, i: nat)
    requires cfg.tokens >= 1 && cfg.window >= 34 && NonDecreasing(calls) && i < |calls|
    ensures PreviousRead(cfg, calls, i) == None
  {
    var now := calls[i].now;
    var store, previous := StoreAfter(cfg, calls[..i]), Bucket(cfg, now) - cfg.window;
    RunInvariant(cfg, calls[..i], now);
    LongWindowOutlivesCounter(cfg.window, previous);
  }

  /** A counter dated in bucket `b` is gone when bucket `b + w` starts. */
  lemma LongWindowOutlivesCounter(w: int, b: int)
    requires w >= 34
    ensures (b + 1) * w + 2 * w + 1000 <= (b + w) * w
  {
  }

  /** `n` calls at the last millisecond of bucket 0. */
  function Burst(cfg: Config, n: nat): seq<Call> {
    seq(n, _ => Limit(cfg.window - 1))
  }

  lemma BucketOfMultiple(cfg: Config, b: int)
    ensures Bucket(cfg, b * cfg.window) == b && (b * cfg.window) % cfg.window == 0
  {
    var at := b * cfg.window;
    var k := Bucket(cfg, at);
    assert (b + 1) * cfg.window == at + cfg.window;
    if k < b {
      BucketsAreOrdered(cfg, k + 1, b);
    }
    if k > b {
      BucketsAreOrdered(cfg, b + 1, k);
    }
    assert at == k * cfg.window + at % cfg.window;
  }

  lemma LastOfFirstBucket(cfg: Config)
    ensures Bucket(cfg, cfg.window - 1) == 0
  {
  }

  lemma {:induction false} BurstFillsBucket(cfg: Config, n: nat)
    requires cfg.tokens >= 1 && n <= cfg.tokens
    ensures StoreAfter(cfg, Burst(cfg, n)) == if n == 0 then map[] else map[0 := Counter(n, 3 * cfg.window + 999)]
    decreases n
  {
    if n > 0 {
      var calls := Burst(cfg, n);
      assert calls[..n - 1] == Burst(cfg, n - 1);
      BurstFillsBucket(cfg, n - 1);
      LastOfFirstBucket(cfg);
      var before := StoreAfter(cfg, calls[..n - 1]);
      assert Get(before, 0 - cfg.window, cfg.window - 1) == None;
      FullCounterBlocks(cfg, Get(before, 0, cfg.window - 1), None, cfg.window - 1);
    }
  }

  lemma ShortSquare(w: int)
    requires 1 <= w <= 33
    ensures w * w < 3 * w + 999
  {
  }

  /** The first instant of bucket number `window`, which looks back at bucket 0. */
  lemma BucketLookingBack(cfg: Config, at: int)
    requires at == cfg.window * cfg.window
    ensures Bucket(cfg, at) == cfg.window && Weight(cfg, at) == 1.0 && cfg.window - 1 <= at
    ensures cfg.window <= 33 ==> at < 3 * cfg.window + 999
  {
    BucketOfMultiple(cfg, cfg.window);
    if cfg.window <= 33 {
      ShortSquare(cfg.window);
    }
  }

  /** The counter read as "previous" has expired on every run exactly when the window is at least 34 ms. */
  lemma PreviousExpiredIffLongWindow(cfg: Config)
    requires cfg.tokens >= 1
    ensures (forall calls: seq<Call>, i: nat :: NonDecreasing(calls) && i < |calls| ==>
              PreviousRead(cfg, calls, i) == None)
            <==> cfg.window >= 34
  {
    if cfg.window >= 34 {
      forall calls: seq<Call>, i: nat | NonDecreasing(calls) && i < |calls|
        ensures PreviousRead(cfg, calls, i) == None
      {
        LongWindowForgetsPrevious(cfg, calls, i);
      }
    } else {
      var at := cfg.window * cfg.window;
      var calls := Burst(cfg, 1) + [Limit(at)];
      assert calls[..1] == Burst(cfg, 1);
      BurstFillsBucket(cfg, 1);
      BucketLookingBack(cfg, at);
      assert NonDecreasing(calls) && PreviousRead(cfg, calls, 1) == Some(1);
    }
  }

  // ---------------------------------------------------------------- the fixed-window counter

  /** A plain fixed-window counter: the first `tokens` attempts of a bucket get through, whatever came before. */
  function FixedWindowAnswer(cfg: Config, attempts: nat, now: int): Response {
    Response(attempts < cfg.tokens, cfg.tokens, Max(0, cfg.tokens - attempts - 1),
             (Bucket(cfg, now) + 1) * cfg.window, cfg.window)
  }

  /** Every `limit` of the run is answered like that counter answers it. */
  ghost predicate IsFixedWindow(cfg: Config, calls: seq<Call>) {
    forall i :: 0 <= i < |calls| && calls[i].Limit? ==>
      Answer(cfg, calls, i)
      == FixedWindowAnswer(cfg, AttemptsIn(cfg, calls[..i], Bucket(cfg, calls[i].now)), calls[i].now)
  }

  /** Without previous calls, or with one against a limit of one, only a full bucket refuses. */
  lemma FullBucketRefuses(cfg: Config, previous: nat, current: nat, now: int)
    requires cfg.tokens >= 1 && (previous == 0 || (cfg.tokens == 1 && previous == 1))
    ensures Refuses(cfg, previous, current, now) <==> current >= cfg.tokens
  {
    assert previous * (cfg.window - now % cfg.window) == (if previous == 0 then 0 else cfg.window - now % cfg.window);
    if current >= cfg.tokens {
      BucketsAreOrdered(cfg, cfg.tokens, current);
    } else {
      BucketsAreOrdered(cfg, if current == 0 then -1 else current, cfg.tokens - 1 - previous);
      assert (cfg.tokens - 1 - previous) * cfg.window
          == cfg.tokens * cfg.window - (if previous == 0 then cfg.window else 2 * cfg.window);
    }
  }

  lemma PreviousIsIrrelevant(cfg: Config, calls: seq<Call>, i: nat)
    requires cfg.tokens >= 1 && NonDecreasing(calls) && i < |calls|
    requires cfg.window >= 34 || cfg.tokens == 1
    ensures var now := calls[i].now;
            var current := AdmittedIn(cfg, calls[..i], Bucket(cfg, now));
            Refuses(cfg, PreviousAdmitted(cfg, calls, i), current, now) <==> current >= cfg.tokens
  {
    var now := calls[i].now;
    if cfg.window >= 34 {
      LongWindowForgetsPrevious(cfg, calls, i);
      PreviousReadIsAdmitted(cfg, calls, i);
    } else {
      BucketBound(cfg, calls[..i], Bucket(cfg, now) - cfg.window);
    }
    FullBucketRefuses(cfg, PreviousAdmitted(cfg, calls, i), AdmittedIn(cfg, calls[..i], Bucket(cfg, now)), now);
  }

  lemma {:induction false} AdmittedIsCappedAttempts(cfg: Config, calls: seq<Call>, bucket: int)
    requires cfg.tokens >= 1 && NonDecreasing(calls)
    requires cfg.window >= 34 || cfg.tokens == 1
    ensures AdmittedIn(cfg, calls, bucket) == Min(cfg.tokens, AttemptsIn(cfg, calls, bucket))
    decreases |calls|
  {
    if calls != [] {
      var n := |calls| - 1;
      AdmittedIsCappedAttempts(cfg, calls[..n], bucket);
      LimitFollowsCounter(cfg, calls, n);
    }
  }

  lemma LimitFollowsCounter(cfg: Config, calls: seq<Call>, i: nat)
    requires cfg.tokens >= 1 && NonDecreasing(calls) && i < |calls|
    requires cfg.window >= 34 || cfg.tokens == 1
    ensures calls[i].Limit? ==>
              Answer(cfg, calls, i)
              == FixedWindowAnswer(cfg, AdmittedIn(cfg, calls[..i], Bucket(cfg, calls[i].now)), calls[i].now)
  {
    AnswersFollowAdmissions(cfg, calls, i);
    PreviousIsIrrelevant(cfg, calls, i);
  }

  /** With bucket 0 full, the first request of bucket `window` passes and the second is refused. */
  lemma ShortWindowRefusesSecond(cfg: Config, full: Store, at: int)
    requires cfg.tokens >= 2 && cfg.window <= 33 && at == cfg.window * cfg.window
    requires full == map[0 := Counter(cfg.tokens, 3 * cfg.window + 999)]
    ensures !Step(cfg, Step(cfg, full, Limit(at)).0, Limit(at)).1.success
  {
    BucketLookingBack(cfg, at);
    assert Get(full, 0, at) == Some(cfg.tokens) && Get(full, cfg.window, at) == None;
    var next := Step(cfg, full, Limit(at)).0;
    assert next == full[cfg.window := Counter(1, at + cfg.window * 2 + 1000)];
    assert Get(next, 0, at) == Some(cfg.tokens) && Get(next, cfg.window, at) == Some(1);
  }

  /** With a short window the counter of a bucket `window` buckets back still weighs in: a request that a
      fixed-window counter would admit is refused. */
  lemma ShortWindowDiffers(cfg: Config, at: int)
    requires cfg.tokens >= 2 && cfg.window <= 33 && at == cfg.window * cfg.window
    ensures exists calls :: NonDecreasing(calls) && !IsFixedWindow(cfg, calls)
  {
    var full := Burst(cfg, cfg.tokens);
    BurstFillsBucket(cfg, cfg.tokens);
    ShortWindowRefusesSecond(cfg, StoreAfter(cfg, full), at);
    TwoMoreCalls(cfg, full, Limit(at));
    BucketLookingBack(cfg, at);
    NoAttempts(cfg, cfg.tokens);
    RefusedAmongFew(cfg, cfg.tokens, at);
  }

  /** A refused request with fewer than `tokens` attempts before it in its bucket is one that a fixed-window
      counter admits. */
  lemma RefusedAmongFew(cfg: Config, n: nat, at: int)
    requires cfg.window - 1 <= at
    requires var run := Burst(cfg, n) + [Limit(at), Limit(at)];
             !Answer(cfg, run, n + 1).success && AttemptsIn(cfg, run[..n + 1], Bucket(cfg, at)) < cfg.tokens
    ensures exists calls :: NonDecreasing(calls) && !IsFixedWindow(cfg, calls)
  {
    var run := Burst(cfg, n) + [Limit(at), Limit(at)];
    assert run[n + 1] == Limit(at);
    assert NonDecreasing(run) && !IsFixedWindow(cfg, run);
  }

  lemma TwoMoreCalls(cfg: Config, calls: seq<Call>, last: Call)
    ensures var run, n := calls + [last, last], |calls|;
            && Answer(cfg, run, n + 1) == Step(cfg, Step(cfg, StoreAfter(cfg, calls), last).0, last).1
            && AttemptsIn(cfg, run[..n + 1], Bucket(cfg, last.now))
               == AttemptsIn(cfg, calls, Bucket(cfg, last.now)) + One(last.Limit?)
  {
    var run, n := calls + [last, last], |calls|;
    assert run[..n + 1] == calls + [last] && (calls + [last])[..n] == calls;
    assert run[n + 1] == last;
  }

  lemma {:induction false} NoAttempts(cfg: Config, n: nat)
    ensures AttemptsIn(cfg, Burst(cfg, n), cfg.window) == 0
    decreases n
  {
    LastOfFirstBucket(cfg);
    if n > 0 {
      assert Burst(cfg, n)[..n - 1] == Burst(cfg, n - 1);
      NoAttempts(cfg, n - 1);
    }
  }

  /** As coded, the limiter is a plain fixed-window counter on every run exactly when its window is at least
      34 ms or its limit is one. */
  lemma FixedWindowIffLongOrSingle(cfg: Config)
    requires cfg.tokens >= 1
    ensures (forall calls :: NonDecreasing(calls) ==> IsFixedWindow(cfg, calls))
            <==> cfg.window >= 34 || cfg.tokens == 1
  {
    if cfg.window >= 34 || cfg.tokens == 1 {
      forall calls: seq<Call> | NonDecreasing(calls) ensures IsFixedWindow(cfg, calls) {
        forall i | 0 <= i < |calls| && calls[i].Limit?
          ensures Answer(cfg, calls, i)
                  == FixedWindowAnswer(cfg, AttemptsIn(cfg, calls[..i], Bucket(cfg, calls[i].now)), calls[i].now)
        {
          LimitFollowsCounter(cfg, calls, i);
          AdmittedIsCappedAttempts(cfg, calls[..i], Bucket(cfg, calls[i].now));
        }
      }
    } else {
      ShortWindowDiffers(cfg, cfg.window * cfg.window);
    }
  }

  // ---------------------------------------------------------------- check

  /** `check` announces what `limit` would answer, on every store and at every instant, exactly when the
      limit is not zero. */
  lemma CheckPredictsLimitIffNonZero(cfg: Config)
    ensures (forall store, now :: Step(cfg, store, Check(now)).1.success == Step(cfg, store, Limit(now)).1.success)
            <==> cfg.tokens != 0
  {
    if cfg.tokens == 0 {
      assert Step(cfg, map[], Check(0)).1.success && !Step(cfg, map[], Limit(0)).1.success;
    } else {
      forall store: Store, now
        ensures Step(cfg, store, Check(now)).1.success == Step(cfg, store, Limit(now)).1.success
      {
        var current := Get(store, Bucket(cfg, now), now);
        var previous := Get(store, Bucket(cfg, now) - cfg.window, now);
        WeightIsNonNegative(cfg, now, OrElse(previous, 0));
        FullCounterBlocks(cfg, current, previous, now);
      }
    }
  }
}
