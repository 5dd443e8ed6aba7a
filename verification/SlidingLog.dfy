/**
 The sliding-window log limiter: three Redis scripts over one sorted set whose members are the
 millisecond timestamps of admitted requests, each stored with itself as its score.

 `Acquire`, `Inspect` and `Wipe` are the scripts as functions of the stored key; the class
 `SlidingWindowLog` runs them step by step on its fields. The reference they are compared with is a log
 that never forgets a timestamp.
 */
module SlidingLog {
  import opened Options
  import Sets

  datatype Config = Config(tokens: int, window: nat)

  /** A sorted set whose members equal their scores. An empty set is an absent key, which has no expiry. */
  datatype Key = Key(scores: set<int>, expireAt: Option<int>)

  const ABSENT := Key({}, None)

  /** What a script returns to the wrapper around it. */
  datatype Reply = Reply(remaining: int, reset: int)

  datatype Response = Response(success: bool, limit: int, remaining: int, resetMs: int, windowMs: int)

  datatype Call = Check(now: int) | Limit(now: int) | Clean(now: int)

  // ---------------------------------------------------------------- Redis commands

  function Max(a: int, b: int): int { if a < b then b else a }

  /** The members the scripts count at `end`: both ends of the window belong to it. */
  function Window(cfg: Config, scores: set<int>, end: int): set<int> {
    set t | t in scores && end - cfg.window <= t <= end
  }

  lemma {:induction false} LeastExists(s: set<int>)
    requires s != {}
    ensures exists x :: x in s && forall y :: y in s ==> x <= y
    decreases |s|
  {
    var x := Sets.Member(s);
    var rest := s - {x};
    var least := x;
    if rest != {} {
      LeastExists(rest);
      var m :| m in rest && forall y :: y in rest ==> m <= y;
      least := if x <= m then x else m;
    }
    forall y | y in s ensures least <= y {
      assert y == x || y in rest;
    }
  }

  function Oldest(s: set<int>): (x: int)
    requires s != {}
    ensures x in s && forall y :: y in s ==> x <= y
  {
    LeastExists(s);
    var x :| x in s && forall y :: y in s ==> x <= y;
    x
  }

  /** A key whose expiry has passed is gone. */
  function Live(key: Key, now: int): Key {
    if key.expireAt.Some? && key.expireAt.value < now then ABSENT else key
  }

  /** EXPIRE counts in seconds, ignores an absent key and deletes on a timeout that is not positive. */
  function Expire(key: Key, now: int, seconds: int): Key {
    if key.scores == {} then key
    else if seconds <= 0 then ABSENT
    else key.(expireAt := Some(now + 1000 * seconds))
  }

  /** ZREMRANGEBYSCORE from minus infinity; removing the last member removes the key. */
  function RemoveUpTo(key: Key, max: int): Key {
    var kept := set t | t in key.scores && t > max;
    if kept == {} then ABSENT else key.(scores := kept)
  }

  function Add(key: Key, score: int): Key {
    key.(scores := key.scores + {score})
  }

  // ---------------------------------------------------------------- the scripts and their wrappers

  function Inspect(cfg: Config, key: Key, now: int): Reply {
    var recent := Window(cfg, key.scores, now);
    Reply(cfg.tokens - |recent|, (if recent == {} then now else Oldest(recent)) + cfg.window)
  }

  function Acquire(cfg: Config, key: Key, now: int): (Key, Reply) {
    var count := |Window(cfg, key.scores, now)|;
    var trimmed := if count == 0 then RemoveUpTo(Expire(key, now, cfg.window), now - cfg.window) else key;
    var recent := Window(cfg, trimmed.scores, now);
    if recent == {} then (Add(trimmed, now), Reply(cfg.tokens - count - 1, now + cfg.window))
    else if count >= cfg.tokens then (trimmed, Reply(-1, Oldest(recent) + cfg.window))
    else (Add(trimmed, now), Reply(cfg.tokens - count - 1, Oldest(recent) + cfg.window))
  }

  function CheckResponse(cfg: Config, reply: Reply): Response {
    Response(reply.remaining > 0, cfg.tokens, Max(0, reply.remaining), reply.reset, cfg.window)
  }

  function LimitResponse(cfg: Config, reply: Reply): Response {
    Response(reply.remaining >= 0, cfg.tokens, Max(0, reply.remaining), reply.reset, cfg.window)
  }

  function Step(cfg: Config, key: Key, call: Call): (Key, Option<Response>) {
    var live := Live(key, call.now);
    match call
    case Check(now) => (live, Some(CheckResponse(cfg, Inspect(cfg, live, now))))
    case Limit(now) =>
      var (next, reply) := Acquire(cfg, live, now);
      (next, Some(LimitResponse(cfg, reply)))
    case Clean(_) => (ABSENT, None)
  }

  /** The limiter as the source stores it: the sorted set and its expiry, updated in place. */
  class SlidingWindowLog {
    const cfg: Config
    var scores: set<int>
    var expireAt: Option<int>

    ghost function View(): Key
      reads this
    {
      Key(scores, expireAt)
    }

    constructor (tokens: int, window: nat)
      ensures cfg == Config(tokens, window) && View() == ABSENT
    {
      cfg := Config(tokens, window);
      scores, expireAt := {}, None;
    }

    method Purge(now: int)
      modifies this
      ensures View() == Live(old(View()), now)
    {
      if expireAt.Some? && expireAt.value < now {
        scores, expireAt := {}, None;
      }
    }

    method Check(now: int) returns (r: Response)
      modifies this
      ensures (View(), Some(r)) == Step(cfg, old(View()), Call.Check(now))
    {
      Purge(now);
      var count := |Window(cfg, scores, now)|;
      var updatedAt := Window(cfg, scores, now);
      var reset := now + cfg.window;
      if updatedAt != {} {
        reset := Oldest(updatedAt) + cfg.window;
      }
      var remaining := cfg.tokens - count;
      r := Response(remaining > 0, cfg.tokens, Max(0, remaining), reset, cfg.window);
    }

    method ExpireKey(now: int)
      modifies this
      ensures View() == Expire(old(View()), now, cfg.window)
    {
      if scores != {} {
        if cfg.window == 0 {
          scores, expireAt := {}, None;
        } else {
          expireAt := Some(now + 1000 * cfg.window);
        }
      }
    }

    method RemoveOlder(max: int)
      modifies this
      ensures View() == RemoveUpTo(old(View()), max)
    {
      scores := set t | t in scores && t > max;
      if scores == {} {
        expireAt := None;
      }
    }

    method RunAcquire(now: int) returns (reply: Reply)
      modifies this
      ensures (View(), reply) == Acquire(cfg, old(View()), now)
    {
      var count := |Window(cfg, scores, now)|;
      if count == 0 {
        ExpireKey(now);
        RemoveOlder(now - cfg.window);
      }
      var updatedAt := Window(cfg, scores, now);
      if updatedAt == {} {
        scores := scores + {now};
        reply := Reply(cfg.tokens - count - 1, now + cfg.window);
      } else if count >= cfg.tokens {
        reply := Reply(-1, Oldest(updatedAt) + cfg.window);
      } else {
        scores := scores + {now};
        reply := Reply(cfg.tokens - count - 1, Oldest(updatedAt) + cfg.window);
      }
    }

    method Limit(now: int) returns (r: Response)
      modifies this
      ensures (View(), Some(r)) == Step(cfg, old(View()), Call.Limit(now))
    {
      Purge(now);
      var reply := RunAcquire(now);
      r := LimitResponse(cfg, reply);
    }

    method Clean(now: int)
      modifies this
      ensures (View(), None) == Step(cfg, old(View()), Call.Clean(now))
    {
      scores, expireAt := {}, None;
    }
  }

  // ---------------------------------------------------------------- runs

  /** The clock never goes back from one call to the next. */
  ghost predicate NonDecreasing(calls: seq<Call>) {
    forall i, j :: 0 <= i < j < |calls| ==> calls[i].now <= calls[j].now
  }

  function KeyAfter(cfg: Config, calls: seq<Call>): Key {
    if calls == [] then ABSENT
    else Step(cfg, KeyAfter(cfg, calls[..|calls| - 1]), calls[|calls| - 1]).0
  }

  /** What the i-th call of a run is answered. */
  function Answer(cfg: Config, calls: seq<Call>, i: nat): Option<Response>
    requires i < |calls|
  {
    Step(cfg, KeyAfter(cfg, calls[..i]), calls[i]).1
  }

  /** The i-th call of a run is a `limit` that lets its request through. */
  predicate Admits(cfg: Config, calls: seq<Call>, i: nat)
    requires i < |calls|
  {
    calls[i].Limit? && Answer(cfg, calls, i).value.success
  }

  /** The timestamps of the requests admitted since the last clean. */
  function Admitted(cfg: Config, calls: seq<Call>): set<int> {
    if calls == [] then {}
    else
      var n := |calls| - 1;
      if calls[n].Clean? then {}
      else Admitted(cfg, calls[..n]) + (if Admits(cfg, calls, n) then {calls[n].now} else {})
  }

  // ---------------------------------------------------------------- the log that never forgets

  /** The same three operations on a plain set of timestamps, with no expiry and no trimming. */
  function RefStep(cfg: Config, log: set<int>, call: Call): (set<int>, Option<Response>) {
    var recent := Window(cfg, log, call.now);
    var reset := (if recent == {} then call.now else Oldest(recent)) + cfg.window;
    match call
    case Check(now) => (log, Some(CheckResponse(cfg, Reply(cfg.tokens - |recent|, reset))))
    case Limit(now) =>
      if recent != {} && |recent| >= cfg.tokens then (log, Some(LimitResponse(cfg, Reply(-1, reset))))
      else (log + {now}, Some(LimitResponse(cfg, Reply(cfg.tokens - |recent| - 1, reset))))
    case Clean(_) => ({}, None)
  }

  function LogAfter(cfg: Config, calls: seq<Call>): set<int> {
    if calls == [] then {}
    else RefStep(cfg, LogAfter(cfg, calls[..|calls| - 1]), calls[|calls| - 1]).0
  }

  /** The stored key lacks only timestamps that no window ending at `clock` or later can reach. */
  ghost predicate Forgets(cfg: Config, key: Key, log: set<int>, clock: int) {
    && key.expireAt == None
    && key.scores <= log
    && (forall t :: t in log ==> t <= clock)
    && (forall t :: t in log && t !in key.scores ==> t < clock - cfg.window)
  }

  lemma WindowsAgree(cfg: Config, key: Key, log: set<int>, clock: int, now: int)
    requires Forgets(cfg, key, log, clock) && clock <= now
    ensures Window(cfg, key.scores, now) == Window(cfg, log, now)
    ensures Window(cfg, log, now) == {} ==> RemoveUpTo(Expire(key, now, cfg.window), now - cfg.window) == ABSENT
  {
  }

  lemma AcquireForgets(cfg: Config, key: Key, log: set<int>, clock: int, now: int)
    requires Forgets(cfg, key, log, clock) && clock <= now
    ensures var (next, reply) := Acquire(cfg, key, now);
            && Some(LimitResponse(cfg, reply)) == RefStep(cfg, log, Limit(now)).1
            && Forgets(cfg, next, RefStep(cfg, log, Limit(now)).0, now)
  {
    WindowsAgree(cfg, key, log, clock, now);
    var recent := Window(cfg, log, now);
    if recent == {} {
      assert Window(cfg, ABSENT.scores, now) == {};
      forall t | t in log ensures t < now - cfg.window {
        assert t !in recent;
      }
    }
  }

  lemma ForgettingIsInvisible(cfg: Config, key: Key, log: set<int>, clock: int, call: Call)
    requires Forgets(cfg, key, log, clock) && clock <= call.now
    ensures Step(cfg, key, call).1 == RefStep(cfg, log, call).1
    ensures Forgets(cfg, Step(cfg, key, call).0, RefStep(cfg, log, call).0, call.now)
  {
    match call
    case Check(now) => WindowsAgree(cfg, key, log, clock, now);
    case Limit(now) => AcquireForgets(cfg, key, log, clock, now);
    case Clean(_) =>
  }

  lemma {:induction false} RunForgets(cfg: Config, calls: seq<Call>, clock: int)
    requires NonDecreasing(calls)
    requires forall i :: 0 <= i < |calls| ==> calls[i].now <= clock
    ensures Forgets(cfg, KeyAfter(cfg, calls), LogAfter(cfg, calls), clock)
    decreases |calls|
  {
    if calls != [] {
      var n := |calls| - 1;
      RunForgets(cfg, calls[..n], calls[n].now);
      ForgettingIsInvisible(cfg, KeyAfter(cfg, calls[..n]), LogAfter(cfg, calls[..n]), calls[n].now, calls[n]);
    }
  }

  /** With a clock that never goes back, lazy trimming and the EXPIRE never change an answer, and the key
      never carries an expiry after a call. */
  lemma LazyTrimmingRefinesFullLog(cfg: Config, calls: seq<Call>, i: nat)
    requires NonDecreasing(calls) && i < |calls|
    ensures Answer(cfg, calls, i) == RefStep(cfg, LogAfter(cfg, calls[..i]), calls[i]).1
    ensures KeyAfter(cfg, calls).expireAt == None
  {
    assert Answer(cfg, calls, i) == RefStep(cfg, LogAfter(cfg, calls[..i]), calls[i]).1 by {
      RunForgets(cfg, calls[..i], calls[i].now);
      ForgettingIsInvisible(cfg, KeyAfter(cfg, calls[..i]), LogAfter(cfg, calls[..i]), calls[i].now, calls[i]);
    }
    RunForgets(cfg, calls, calls[|calls| - 1].now);
  }

  lemma OneMoreCall(cfg: Config, calls: seq<Call>, call: Call)
    ensures Answer(cfg, calls + [call], |calls|) == Step(cfg, KeyAfter(cfg, calls), call).1
    ensures KeyAfter(cfg, calls + [call]) == Step(cfg, KeyAfter(cfg, calls), call).0
    ensures LogAfter(cfg, calls + [call]) == RefStep(cfg, LogAfter(cfg, calls), call).0
  {
    assert (calls + [call])[..|calls|] == calls;
  }

  lemma LimitOnEmptyWindow(cfg: Config, key: Key, log: set<int>, now: int)
    requires cfg.tokens >= 1 && key.expireAt == None && key.scores <= log
    requires forall t :: t in log ==> t < now - cfg.window
    ensures Step(cfg, key, Limit(now)).0 == Key({now}, None)
    ensures RefStep(cfg, log, Limit(now)).0 == log + {now}
  {
    assert Window(cfg, key.scores, now) == {} && Window(cfg, log, now) == {};
    assert RemoveUpTo(Expire(key, now, cfg.window), now - cfg.window) == ABSENT;
    assert Window(cfg, ABSENT.scores, now) == {};
  }

  /** A trim at `at` has removed what a log still holds. */
  lemma TrimRemovesFirst(cfg: Config, at: int)
    requires cfg.tokens >= 1 && at > cfg.window
    ensures KeyAfter(cfg, [Limit(0)] + [Limit(at)]) == Key({at}, None)
    ensures LogAfter(cfg, [Limit(0)] + [Limit(at)]) == {0, at}
  {
    OneMoreCall(cfg, [], Limit(0));
    assert [] + [Limit(0)] == [Limit(0)];
    LimitOnEmptyWindow(cfg, ABSENT, {}, 0);
    OneMoreCall(cfg, [Limit(0)], Limit(at));
    LimitOnEmptyWindow(cfg, Key({0}, None), {0}, at);
  }

  /** The clock condition is needed to the last millisecond: for every configuration and every backward step there
      is a run, going back once by that step, on which trimming changes an answer; with one token it announces
      room where the full log has none. */
  lemma BackwardStepLosesHistory(cfg: Config, back: int)
    requires cfg.tokens >= 1 && back >= 1
    ensures var at := Max(back, cfg.window + 1);
            var before, check := [Limit(0)] + [Limit(at)], Check(at - back);
            var stored := Answer(cfg, before + [check], 2).value;
            var full := RefStep(cfg, LogAfter(cfg, before), check).1.value;
            && stored.remaining == cfg.tokens && full.remaining == cfg.tokens - 1
            && stored.success && (full.success <==> cfg.tokens > 1)
  {
    var at := Max(back, cfg.window + 1);
    TrimRemovesFirst(cfg, at);
    OneMoreCall(cfg, [Limit(0)] + [Limit(at)], Check(at - back));
    assert Window(cfg, {at}, at - back) == {};
    assert Window(cfg, {0, at}, at - back) == {0};
  }

  // ---------------------------------------------------------------- the window bound

  /** Every closed window of the configured length holds at most `tokens` logged timestamps. */
  ghost predicate Bounded(cfg: Config, log: set<int>) {
    forall end :: |Window(cfg, log, end)| <= cfg.tokens
  }

  lemma RefStepKeepsBound(cfg: Config, log: set<int>, call: Call)
    requires cfg.tokens >= 1
    requires Bounded(cfg, log) && forall t :: t in log ==> t <= call.now
    ensures Bounded(cfg, RefStep(cfg, log, call).0)
  {
    var next := RefStep(cfg, log, call).0;
    forall end ensures |Window(cfg, next, end)| <= cfg.tokens {
      var before, after := Window(cfg, log, end), Window(cfg, next, end);
      if call.now in after && call.now !in before {
        var recent := Window(cfg, log, call.now);
        assert before <= recent;
        Sets.SubsetIsNoLarger(before, recent);
        assert after == before + {call.now};
      } else {
        assert after <= before;
        Sets.SubsetIsNoLarger(after, before);
      }
    }
  }

  lemma {:induction false} RunIsBounded(cfg: Config, calls: seq<Call>)
    requires cfg.tokens >= 1 && NonDecreasing(calls)
    ensures Bounded(cfg, LogAfter(cfg, calls))
    ensures Admitted(cfg, calls) == LogAfter(cfg, calls)
    decreases |calls|
  {
    if calls == [] {
      assert forall end :: Window(cfg, {}, end) == {};
    } else {
      var n := |calls| - 1;
      RunIsBounded(cfg, calls[..n]);
      RunForgets(cfg, calls[..n], calls[n].now);
      LazyTrimmingRefinesFullLog(cfg, calls, n);
      RefStepKeepsBound(cfg, LogAfter(cfg, calls[..n]), calls[n]);
    }
  }

  /** Whatever the calls, at most `tokens` distinct timestamps admitted since the last clean lie in
      [end - window, end]. */
  lemma WindowBound(cfg: Config, calls: seq<Call>, end: int)
    requires cfg.tokens >= 1 && NonDecreasing(calls)
    ensures |Window(cfg, Admitted(cfg, calls), end)| <= cfg.tokens
  {
    RunIsBounded(cfg, calls);
  }

  // ---------------------------------------------------------------- counting calls

  ghost predicate NoClean(calls: seq<Call>) {
    forall i :: 0 <= i < |calls| ==> !calls[i].Clean?
  }

  /** The positions of the calls admitted with a timestamp in [end - window, end]. */
  function AdmittedCalls(cfg: Config, calls: seq<Call>, end: int): set<nat> {
    set i: nat | i < |calls| && Admits(cfg, calls, i) && end - cfg.window <= calls[i].now <= end
  }

  /** At most `tokens` calls get through in any window of the run. */
  ghost predicate CallBound(cfg: Config, calls: seq<Call>) {
    forall end :: |AdmittedCalls(cfg, calls, end)| <= cfg.tokens
  }

  lemma AdmitsDependsOnPrefix(cfg: Config, calls: seq<Call>, n: nat, i: nat)
    requires i < n <= |calls|
    ensures Admits(cfg, calls[..n], i) == Admits(cfg, calls, i)
  {
    assert calls[..n][..i] == calls[..i];
  }

  lemma AdmittedGrows(cfg: Config, calls: seq<Call>)
    requires calls != [] && !calls[|calls| - 1].Clean?
    ensures Admitted(cfg, calls[..|calls| - 1]) <= Admitted(cfg, calls)
    ensures Admits(cfg, calls, |calls| - 1) ==> calls[|calls| - 1].now in Admitted(cfg, calls)
  {
  }

  lemma {:induction false} AdmittedStays(cfg: Config, calls: seq<Call>, m: nat, n: nat)
    requires NoClean(calls) && m <= n <= |calls|
    ensures Admitted(cfg, calls[..m]) <= Admitted(cfg, calls[..n])
    decreases n
  {
    if m < n {
      AdmittedStays(cfg, calls, m, n - 1);
      assert calls[..n][..n - 1] == calls[..n - 1];
      AdmittedGrows(cfg, calls[..n]);
    }
  }

  lemma AdmittedTimestamps(cfg: Config, calls: seq<Call>, i: nat)
    requires NoClean(calls) && i < |calls| && Admits(cfg, calls, i)
    ensures calls[i].now in Admitted(cfg, calls)
  {
    AdmitsDependsOnPrefix(cfg, calls, i + 1, i);
    AdmittedGrows(cfg, calls[..i + 1]);
    AdmittedStays(cfg, calls, i + 1, |calls|);
    assert calls[..|calls|] == calls;
  }

  /** Calls made at distinct milliseconds: at most `tokens` of them get through in any window. */
  lemma DistinctTimesBoundCalls(cfg: Config, calls: seq<Call>)
    requires cfg.tokens >= 1 && NoClean(calls)
    requires forall i, j :: 0 <= i < j < |calls| ==> calls[i].now < calls[j].now
    ensures CallBound(cfg, calls)
  {
    forall end ensures |AdmittedCalls(cfg, calls, end)| <= cfg.tokens {
      var indices := AdmittedCalls(cfg, calls, end);
      var stamps := Window(cfg, Admitted(cfg, calls), end);
      var at := (i: nat) => if i < |calls| then calls[i].now else 0;
      forall i | i in indices ensures at(i) in stamps {
        AdmittedTimestamps(cfg, calls, i);
      }
      Sets.DistinctImagesCount(indices, at, stamps);
      WindowBound(cfg, calls, end);
    }
  }

  /** With one token, two calls can never be admitted within one window, not even in one millisecond. */
  lemma OneTokenBoundsCalls(cfg: Config, calls: seq<Call>)
    requires cfg.tokens == 1 && NoClean(calls) && NonDecreasing(calls)
    ensures CallBound(cfg, calls)
  {
    forall end ensures |AdmittedCalls(cfg, calls, end)| <= 1 {
      var indices := AdmittedCalls(cfg, calls, end);
      forall i, j | i in indices && j in indices ensures i == j {
        if i < j {
          OneTokenAdmitsOnce(cfg, calls, i, j);
        } else if j < i {
          OneTokenAdmitsOnce(cfg, calls, j, i);
        }
      }
      if i :| i in indices {
        assert indices == {i};
      }
    }
  }

  lemma OneTokenAdmitsOnce(cfg: Config, calls: seq<Call>, i: nat, j: nat)
    requires cfg.tokens == 1 && NoClean(calls) && NonDecreasing(calls)
    requires i < j < |calls| && calls[j].now <= calls[i].now + cfg.window
    ensures !(Admits(cfg, calls, i) && Admits(cfg, calls, j))
  {
    if Admits(cfg, calls, i) && Admits(cfg, calls, j) {
      AdmitsDependsOnPrefix(cfg, calls, j, i);
      AdmittedTimestamps(cfg, calls[..j], i);
      RunIsBounded(cfg, calls[..j]);
      LazyTrimmingRefinesFullLog(cfg, calls, j);
    }
  }

  /** `n` limit calls in the same millisecond. */
  function Burst(n: nat): seq<Call> {
    seq(n, _ => Limit(0))
  }

  lemma {:induction false} BurstIsAdmitted(cfg: Config, n: nat)
    requires cfg.tokens >= 2
    ensures KeyAfter(cfg, Burst(n)) == if n == 0 then ABSENT else Key({0}, None)
    ensures forall i: nat :: i < n ==> Admits(cfg, Burst(n), i)
    decreases n
  {
    assert Window(cfg, {}, 0) == {} && Window(cfg, {0}, 0) == {0};
    if n > 0 {
      var calls := Burst(n);
      assert calls[..n - 1] == Burst(n - 1);
      BurstIsAdmitted(cfg, n - 1);
      forall i: nat | i < n - 1 ensures Admits(cfg, calls, i) {
        AdmitsDependsOnPrefix(cfg, calls, n - 1, i);
      }
      assert {0} + {0} == {0};
    }
  }

  lemma BurstBreaksBound(cfg: Config)
    requires cfg.tokens >= 2
    ensures var calls := Burst(cfg.tokens + 1); NoClean(calls) && NonDecreasing(calls) && !CallBound(cfg, calls)
  {
    var n := cfg.tokens + 1;
    BurstIsAdmitted(cfg, n);
    assert AdmittedCalls(cfg, Burst(n), 0) == Sets.Below(n);
  }

  /** Requests of one millisecond share one member of the sorted set, so the number of admitted *calls* is
      bounded on every run exactly when the limiter has a single token. */
  lemma CallBoundIffOneToken(cfg: Config)
    requires cfg.tokens >= 1
    ensures (forall calls :: NoClean(calls) && NonDecreasing(calls) ==> CallBound(cfg, calls)) <==> cfg.tokens == 1
  {
    if cfg.tokens == 1 {
      forall calls | NoClean(calls) && NonDecreasing(calls) ensures CallBound(cfg, calls) {
        OneTokenBoundsCalls(cfg, calls);
      }
    } else {
      BurstBreaksBound(cfg);
    }
  }

  // ---------------------------------------------------------------- what a call reports

  /** The timestamps admitted since the last clean that lie in the closed window before call i. */
  function Recent(cfg: Config, calls: seq<Call>, i: nat): set<int>
    requires i < |calls|
  {
    set t | t in Admitted(cfg, calls[..i]) && t >= calls[i].now - cfg.window
  }

  /** The announced reset is one window after the oldest recent timestamp, or after now if there is none. */
  ghost predicate ResetsAfter(resetMs: int, recent: set<int>, now: int, window: nat) {
    if recent == {} then resetMs == now + window
    else resetMs - window in recent && forall t :: t in recent ==> resetMs - window <= t
  }

  lemma RecentIsWindow(cfg: Config, calls: seq<Call>, i: nat)
    requires cfg.tokens >= 1 && NonDecreasing(calls) && i < |calls|
    ensures Recent(cfg, calls, i) == Window(cfg, LogAfter(cfg, calls[..i]), calls[i].now)
    ensures |Recent(cfg, calls, i)| <= cfg.tokens
  {
    RunIsBounded(cfg, calls[..i]);
    RunForgets(cfg, calls[..i], calls[i].now);
    assert |Window(cfg, LogAfter(cfg, calls[..i]), calls[i].now)| <= cfg.tokens;
    assert Recent(cfg, calls, i) == Window(cfg, LogAfter(cfg, calls[..i]), calls[i].now);
  }

  /** On every run `limit` succeeds exactly while fewer than `tokens` admitted timestamps are recent; it reports the
      tokens left after it, none when it is rejected, and the end of the oldest recent timestamp's window. `check`
      reports the tokens left without taking one. */
  lemma ReportsTokensLeft(cfg: Config, calls: seq<Call>, i: nat)
    requires cfg.tokens >= 1 && NonDecreasing(calls) && i < |calls| && !calls[i].Clean?
    ensures var recent, answer := Recent(cfg, calls, i), Answer(cfg, calls, i);
            answer.Some?
            && var r := answer.value;
               && (r.success <==> |recent| < cfg.tokens)
               && r.limit == cfg.tokens && r.windowMs == cfg.window
               && ResetsAfter(r.resetMs, recent, calls[i].now, cfg.window)
               && r.remaining == (if !r.success then 0
                                  else if calls[i].Limit? then cfg.tokens - |recent| - 1
                                  else cfg.tokens - |recent|)
  {
    RecentIsWindow(cfg, calls, i);
    LazyTrimmingRefinesFullLog(cfg, calls, i);
  }

  /** A clock that goes back meets timestamps ahead of it: `limit` keeps them, is admitted, and from then on the whole
      key is dropped after as many seconds as the window has milliseconds. */
  lemma FutureStampsExpire(cfg: Config, key: Key, now: int)
    requires cfg.tokens >= 1 && cfg.window >= 1
    requires key.expireAt == None && key.scores != {} && forall t :: t in key.scores ==> t > now
    ensures var (next, answer) := Step(cfg, key, Limit(now));
            && answer.value.success && next == Key(key.scores + {now}, Some(now + 1000 * cfg.window))
            && forall later :: Live(next, later) == if later <= now + 1000 * cfg.window then next else ABSENT
  {
    assert Window(cfg, key.scores, now) == {};
    var kept := RemoveUpTo(Expire(key, now, cfg.window), now - cfg.window);
    assert kept.scores == key.scores;
  }

  // ---------------------------------------------------------------- reset and check

  /** On any stored key and at any instant `check` succeeds exactly when `limit` would; without tokens neither ever
      does. */
  lemma CheckPredictsLimit(cfg: Config, key: Key, now: int)
    ensures Step(cfg, key, Check(now)).1.value.success <==> Step(cfg, key, Limit(now)).1.value.success
    ensures cfg.tokens <= 0 ==> !Step(cfg, key, Limit(now)).1.value.success
  {
  }

  ghost predicate Rejected(cfg: Config, calls: seq<Call>, i: nat)
    requires i < |calls|
  {
    calls[i].Limit? && !Answer(cfg, calls, i).value.success
  }

  /** Once a log has rejected a request, it rejects at every instant up to the announced reset, unchanged,
      and has room right after it. */
  lemma RefReset(cfg: Config, log: set<int>, now: int, t: int)
    requires cfg.tokens >= 1 && Bounded(cfg, log)
    requires (forall s :: s in log ==> s <= now) && now <= t
    requires !RefStep(cfg, log, Limit(now)).1.value.success
    ensures RefStep(cfg, log, Limit(t)).1.value.success <==> t > RefStep(cfg, log, Limit(now)).1.value.resetMs
    ensures t <= RefStep(cfg, log, Limit(now)).1.value.resetMs ==> RefStep(cfg, log, Limit(t)).0 == log
  {
    var full := Window(cfg, log, now);
    var later := Window(cfg, log, t);
    var oldest := Oldest(full);
    if t <= oldest + cfg.window {
      assert full <= later;
      Sets.SubsetIsNoLarger(full, later);
      assert later != {};
    } else {
      assert later <= full && oldest !in later;
      Sets.ProperSubsetIsSmaller(later, full, oldest);
    }
  }

  /** The log just before the last call of a run: bounded and not ahead of that call. */
  lemma LogBeforeLast(cfg: Config, calls: seq<Call>)
    requires cfg.tokens >= 1 && calls != [] && NonDecreasing(calls)
    ensures var log, last := LogAfter(cfg, calls[..|calls| - 1]), calls[|calls| - 1];
            && Bounded(cfg, log)
            && (forall t :: t in log ==> t <= last.now)
            && Answer(cfg, calls, |calls| - 1) == RefStep(cfg, log, last).1
            && LogAfter(cfg, calls) == RefStep(cfg, log, last).0
  {
    var n := |calls| - 1;
    RunIsBounded(cfg, calls[..n]);
    RunForgets(cfg, calls[..n], calls[n].now);
    LazyTrimmingRefinesFullLog(cfg, calls, n);
  }

  lemma PrefixIsNonDecreasing(calls: seq<Call>, more: seq<Call>)
    requires NonDecreasing(calls + more)
    ensures NonDecreasing(calls)
    ensures calls != [] ==> forall k :: 0 <= k < |more| ==> calls[|calls| - 1].now <= more[k].now
  {
    var run := calls + more;
    assert forall i :: 0 <= i < |calls| ==> run[i] == calls[i];
    assert forall k :: 0 <= k < |more| ==> run[|calls| + k] == more[k];
  }

  lemma {:induction false} RejectedStays(cfg: Config, calls: seq<Call>, more: seq<Call>, reset: int)
    requires cfg.tokens >= 1 && calls != [] && NonDecreasing(calls + more)
    requires Rejected(cfg, calls, |calls| - 1) && NoClean(more)
    requires reset == Answer(cfg, calls, |calls| - 1).value.resetMs
    requires forall k :: 0 <= k < |more| ==> more[k].now <= reset
    ensures LogAfter(cfg, calls + more) == LogAfter(cfg, calls[..|calls| - 1])
    decreases |more|
  {
    PrefixIsNonDecreasing(calls, more);
    LogBeforeLast(cfg, calls);
    if more == [] {
      assert calls + more == calls;
    } else {
      var m, run := |more| - 1, calls + more;
      assert run[..|run| - 1] == calls + more[..m] && run[|run| - 1] == more[m];
      assert run == (calls + more[..m]) + more[m..];
      PrefixIsNonDecreasing(calls + more[..m], more[m..]);
      RejectedStays(cfg, calls, more[..m], reset);
      RefReset(cfg, LogAfter(cfg, calls[..|calls| - 1]), calls[|calls| - 1].now, more[m].now);
    }
  }

  /** After a rejected `limit`, whatever is checked or tried up to the announced reset, the next `limit` is
      rejected up to and including that instant and admitted at any instant after it. */
  lemma ExactReset(cfg: Config, calls: seq<Call>, more: seq<Call>, t: int)
    requires cfg.tokens >= 1 && calls != [] && NonDecreasing(calls + more + [Limit(t)])
    requires Rejected(cfg, calls, |calls| - 1) && NoClean(more)
    requires forall k :: 0 <= k < |more| ==> more[k].now <= Answer(cfg, calls, |calls| - 1).value.resetMs
    ensures Admits(cfg, calls + more + [Limit(t)], |calls| + |more|)
            <==> t > Answer(cfg, calls, |calls| - 1).value.resetMs
  {
    var run := calls + more + [Limit(t)];
    var reset := Answer(cfg, calls, |calls| - 1).value.resetMs;
    assert run[..|run| - 1] == calls + more && run == calls + (more + [Limit(t)]);
    PrefixIsNonDecreasing(calls + more, [Limit(t)]);
    PrefixIsNonDecreasing(calls, more + [Limit(t)]);
    assert (more + [Limit(t)])[|more|] == Limit(t);
    RejectedStays(cfg, calls, more, reset);
    LogBeforeLast(cfg, calls);
    LogBeforeLast(cfg, run);
    RefReset(cfg, LogAfter(cfg, calls[..|calls| - 1]), calls[|calls| - 1].now, t);
  }
}
