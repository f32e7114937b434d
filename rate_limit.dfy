/** `security.createRateLimit` of `src/utils/validation.js`: a per-identifier
    sliding-window limiter.  The clock is an input: every call is given `now`
    in milliseconds. */
module RateLimit {
  import opened Wrappers

  /** The answer of one call.  `resetTime` is `None` where the source computes
      `undefined + windowMs`, that is NaN: a rejection while no attempt is
      kept, which only a `maxAttempts` of 0 or less allows. */
  datatype Decision = Allowed(attemptsLeft: int) | Blocked(resetTime: Option<int>)

  /** The attempts kept for `id`: `attempts.get(id) || []`. */
  function Stored(attempts: map<string, seq<int>>, id: string): seq<int> {
    if id in attempts then attempts[id] else []
  }

  /** `times.filter(time => now - time < windowMs)`: the attempts still inside
      the window, in their stored order. */
  function Recent(times: seq<int>, now: int, windowMs: int): (r: seq<int>)
    ensures |r| <= |times|
    ensures forall k | 0 <= k < |r| :: now - r[k] < windowMs
  {
    if times == [] then []
    else (if now - times[0] < windowMs then [times[0]] else []) + Recent(times[1..], now, windowMs)
  }

  /** Filtering keeps exactly the attempts inside the window. */
  lemma {:induction false} RecentMembers(times: seq<int>, now: int, windowMs: int)
    ensures forall t :: t in Recent(times, now, windowMs) <==> t in times && now - t < windowMs
  {
    if times != [] {
      RecentMembers(times[1..], now, windowMs);
      assert times == [times[0]] + times[1..];
    }
  }

  /** One call of the limiter for `id` at time `now`: the new map and the
      answer. */
  function Step(attempts: map<string, seq<int>>, id: string, now: int, maxAttempts: int, windowMs: int)
    : (map<string, seq<int>>, Decision)
  {
    var recent := Recent(Stored(attempts, id), now, windowMs);
    if |recent| >= maxAttempts then
      (attempts, Blocked(if recent == [] then None else Some(recent[0] + windowMs)))
    else
      var kept := recent + [now];
      (attempts[id := kept], Allowed(maxAttempts - |kept|))
  }

  /** What one call does. */
  lemma StepSpec(attempts: map<string, seq<int>>, id: string, now: int, maxAttempts: int, windowMs: int)
    ensures var res := Step(attempts, id, now, maxAttempts, windowMs);
      var recent := Recent(Stored(attempts, id), now, windowMs);
      // rejected exactly when the window already holds maxAttempts attempts
      && (res.1.Allowed? <==> |recent| < maxAttempts)
      // a rejection stores nothing
      && (res.1.Blocked? ==> res.0 == attempts)
      // an acceptance replaces the list by the kept attempts and `now`
      && (res.1.Allowed? ==> Stored(res.0, id) == recent + [now])
      && (res.1.Allowed? ==> 0 <= res.1.attemptsLeft == maxAttempts - |Stored(res.0, id)|)
      // the reset time is the first kept attempt plus the window
      && (res.1.Blocked? && recent != [] ==> res.1.resetTime == Some(recent[0] + windowMs))
    // no other identifier is touched
    ensures var res := Step(attempts, id, now, maxAttempts, windowMs);
      && (forall other | other != id :: Stored(res.0, other) == Stored(attempts, other))
      && (res.0.Keys == attempts.Keys || res.0.Keys == attempts.Keys + {id})
  {
  }

  /** The closure `createRateLimit(maxAttempts, windowMs)` returns, with the
      `Map` it closes over as a field. */
  class RateLimiter {
    const maxAttempts: int
    const windowMs: int
    var attempts: map<string, seq<int>>

    constructor (maxAttempts: int, windowMs: int)
      ensures this.maxAttempts == maxAttempts && this.windowMs == windowMs
      ensures attempts == map[]
    {
      this.maxAttempts := maxAttempts;
      this.windowMs := windowMs;
      attempts := map[];
    }

    /** One call of the closure for `identifier` at time `now`. */
    method Check(identifier: string, now: int) returns (decision: Decision)
      modifies this
      ensures attempts == Step(old(attempts), identifier, now, maxAttempts, windowMs).0
      ensures decision == Step(old(attempts), identifier, now, maxAttempts, windowMs).1
    {
      var userAttempts := if identifier in attempts then attempts[identifier] else [];
      assert userAttempts == Stored(attempts, identifier);
      var recentAttempts := Recent(userAttempts, now, windowMs);
      if |recentAttempts| >= maxAttempts {
        decision := Blocked(if |recentAttempts| == 0 then None else Some(recentAttempts[0] + windowMs));
        return;
      }
      recentAttempts := recentAttempts + [now];
      attempts := attempts[identifier := recentAttempts];
      decision := Allowed(maxAttempts - |recentAttempts|);
    }
  }

  /** Successive calls for one identifier at the given times. */
  function Run(attempts: map<string, seq<int>>, id: string, times: seq<int>, maxAttempts: int, windowMs: int)
    : (res: (map<string, seq<int>>, seq<Decision>))
    ensures |res.1| == |times|
    decreases |times|
  {
    if times == [] then (attempts, [])
    else
      var first := Step(attempts, id, times[0], maxAttempts, windowMs);
      var rest := Run(first.0, id, times[1..], maxAttempts, windowMs);
      (rest.0, [first.1] + rest.1)
  }

  predicate Within(times: seq<int>, lo: int, hi: int) {
    forall k | 0 <= k < |times| :: lo <= times[k] <= hi
  }

  predicate Sorted(times: seq<int>) {
    forall i, j | 0 <= i < j < |times| :: times[i] <= times[j]
  }

  /** Nothing is dropped while every attempt is inside the window. */
  lemma {:induction false} RecentKeepsAll(times: seq<int>, now: int, windowMs: int)
    requires forall k | 0 <= k < |times| :: now - times[k] < windowMs
    ensures Recent(times, now, windowMs) == times
  {
    if times != [] {
      RecentKeepsAll(times[1..], now, windowMs);
      assert times == [times[0]] + times[1..];
    }
  }

  /** Nothing is kept once every attempt is at least a window old. */
  lemma {:induction false} RecentNoneLeft(times: seq<int>, now: int, windowMs: int)
    requires forall k | 0 <= k < |times| :: now - times[k] >= windowMs
    ensures Recent(times, now, windowMs) == []
  {
    if times != [] {
      RecentNoneLeft(times[1..], now, windowMs);
    }
  }

  /** Filtering keeps the order of a sorted list. */
  lemma {:induction false} RecentSorted(times: seq<int>, now: int, windowMs: int)
    requires Sorted(times)
    ensures Sorted(Recent(times, now, windowMs))
  {
    if times != [] {
      var rest := Recent(times[1..], now, windowMs);
      RecentSorted(times[1..], now, windowMs);
      RecentMembers(times[1..], now, windowMs);
      forall k | 0 <= k < |rest| ensures times[0] <= rest[k] {
        assert rest[k] in times[1..];
        var j :| 0 <= j < |times[1..]| && times[1..][j] == rest[k];
      }
    }
  }

  /** With a clock that does not go back, the kept list stays sorted, so a
      rejection's reset time comes from the oldest kept attempt. */
  lemma StepKeepsOrder(attempts: map<string, seq<int>>, id: string, now: int, maxAttempts: int, windowMs: int)
    requires Sorted(Stored(attempts, id))
    requires forall t | t in Stored(attempts, id) :: t <= now
    ensures var res := Step(attempts, id, now, maxAttempts, windowMs);
      && Sorted(Stored(res.0, id))
      && (res.1.Blocked? && res.1.resetTime.Some? ==>
            forall t | t in Recent(Stored(attempts, id), now, windowMs) :: res.1.resetTime.value - windowMs <= t)
  {
    var stored := Stored(attempts, id);
    var recent := Recent(stored, now, windowMs);
    RecentSorted(stored, now, windowMs);
    RecentMembers(stored, now, windowMs);
    var res := Step(attempts, id, now, maxAttempts, windowMs);
    if res.1.Allowed? {
      var kept := recent + [now];
      assert Stored(res.0, id) == kept;
      forall i, j | 0 <= i < j < |kept| ensures kept[i] <= kept[j] {
        if j == |recent| { assert kept[i] == recent[i] && recent[i] in stored; }
      }
    } else if res.1.resetTime.Some? {
      forall t | t in recent ensures recent[0] <= t {
        var j :| 0 <= j < |recent| && recent[j] == t;
      }
    }
  }

  /** Once every stored attempt is at least a window old, the next call is
      allowed again and starts a fresh list. */
  lemma WindowExpires(attempts: map<string, seq<int>>, id: string, now: int, maxAttempts: int, windowMs: int)
    requires maxAttempts >= 1
    requires forall k | 0 <= k < |Stored(attempts, id)| :: now - Stored(attempts, id)[k] >= windowMs
    ensures Step(attempts, id, now, maxAttempts, windowMs).1 == Allowed(maxAttempts - 1)
    ensures Stored(Step(attempts, id, now, maxAttempts, windowMs).0, id) == [now]
  {
    RecentNoneLeft(Stored(attempts, id), now, windowMs);
  }

  /** A call never leaves more than `maxAttempts` attempts kept, so a list
      that starts within the bound stays within it. */
  lemma StepKeepsBound(attempts: map<string, seq<int>>, id: string, now: int, maxAttempts: int, windowMs: int)
    requires |Stored(attempts, id)| <= maxAttempts
    ensures |Stored(Step(attempts, id, now, maxAttempts, windowMs).0, id)| <= maxAttempts
  {
  }

  /** A blocked identifier is let through again once its oldest kept attempt
      has left the window: dropping that one attempt leaves room. */
  lemma AllowedAfterReset(attempts: map<string, seq<int>>, id: string, now: int, maxAttempts: int, windowMs: int)
    requires Stored(attempts, id) != [] && |Stored(attempts, id)| <= maxAttempts
    requires now >= Stored(attempts, id)[0] + windowMs
    ensures Step(attempts, id, now, maxAttempts, windowMs).1.Allowed?
  {
    var s := Stored(attempts, id);
    assert Recent(s, now, windowMs) == Recent(s[1..], now, windowMs);
  }

  /** The converse: while a full, sorted list's oldest attempt is inside the
      window, every call is refused, with that attempt's time plus the
      window as the reset time. */
  lemma BlockedBeforeReset(attempts: map<string, seq<int>>, id: string, now: int, maxAttempts: int, windowMs: int)
    requires maxAttempts >= 1 && |Stored(attempts, id)| == maxAttempts && Sorted(Stored(attempts, id))
    requires now < Stored(attempts, id)[0] + windowMs
    ensures Step(attempts, id, now, maxAttempts, windowMs).1 == Blocked(Some(Stored(attempts, id)[0] + windowMs))
  {
    var s := Stored(attempts, id);
    forall k | 0 <= k < |s| ensures now - s[k] < windowMs {
      if k > 0 {
        assert s[0] <= s[k];
      }
    }
    RecentKeepsAll(s, now, windowMs);
  }

  /** The answer to a call made when `before` attempts are already in the
      window, given the reset time of the oldest one. */
  predicate DecisionAt(d: Decision, before: int, maxAttempts: int, reset: int) {
    && (d.Allowed? <==> before < maxAttempts)
    && (d.Allowed? ==> d.attemptsLeft == maxAttempts - (before + 1))
    && (d.Blocked? && maxAttempts >= 1 ==> d.resetTime == Some(reset))
  }

  predicate FilledOutcome(ds: seq<Decision>, n: int, maxAttempts: int, reset: int) {
    forall k | 0 <= k < |ds| :: DecisionAt(ds[k], n + k, maxAttempts, reset)
  }

  /** The first of the calls that `FillWithinWindow` describes. */
  lemma StepWithinWindow(attempts: map<string, seq<int>>, id: string, now: int,
                         maxAttempts: int, windowMs: int, lo: int, hi: int, later: seq<int>)
    requires hi - lo < windowMs
    requires Within(Stored(attempts, id), lo, hi) && lo <= now <= hi
    ensures var res := Step(attempts, id, now, maxAttempts, windowMs);
      && DecisionAt(res.1, |Stored(attempts, id)|, maxAttempts, (Stored(attempts, id) + [now] + later)[0] + windowMs)
      && Within(Stored(res.0, id), lo, hi)
      && |Stored(res.0, id)| == |Stored(attempts, id)| + (if res.1.Allowed? then 1 else 0)
      && (maxAttempts >= 1 ==> Stored(res.0, id) != [])
      && (maxAttempts >= 1 && Stored(res.0, id) != [] ==>
            (Stored(res.0, id) + later)[0] == (Stored(attempts, id) + [now] + later)[0])
  {
    var stored := Stored(attempts, id);
    RecentKeepsAll(stored, now, windowMs);
    var res := Step(attempts, id, now, maxAttempts, windowMs);
    if res.1.Allowed? {
      assert Stored(res.0, id) == stored + [now];
    } else if maxAttempts >= 1 {
      assert stored != [] && (stored + [now] + later)[0] == stored[0];
    }
  }

  lemma FilledCons(d: Decision, rest: seq<Decision>, n: int, maxAttempts: int, reset: int, reset': int)
    requires DecisionAt(d, n, maxAttempts, reset)
    requires FilledOutcome(rest, if d.Allowed? then n + 1 else n, maxAttempts, reset')
    requires rest != [] && maxAttempts >= 1 ==> reset' == reset
    ensures FilledOutcome([d] + rest, n, maxAttempts, reset)
  {
    var ds := [d] + rest;
    forall k | 0 <= k < |ds| ensures DecisionAt(ds[k], n + k, maxAttempts, reset) {
      if k > 0 {
        assert ds[k] == rest[k - 1];
      }
    }
  }

  /** One more call in front of calls that `FillWithinWindow` describes,
      whose answers are `rest`. */
  lemma FillCons(attempts: map<string, seq<int>>, id: string, times: seq<int>, rest: seq<Decision>,
                 maxAttempts: int, windowMs: int, lo: int, hi: int)
    requires hi - lo < windowMs && times != [] && |rest| == |times| - 1
    requires Within(Stored(attempts, id), lo, hi) && lo <= times[0] <= hi
    requires var next := Step(attempts, id, times[0], maxAttempts, windowMs).0;
      rest != [] ==> FilledOutcome(rest, |Stored(next, id)|, maxAttempts, (Stored(next, id) + times[1..])[0] + windowMs)
    ensures FilledOutcome([Step(attempts, id, times[0], maxAttempts, windowMs).1] + rest, |Stored(attempts, id)|,
                          maxAttempts, (Stored(attempts, id) + times)[0] + windowMs)
  {
    var stored := Stored(attempts, id);
    var first := Step(attempts, id, times[0], maxAttempts, windowMs);
    var next := first.0;
    var reset := (stored + times)[0] + windowMs;
    var reset' := if rest == [] then 0 else (Stored(next, id) + times[1..])[0] + windowMs;
    assert && DecisionAt(first.1, |stored|, maxAttempts, reset)
           && |Stored(next, id)| == (if first.1.Allowed? then |stored| + 1 else |stored|)
           && (rest != [] && maxAttempts >= 1 ==> reset' == reset) by {
      StepWithinWindow(attempts, id, times[0], maxAttempts, windowMs, lo, hi, times[1..]);
      assert stored + [times[0]] + times[1..] == stored + times;
    }
    FilledCons(first.1, rest, |stored|, maxAttempts, reset, reset');
  }

  /** Calls whose times and stored attempts all fit in one window: call `k`
      is allowed exactly when fewer than `maxAttempts` attempts precede it,
      whatever the order of the times. */
  lemma {:induction false} FillWithinWindow(attempts: map<string, seq<int>>, id: string, times: seq<int>,
                                            maxAttempts: int, windowMs: int, lo: int, hi: int)
    requires hi - lo < windowMs
    requires Within(Stored(attempts, id), lo, hi) && Within(times, lo, hi)
    ensures times != [] ==>
      FilledOutcome(Run(attempts, id, times, maxAttempts, windowMs).1, |Stored(attempts, id)|,
                    maxAttempts, (Stored(attempts, id) + times)[0] + windowMs)
    decreases |times|
  {
    if times != [] {
      var first := Step(attempts, id, times[0], maxAttempts, windowMs);
      StepWithinWindow(attempts, id, times[0], maxAttempts, windowMs, lo, hi, times[1..]);
      var rest := Run(first.0, id, times[1..], maxAttempts, windowMs).1;
      FillWithinWindow(first.0, id, times[1..], maxAttempts, windowMs, lo, hi);
      FillCons(attempts, id, times, rest, maxAttempts, windowMs, lo, hi);
      assert Run(attempts, id, times, maxAttempts, windowMs).1 == [first.1] + rest;
    }
  }

  /** With nothing stored and every call within one window of the first, the
      first `maxAttempts` calls are allowed, with one attempt fewer left each
      time, and the next call is rejected until the first call's time plus
      the window. */
  lemma FirstAttemptsThenBlocked(attempts: map<string, seq<int>>, id: string, times: seq<int>,
                                 maxAttempts: int, windowMs: int)
    requires Stored(attempts, id) == []
    requires maxAttempts >= 1 && |times| == maxAttempts + 1
    requires forall k | 0 <= k < |times| :: times[0] <= times[k] < times[0] + windowMs
    ensures var ds := Run(attempts, id, times, maxAttempts, windowMs).1;
      && (forall k | 0 <= k < maxAttempts :: ds[k] == Allowed(maxAttempts - k - 1))
      && ds[maxAttempts] == Blocked(Some(times[0] + windowMs))
  {
    FillWithinWindow(attempts, id, times, maxAttempts, windowMs, times[0], times[0] + windowMs - 1);
    assert ([] + times)[0] == times[0];
    var ds := Run(attempts, id, times, maxAttempts, windowMs).1;
    forall k | 0 <= k <= maxAttempts ensures DecisionAt(ds[k], k, maxAttempts, times[0] + windowMs) {
      assert DecisionAt(ds[k], 0 + k, maxAttempts, times[0] + windowMs);
    }
  }
}
