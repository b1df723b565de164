/**
  `throttle(func, delay)`: a wrapper that forwards a call to `func` only when
  at least `delay` milliseconds have passed since the last forwarded call.
  The clock, `Date.now()`, is a parameter of each call; `func` itself is not
  modelled, only the decision to call it.
*/
module Throttle {

  /** The value of `lastCall` once these calls have been forwarded: 0 before any. */
  function LastCall(forwarded: seq<int>): (last: int) {
    if forwarded == [] then 0 else forwarded[|forwarded| - 1]
  }

  /** The times among `calls`, in order, that a fresh throttle with `delay` forwards. */
  function Forwarded(calls: seq<int>, delay: int): (f: seq<int>)
    ensures |f| <= |calls|
  {
    if calls == [] then []
    else
      var prev := Forwarded(calls[..|calls| - 1], delay);
      var now := calls[|calls| - 1];
      if now - LastCall(prev) >= delay then prev + [now] else prev
  }

  /** Every forwarded time is the time of some call. */
  lemma {:induction false} ForwardedAreCalls(calls: seq<int>, delay: int)
    ensures forall i :: 0 <= i < |Forwarded(calls, delay)| ==> Forwarded(calls, delay)[i] in calls
  {
    if calls != [] {
      var init := calls[..|calls| - 1];
      ForwardedAreCalls(init, delay);
      assert forall t :: t in init ==> t in calls;
    }
  }

  /**
    Forwarded calls are at least `delay` apart, and the first one is at least
    `delay` after time 0.
  */
  lemma {:induction false} ForwardedSpaced(calls: seq<int>, delay: int)
    ensures var f := Forwarded(calls, delay);
      (|f| > 0 ==> f[0] >= delay) &&
      forall i :: 0 < i < |f| ==> f[i] - f[i - 1] >= delay
  {
    if calls != [] {
      ForwardedSpaced(calls[..|calls| - 1], delay);
    }
  }

  /** The j-th forwarded call comes at least `(j - i) * delay` after the i-th. */
  lemma {:induction false} ForwardedGap(calls: seq<int>, delay: int, i: nat, j: nat)
    requires i <= j < |Forwarded(calls, delay)|
    ensures Forwarded(calls, delay)[j] - Forwarded(calls, delay)[i] >= (j - i) * delay
  {
    if j > i {
      ForwardedGap(calls, delay, i, j - 1);
      ForwardedSpaced(calls, delay);
      assert (j - i) * delay == (j - 1 - i) * delay + delay;
    }
  }

  /**
    The rate limit over any window: with a positive delay, when the i-th and
    the j-th forwarded calls both fall in a window of `k * delay`
    milliseconds, so do all those between them, and there are at most `k`.
  */
  lemma WindowLimit(calls: seq<int>, delay: int, start: int, k: nat, i: nat, j: nat)
    requires delay > 0
    requires i <= j < |Forwarded(calls, delay)|
    requires start <= Forwarded(calls, delay)[i] && Forwarded(calls, delay)[j] < start + k * delay
    ensures j - i + 1 <= k
  {
    ForwardedGap(calls, delay, i, j);
    CancelFactor(j - i, k, delay);
  }

  /**
    The rate limit over a whole history: when every call falls in a window
    of `k * delay` milliseconds, with a positive delay, at most `k` of them
    are forwarded.
  */
  lemma RateLimit(calls: seq<int>, delay: int, start: int, k: nat)
    requires delay > 0
    requires forall i :: 0 <= i < |calls| ==> start <= calls[i] < start + k * delay
    ensures |Forwarded(calls, delay)| <= k
  {
    var f := Forwarded(calls, delay);
    if f != [] {
      ForwardedAreCalls(calls, delay);
      assert f[0] in calls && f[|f| - 1] in calls;
      WindowLimit(calls, delay, start, k, 0, |f| - 1);
    }
  }

  /** Dividing both sides of `a * d < b * d` by a positive `d`. */
  lemma CancelFactor(a: int, b: int, d: int)
    requires d > 0 && a * d < b * d
    ensures a < b
  {
    assert (b - a) * d > 0;
  }

  /** The closure `throttle` returns, with its captured `lastCall`. */
  class Throttled {
    const delay: int
    var lastCall: int
    /** The times it has been called, and those it forwarded. */
    ghost var calls: seq<int>
    ghost var forwarded: seq<int>

    ghost predicate Valid()
      reads this
    {
      forwarded == Forwarded(calls, delay) && lastCall == LastCall(forwarded)
    }

    /** `throttle(func, delay)`: `lastCall` starts at 0. */
    constructor (delay: int)
      ensures Valid()
      ensures this.delay == delay && lastCall == 0 && calls == []
    {
      this.delay := delay;
      lastCall := 0;
      calls, forwarded := [], [];
    }

    /** One call at time `now`: forwarded exactly when `now - lastCall >= delay`. */
    method Invoke(now: int) returns (forward: bool)
      requires Valid()
      modifies this
      ensures Valid()
      ensures forward <==> now - old(lastCall) >= delay
      ensures lastCall == if forward then now else old(lastCall)
      ensures calls == old(calls) + [now]
      ensures forwarded == if forward then old(forwarded) + [now] else old(forwarded)
    {
      calls := calls + [now];
      assert calls[..|calls| - 1] == old(calls);
      forward := now - lastCall >= delay;
      if forward {
        lastCall := now;
        forwarded := forwarded + [now];
      }
    }
  }
}
