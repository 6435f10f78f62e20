/** The ticket polling circuit breaker: exponential backoff over runs of failures. Times are in seconds. */
module Breaker {
  import opened Wrappers

  const U32: int := 0x1_0000_0000
  const MAX_DELAY: int := 900

  datatype BreakerState = BreakerState(failures: nat, nextAllowed: int)

  function BaseBackoff(status: Option<int>): int {
    if status == Some(401) || status == Some(404) then 120
    else if status == Some(429) then 300
    else 30
  }

  /** 1 << shift, for the shifts that occur. */
  function Shl(shift: int): int {
    if shift <= 0 then 1 else if shift == 1 then 2 else if shift == 2 then 4
    else if shift == 3 then 8 else if shift == 4 then 16 else 32
  }

  function Min(x: int, y: int): int {
    if x < y then x else y
  }

  /** The backoff doubles with each failure up to the sixth and is capped at 15 minutes. */
  function Delay(status: Option<int>, fails: nat): int {
    Min(BaseBackoff(status) * Shl(Min(fails, 6) - 1), MAX_DELAY)
  }

  /** The failure counter is 32 bits wide and wraps. */
  function AfterFailure(b: BreakerState, status: Option<int>, now: int): BreakerState {
    var fails := (b.failures + 1) % U32;
    BreakerState(fails, now + Delay(status, fails))
  }

  predicate Allows(b: BreakerState, now: int) {
    b.nextAllowed <= now
  }

  class TicketSyncCircuitBreaker {
    var consecutiveFailures: nat
    var nextAllowedTime: int

    function State(): BreakerState
      reads this
    {
      BreakerState(consecutiveFailures, nextAllowedTime)
    }

    constructor ()
      ensures State() == BreakerState(0, 0)
    {
      consecutiveFailures, nextAllowedTime := 0, 0;
    }

    method CanRequest(now: int) returns (permitted: bool)
      ensures permitted <==> Allows(State(), now)
    {
      permitted := now >= nextAllowedTime;
    }

    method RecordSuccess()
      modifies this
      ensures State() == BreakerState(0, 0)
    {
      consecutiveFailures := 0;
      nextAllowedTime := 0;
    }

    method RecordFailure(status: Option<int>, now: int)
      modifies this
      ensures State() == AfterFailure(old(State()), status, now)
    {
      consecutiveFailures := (consecutiveFailures + 1) % U32;
      var fails: int := consecutiveFailures;
      var baseBackoff := 30;
      if status == Some(401) || status == Some(404) {
        baseBackoff := 120;
      } else if status == Some(429) {
        baseBackoff := 300;
      }
      var delay := baseBackoff * Shl(Min(fails, 6) - 1);
      if delay > MAX_DELAY { delay := MAX_DELAY; }
      nextAllowedTime := now + delay;
    }

    method Reset()
      modifies this
      ensures State() == BreakerState(0, 0)
    {
      consecutiveFailures := 0;
      nextAllowedTime := 0;
    }
  }

  // ----- Delays ---------------------------------------------------------------------------

  /** Every delay lies from 30 to 900 seconds, never shrinks as failures mount, and is never
      shorter than the delay of a plain network failure. */
  lemma DelayBounds(status: Option<int>, fails: nat, more: nat)
    requires fails <= more
    ensures 30 <= Delay(status, fails) <= Delay(status, more) <= MAX_DELAY
    ensures Delay(None, fails) <= Delay(status, more)
  {
  }

  /** After a failure requests are refused for at least 30 seconds and allowed again after at most
      900, whatever came before; and the more failures came before, the later. */
  lemma RefusedAfterFailure(b: BreakerState, worse: BreakerState, status: Option<int>, failedAt: int, now: int)
    requires b.failures <= worse.failures < U32 - 1
    ensures now < failedAt + 30 ==> !Allows(AfterFailure(b, status, failedAt), now)
    ensures failedAt + MAX_DELAY <= now ==> Allows(AfterFailure(b, status, failedAt), now)
    ensures Allows(AfterFailure(worse, status, failedAt), now) ==> Allows(AfterFailure(b, status, failedAt), now)
  {
    hide Delay;
    DelayBounds(status, b.failures + 1, worse.failures + 1);
  }

  /** From a fresh breaker: refused for 5 minutes after a 429, for 2 after a 401 or 404, for 30 seconds
      otherwise. */
  lemma FirstBackoff(status: Option<int>, failedAt: int, now: int)
    ensures Allows(AfterFailure(BreakerState(0, 0), status, failedAt), now)
       <==> failedAt + (match status
                        case Some(code) => if code == 429 then 300 else if code == 401 || code == 404 then 120 else 30
                        case None => 30) <= now
  {
  }

  /** Each further failure doubles the wait until it is 900 seconds, and at most until the sixth. */
  lemma BackoffDoubles(status: Option<int>, fails: nat)
    requires 1 <= fails
    ensures Delay(status, fails + 1) == if fails <= 5 then Min(2 * Delay(status, fails), 900) else Delay(status, fails)
    ensures 6 <= fails ==> Delay(status, fails) == 900
  {
  }

  // ----- Runs of failures --------------------------------------------------------------------

  /** A request sent at `sentAt` that is recorded as failed at `failedAt`. */
  datatype Attempt = Attempt(sentAt: int, failedAt: int, status: Option<int>)

  function Run(b: BreakerState, attempts: seq<Attempt>): BreakerState {
    if attempts == [] then b
    else
      var last := attempts[|attempts| - 1];
      AfterFailure(Run(b, attempts[..|attempts| - 1]), last.status, last.failedAt)
  }

  /** Each request was permitted when it was sent, and failed no earlier than it was sent. */
  predicate Permitted(b: BreakerState, attempts: seq<Attempt>) {
    attempts == [] ||
    var n := |attempts| - 1;
    && Permitted(b, attempts[..n])
    && Allows(Run(b, attempts[..n]), attempts[n].sentAt) && attempts[n].sentAt <= attempts[n].failedAt
  }

  /** The counter after `n` failures in all, since it was last at zero. */
  function Wrapped(n: nat): nat {
    n % U32
  }

  lemma WrappedNext(n: nat, status: Option<int>, t: int, now: int)
    ensures AfterFailure(BreakerState(Wrapped(n), t), status, now)
         == BreakerState(Wrapped(n + 1), now + Delay(status, Wrapped(n + 1)))
  {
    hide Delay;
    assert (n % U32 + 1) % U32 == (n + 1) % U32;
  }

  lemma WrappedIs(n: nat)
    requires n < 2 * U32
    ensures Wrapped(n) == if n < U32 then n else n - U32
  {
    if n < U32 {
      assert n % U32 == n;
    } else {
      assert (n - U32) % U32 == n - U32;
    }
  }

  /** The least time from the first to the last of `n` failing requests when the counter starts at `f`. */
  function LeastSpan(f: nat, n: nat): int {
    if n <= 1 then 0 else LeastSpan(f, n - 1) + Delay(None, Wrapped(f + n - 1))
  }

  lemma {:induction false} NextAllowedGrows(b: BreakerState, attempts: seq<Attempt>)
    requires Permitted(b, attempts) && attempts != [] && b.failures < U32
    ensures Run(b, attempts).failures == Wrapped(b.failures + |attempts|)
    ensures attempts[0].sentAt + LeastSpan(b.failures, |attempts|) <= attempts[|attempts| - 1].sentAt
    ensures attempts[0].sentAt + LeastSpan(b.failures, |attempts| + 1) <= Run(b, attempts).nextAllowed
  {
    hide Delay, AfterFailure, Wrapped;
    var n := |attempts| - 1;
    var last := attempts[n];
    if n > 0 {
      NextAllowedGrows(b, attempts[..n]);
    }
    WrappedIs(b.failures);
    var before := Run(b, attempts[..n]);
    assert before == BreakerState(Wrapped(b.failures + n), before.nextAllowed);
    WrappedNext(b.failures + n, last.status, before.nextAllowed, last.failedAt);
    DelayBounds(last.status, Wrapped(b.failures + n + 1), Wrapped(b.failures + n + 1));
  }

  /** The fastest run from a state: each request is sent as soon as it is permitted, and each is a
      network failure recorded at once. */
  function Fastest(b: BreakerState, n: nat): seq<Attempt> {
    if n == 0 then []
    else
      var t := b.nextAllowed + LeastSpan(b.failures, n);
      Fastest(b, n - 1) + [Attempt(t, t, None)]
  }

  lemma {:induction false} FastestEnds(b: BreakerState, n: nat)
    ensures |Fastest(b, n)| == n
    ensures n > 0 ==> Fastest(b, n)[0].sentAt == b.nextAllowed
    ensures n > 0 ==> var t := b.nextAllowed + LeastSpan(b.failures, n); Fastest(b, n)[n - 1] == Attempt(t, t, None)
    ensures n > 0 ==> Fastest(b, n)[..n - 1] == Fastest(b, n - 1)
  {
    if n > 0 { FastestEnds(b, n - 1); }
  }

  /** The least span is met by a permitted run, from every state and for every `n`. */
  lemma {:induction false} FastestMeetsTheLeastSpan(b: BreakerState, n: nat)
    requires 0 < n && b.failures < U32
    ensures |Fastest(b, n)| == n && Permitted(b, Fastest(b, n))
    ensures Run(b, Fastest(b, n)) == BreakerState(Wrapped(b.failures + n), b.nextAllowed + LeastSpan(b.failures, n + 1))
    ensures Fastest(b, n)[n - 1].sentAt - Fastest(b, n)[0].sentAt == LeastSpan(b.failures, n)
  {
    hide Delay, Fastest, AfterFailure, Wrapped;
    FastestEnds(b, n);
    FastestEnds(b, n - 1);
    var t := b.nextAllowed + LeastSpan(b.failures, n);
    if n == 1 {
      WrappedIs(b.failures);
      assert Run(b, Fastest(b, 0)) == b;
    } else {
      FastestMeetsTheLeastSpan(b, n - 1);
    }
    WrappedNext(b.failures + n - 1, None, t, t);
  }

  // ----- How long runs of failures take --------------------------------------------------------------

  /** How far a run stays behind a run of longest delays. */
  function Shortfall(f: nat, n: nat): int {
    MAX_DELAY * (n - 1) - LeastSpan(f, n)
  }

  lemma ShortfallStep(f: nat, n: nat)
    requires 0 < n
    ensures Shortfall(f, n + 1) == Shortfall(f, n) + MAX_DELAY - Delay(None, Wrapped(f + n))
    ensures Shortfall(f, n) <= Shortfall(f, n + 1)
  {
    hide Wrapped;
  }

  /** What the short delays after the first `f` failures lose in all. */
  function Lost(f: nat): int {
    if f == 0 then 3570 else if f == 1 then 2700 else if f == 2 then 1860
    else if f == 3 then 1080 else if f == 4 then 420 else 0
  }

  /** Before the counter wraps nothing is lost but at its start. */
  lemma {:induction false} ShortfallBeforeWrap(f: nat, n: nat)
    requires 0 < n && f + n <= U32 && (5 <= f || 6 <= n)
    ensures Shortfall(f, n) == Lost(f)
    decreases n
  {
    hide LeastSpan, Wrapped, Shortfall;
    if n == 1 {
      NothingYet(f);
    } else if n == 6 && f < 5 {
      ShortStart(f);
    } else {
      ShortfallBeforeWrap(f, n - 1);
      ShortfallStep(f, n - 1);
      WrappedIs(f + n - 1);
    }
  }

  lemma NothingYet(f: nat)
    ensures Shortfall(f, 1) == 0
  {
  }

  lemma ShortStart(f: nat)
    requires f < 5
    ensures Shortfall(f, 6) == Lost(f)
  {
    hide Wrapped, Shortfall, LeastSpan;
    NothingYet(f);
    StepBeforeWrap(f, 1);
    StepBeforeWrap(f, 2);
    StepBeforeWrap(f, 3);
    StepBeforeWrap(f, 4);
    StepBeforeWrap(f, 5);
  }

  lemma StepBeforeWrap(f: nat, n: nat)
    requires 0 < n && f + n < U32
    ensures Shortfall(f, n + 1) == Shortfall(f, n) + MAX_DELAY - Delay(None, f + n)
  {
    hide Wrapped, Shortfall;
    ShortfallStep(f, n);
    WrappedIs(f + n);
  }

  /** What the first `w` delays after the wrap lose. */
  function LostAfterWrap(w: nat): int
    requires w <= 5
  {
    [0, 870, 1740, 2580, 3360, 4020][w]
  }

  lemma {:induction false} ShortfallAfterWrap(f: nat, w: nat)
    requires f < U32 && (5 <= f || f + 6 <= U32) && w <= 5
    ensures Shortfall(f, U32 - f + w) == Lost(f) + LostAfterWrap(w)
    decreases w
  {
    if w == 0 {
      ShortfallBeforeWrap(f, U32 - f);
    } else {
      ShortfallAfterWrap(f, w - 1);
      ShortfallStep(f, U32 - f + w - 1);
      WrappedIs(U32 + w - 1);
    }
  }

  lemma {:induction false} ShortfallGrows(f: nat, n: nat, more: nat)
    requires 0 < n <= more
    ensures Shortfall(f, n) <= Shortfall(f, more)
    decreases more - n
  {
    if n < more {
      ShortfallStep(f, n);
      ShortfallGrows(f, n + 1, more);
    }
  }

  /** How many failures after the wrap a run can take in without falling short of the bound. */
  function Slack(f: nat): nat {
    if f == 0 then 0 else if f <= 2 then 1 else if f == 3 then 2 else if f == 4 then 3 else 4
  }

  /** The least span reaches 930 + 900 (n - 6) exactly while the wrap is not passed by more than the slack. */
  lemma LeastSpanReaches(f: nat, n: nat)
    requires 6 <= n && f < U32
    ensures 930 + 900 * (n - 6) <= LeastSpan(f, n) <==> f + n <= 0x1_0000_0000 + Slack(f)
  {
    hide LeastSpan, Wrapped;
    assert 930 + 900 * (n - 6) <= LeastSpan(f, n) <==> Shortfall(f, n) <= 3570;
    hide Shortfall;
    if f + n <= U32 {
      ShortfallBeforeWrap(f, n);
    } else {
      var w := f + n - U32;
      if w <= 5 {
        ShortfallAfterWrap(f, w);
        assert U32 - f + w == n;
      } else {
        ShortfallAfterWrap(f, 5);
        ShortfallGrows(f, U32 - f + 5, n);
      }
    }
  }

  /** In any run of at least six permitted requests that all fail, whatever the mix of status
      codes and whatever came before, the first and the last are at least 930 + 900 (n - 6)
      seconds apart, unless the counter wraps more than the slack before the last one. */
  lemma FailuresAreSpread(b: BreakerState, attempts: seq<Attempt>)
    requires Permitted(b, attempts) && 6 <= |attempts| && b.failures < U32
    requires b.failures + |attempts| <= U32 + Slack(b.failures)
    ensures 930 + 900 * (|attempts| - 6) <= attempts[|attempts| - 1].sentAt - attempts[0].sentAt
  {
    NextAllowedGrows(b, attempts);
    LeastSpanReaches(b.failures, |attempts|);
  }

  /** From any state of the breaker the span law holds for all runs of `n` failures, if and only if
      the 32-bit counter does not pass its wrap by more than the slack. */
  lemma {:induction false} SpanLawHoldsExactlyWhen(b: BreakerState, n: nat)
    requires 6 <= n && b.failures < U32
    ensures (forall attempts: seq<Attempt> :: |attempts| == n && Permitted(b, attempts) ==>
               930 + 900 * (n - 6) <= attempts[n - 1].sentAt - attempts[0].sentAt)
       <==> b.failures + n <= U32 + Slack(b.failures)
  {
    hide Permitted, Fastest, LeastSpan, Slack;
    if b.failures + n <= U32 + Slack(b.failures) {
      forall attempts: seq<Attempt> | |attempts| == n && Permitted(b, attempts)
        ensures 930 + 900 * (n - 6) <= attempts[n - 1].sentAt - attempts[0].sentAt
      {
        FailuresAreSpread(b, attempts);
      }
    } else {
      FastestMeetsTheLeastSpan(b, n);
      LeastSpanReaches(b.failures, n);
    }
  }
}
