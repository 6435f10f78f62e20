/** The proactive session-expiry timer. Instants are whole milliseconds, as `Date.now` gives them;
    an `exp` claim (section 4.1.4 of RFC 7519) may fall between two milliseconds. */
module SessionMonitor {
  import opened Wrappers

  const BUFFER: real := 30_000.0
  const MIN_DELAY: real := 1_000.0
  const INT32: int := 0x8000_0000

  /** The expiry instant of the stored token: absent when there is no token, it is malformed, or
      it has no `exp` claim or a claim of zero. */
  type StoredExpiry = Option<real>

  function MsUntilExpiry(expiry: StoredExpiry, now: int): Option<real> {
    if expiry.None? || expiry.value == 0.0 then None
    else if expiry.value > now as real then Some(expiry.value - now as real)
    else Some(0.0)
  }

  /** `setTimeout` cuts its delay to a signed 32-bit whole number and counts negative ones as zero. */
  function ArmedDelay(delay: real): int {
    var low := delay.Floor % (2 * INT32);
    if low < INT32 then low else 0
  }

  function Wait(remaining: real): real {
    var buffer := if BUFFER < remaining then BUFFER else remaining;
    var delay := remaining - buffer;
    if delay < MIN_DELAY then MIN_DELAY else delay
  }

  datatype Monitor = Monitor(authenticated: bool, timer: Option<int>)

  function Expire(m: Monitor): Monitor {
    if m.authenticated then Monitor(false, None) else m
  }

  function Schedule(m: Monitor, expiry: StoredExpiry, now: int): Monitor {
    match MsUntilExpiry(expiry, now)
    case None => m.(timer := None)
    case Some(remaining) =>
      if remaining == 0.0 then Expire(m.(timer := None))
      else m.(timer := Some(now + ArmedDelay(Wait(remaining))))
  }

  /** The timer callback. */
  function Fire(m: Monitor, expiry: StoredExpiry, now: int): Monitor {
    match MsUntilExpiry(expiry, now)
    case None => Expire(m.(timer := None))
    case Some(remaining) =>
      if remaining == 0.0 then Expire(m.(timer := None)) else Schedule(m.(timer := None), expiry, now)
  }

  class SessionTimer {
    var authenticated: bool
    var timer: Option<int>

    function View(): Monitor
      reads this
    {
      Monitor(authenticated, timer)
    }

    /** A log-out also clears a timer that is left over. */
    method HandleSessionExpired()
      modifies this
      ensures View() == Expire(old(View()))
    {
      if !authenticated { return; }
      authenticated := false;
      timer := None;
    }

    method ScheduleExpiryCheck(expiry: StoredExpiry, now: int)
      modifies this
      ensures View() == Schedule(old(View()), expiry, now)
    {
      timer := None;
      var remaining := MsUntilExpiry(expiry, now);
      if remaining.None? { return; }
      if remaining.value == 0.0 {
        HandleSessionExpired();
        return;
      }
      var buffer := if BUFFER < remaining.value then BUFFER else remaining.value;
      var delay := remaining.value - buffer;
      timer := Some(now + ArmedDelay(if delay < MIN_DELAY then MIN_DELAY else delay));
    }

    method OnTimer(expiry: StoredExpiry, now: int)
      modifies this
      ensures View() == Fire(old(View()), expiry, now)
    {
      timer := None;
      var remaining := MsUntilExpiry(expiry, now);
      if remaining.None? || remaining.value == 0.0 {
        HandleSessionExpired();
      } else {
        ScheduleExpiryCheck(expiry, now);
      }
    }
  }

  // ----- Exact timers and an unchanged token -------------------------------------------------

  /** Let the timer fire `n` times, each time at the instant it is due. */
  function FireTimes(m: Monitor, expiry: StoredExpiry, n: nat): Monitor
    decreases n
  {
    if n == 0 || m.timer.None? then m else FireTimes(Fire(m, expiry, m.timer.value), expiry, n - 1)
  }

  /** Rounded up to whole seconds. */
  function Seconds(ms: real): int {
    -((-ms / 1000.0).Floor)
  }

  /** How often the timer fires from `now` until the log-out. */
  function Fires(remaining: real): int {
    if remaining <= 31_000.0 then Seconds(remaining)
    else 1 + Seconds(remaining - Wait(remaining).Floor as real)
  }

  /** The delay to 30 seconds before the expiry, in whole milliseconds, fits 31 bits. */
  predicate Fits(remaining: real) {
    (remaining - BUFFER).Floor < INT32
  }

  lemma ArmedExactly(remaining: real)
    requires 0.0 < remaining && Fits(remaining)
    ensures ArmedDelay(Wait(remaining)) == Wait(remaining).Floor
    ensures remaining <= 31_000.0 ==> ArmedDelay(Wait(remaining)) == 1000
    ensures remaining > 31_000.0 ==>
      ArmedDelay(Wait(remaining)) >= 1000
      && 30_000.0 <= remaining - ArmedDelay(Wait(remaining)) as real < 30_001.0
  {
    assert 0 <= Wait(remaining).Floor < INT32;
  }

  lemma SecondsStep(ms: real)
    ensures Seconds(ms - 1000.0) == Seconds(ms) - 1
    ensures 1000.0 * Seconds(ms) as real - 1000.0 < ms <= 1000.0 * Seconds(ms) as real
  {
    assert -(ms - 1000.0) / 1000.0 == -ms / 1000.0 + 1.0;
  }

  /** The state after the monitor is mounted, or has just rescheduled itself, at `now`. */
  predicate Watching(m: Monitor, expiry: real, now: int) {
    m.authenticated && now as real < expiry && expiry != 0.0
    && m.timer == Some(now + ArmedDelay(Wait(expiry - now as real)))
  }

  /** One second per firing during the last 31 seconds. */
  lemma {:induction false} LastSeconds(m: Monitor, expiry: real, now: int)
    requires Watching(m, expiry, now) && expiry - now as real <= 31_000.0
    ensures var k := Seconds(expiry - now as real);
      && 1 <= k && FireTimes(m, Some(expiry), k) == Monitor(false, None)
      && DueAfter(m, Some(expiry), k - 1) == now + 1000 * k
      && FireTimes(m, Some(expiry), k - 1).authenticated
    decreases Seconds(expiry - now as real)
  {
    var k := Seconds(expiry - now as real);
    var next := now + 1000;
    ArmedExactly(expiry - now as real);
    SecondsStep(expiry - now as real);
    var after := Fire(m, Some(expiry), next);
    if next as real < expiry {
      SecondsStep(expiry - next as real);
      LastSeconds(after, expiry, next);
    } else {
      assert k == 1;
      assert FireTimes(after, Some(expiry), 0) == after;
    }
  }

  /** The instant at which the timer is due once it has fired `n` times. */
  function DueAfter(m: Monitor, expiry: StoredExpiry, n: nat): int {
    var last := FireTimes(m, expiry, n);
    if last.timer.Some? then last.timer.value else 0
  }

  /** The first firing of a long wait leaves 30 seconds and a fraction of a millisecond. */
  lemma FirstFiring(m: Monitor, expiry: real, now: int)
    requires Watching(m, expiry, now) && 31_000.0 < expiry - now as real && Fits(expiry - now as real)
    ensures var next := m.timer.value; var left := expiry - next as real;
      && now < next && 30_000.0 <= left < 30_001.0
      && Watching(Fire(m, Some(expiry), next), expiry, next)
      && Fires(expiry - now as real) == 1 + Seconds(left)
  {
    hide Seconds;
    ArmedExactly(expiry - now as real);
  }

  lemma SecondsIs(ms: real, k: int)
    requires 1000.0 * (k - 1) as real < ms <= 1000.0 * k as real
    ensures Seconds(ms) == k
  {
    hide Seconds;
    SecondsStep(ms);
    assert (k - 1) as real < Seconds(ms) as real < (k + 1) as real;
  }

  lemma SecondsOfBuffer(left: real, expiry: real, next: int)
    requires left == expiry - next as real && 30_000.0 <= left < 30_001.0
    ensures Seconds(left) == if expiry == expiry.Floor as real then 30 else 31
  {
    hide Seconds;
    assert left.Floor == 30_000;
    WholeRemaining(expiry, next);
    SecondsIs(left, if left == 30_000.0 then 30 else 31);
  }

  lemma WholeRemaining(expiry: real, now: int)
    ensures expiry == expiry.Floor as real <==> expiry - now as real == (expiry - now as real).Floor as real
  {
    assert (expiry - now as real).Floor == expiry.Floor - now;
  }

  /** With exact timers, an unchanged stored token and a delay that fits, the monitor logs out
      never before the expiry and less than a second after it. It takes at most 32 firings, and at
      most 31 exactly when at most 31 seconds or a whole number of milliseconds are left. */
  lemma LogsOutOnTime(m: Monitor, expiry: real, now: int)
    requires Watching(m, expiry, now) && Fits(expiry - now as real)
    ensures var remaining := expiry - now as real; var n := Fires(remaining);
      && 1 <= n <= 32 && (n <= 31 <==> remaining <= 31_000.0 || remaining == remaining.Floor as real)
      && FireTimes(m, Some(expiry), n - 1).authenticated
      && FireTimes(m, Some(expiry), n) == Monitor(false, None)
      && expiry <= DueAfter(m, Some(expiry), n - 1) as real < expiry + 1000.0
  {
    hide Seconds, Fire, Wait, Fits;
    var remaining := expiry - now as real;
    SecondsStep(remaining);
    WholeRemaining(expiry, now);
    if remaining <= 31_000.0 {
      LastSeconds(m, expiry, now);
    } else {
      var next := m.timer.value;
      FirstFiring(m, expiry, now);
      SecondsOfBuffer(expiry - next as real, expiry, next);
      SecondsStep(expiry - next as real);
      LastSeconds(Fire(m, Some(expiry), next), expiry, next);
    }
  }

  /** Whatever is left, no scheduling and no firing logs out while the stored token is unexpired;
      the next check is due before the expiry plus one second. It is due later than now exactly
      when the delay, cut to 32 bits, is positive. */
  lemma UnexpiredStaysLoggedIn(m: Monitor, expiry: real, now: int)
    requires m.authenticated && expiry != 0.0 && now as real < expiry
    ensures var d := (expiry - now as real - BUFFER).Floor; var s := Schedule(m, Some(expiry), now);
      && Watching(s, expiry, now) && Fire(m, Some(expiry), now) == s
      && now <= s.timer.value && s.timer.value as real < expiry + 1000.0
      && (now < s.timer.value <==> d < INT32 || 0 < d % (2 * INT32) < INT32)
  {
    var remaining := expiry - now as real;
    if Fits(remaining) {
      ArmedExactly(remaining);
    } else {
      assert Wait(remaining) == remaining - BUFFER;
    }
  }

  // ----- Delays that do not fit ----------------------------------------------------------------

  /** A timer that is due at once, before the expiry, arms itself again without end. */
  lemma {:induction false} Spins(m: Monitor, expiry: real, now: int, n: nat)
    requires Watching(m, expiry, now) && m.timer == Some(now)
    ensures FireTimes(m, Some(expiry), n) == m
    decreases n
  {
    if n > 0 {
      UnexpiredStaysLoggedIn(m, expiry, now);
      Spins(m, expiry, now, n - 1);
    }
  }

  /** A delay that does not fit is cut to its low 32 bits. Once they have passed the rest is a
      multiple of 2^32 ms, which is armed as zero: the timer then fires for ever. */
  lemma {:induction false} OverlongLifeNeverLogsOut(m: Monitor, expiry: real, now: int, n: nat)
    requires Watching(m, expiry, now) && !Fits(expiry - now as real)
    ensures FireTimes(m, Some(expiry), n).authenticated
  {
    hide FireTimes;
    UnexpiredStaysLoggedIn(m, expiry, now);
    var next := m.timer.value;
    if next == now {
      Spins(m, expiry, now, n);
    } else {
      RestIsMultiple(expiry, now, next);
      UnexpiredStaysLoggedIn(m, expiry, next);
      FireFirst(m, expiry, n);
      if n > 0 { Spins(Fire(m, Some(expiry), next), expiry, next, n - 1); }
    }
  }

  lemma FireFirst(m: Monitor, expiry: real, n: nat)
    requires m.timer.Some?
    ensures FireTimes(m, Some(expiry), n)
         == if n == 0 then m else FireTimes(Fire(m, Some(expiry), m.timer.value), Some(expiry), n - 1)
  {
  }

  lemma RestIsMultiple(expiry: real, now: int, next: int)
    requires !Fits(expiry - now as real) && now < next
    requires next == now + ArmedDelay(Wait(expiry - now as real))
    ensures next as real < expiry
    ensures ArmedDelay(Wait(expiry - next as real)) == 0 && !Fits(expiry - next as real)
  {
    var d := (expiry - now as real - BUFFER).Floor;
    var low := d % (2 * INT32);
    assert Wait(expiry - now as real) == expiry - now as real - BUFFER;
    assert next == now + low;
    assert (expiry - next as real - BUFFER).Floor == d - low;
    assert d - low == d / (2 * INT32) * (2 * INT32);
    assert (d - low) % (2 * INT32) == 0;
    assert d - low >= 2 * INT32;
  }

  /** Scheduled at any time with exact timers, the monitor logs out after finitely many firings if
      and only if the token has a usable expiry and the delay fits 31 bits. */
  lemma LogsOutExactlyWhen(m: Monitor, expiry: real, now: int)
    requires m.authenticated
    ensures (exists n: nat :: !FireTimes(Schedule(m, Some(expiry), now), Some(expiry), n).authenticated)
       <==> expiry != 0.0 && Fits(expiry - now as real)
  {
    var s := Schedule(m, Some(expiry), now);
    if expiry == 0.0 {
      forall n: nat ensures FireTimes(s, Some(expiry), n).authenticated {
      }
    } else if expiry <= now as real {
      assert !FireTimes(s, Some(expiry), 0).authenticated;
    } else {
      UnexpiredStaysLoggedIn(m, expiry, now);
      if Fits(expiry - now as real) {
        LogsOutOnTime(s, expiry, now);
        var n: nat := Fires(expiry - now as real);
        assert !FireTimes(s, Some(expiry), n).authenticated;
      } else {
        forall n: nat ensures FireTimes(s, Some(expiry), n).authenticated {
          OverlongLifeNeverLogsOut(s, expiry, now, n);
        }
      }
    }
  }

  // ----- Tokens that are gone ---------------------------------------------------------------------

  /** A token that is gone, malformed or without an expiry logs out when the timer fires, but scheduling on it
      only clears the timer. An expired one logs out in both. Nothing logs in again. */
  lemma NoTokenNoSession(m: Monitor, now: int, expiry: real)
    ensures Schedule(m, None, now) == m.(timer := None) == Schedule(m, Some(0.0), now)
    ensures Fire(m, None, now) == Monitor(false, None) == Fire(m, Some(0.0), now)
    ensures expiry != 0.0 && expiry <= now as real ==>
      Schedule(m, Some(expiry), now) == Fire(m, Some(expiry), now) == Monitor(false, None)
    ensures !m.authenticated ==> !Schedule(m, Some(expiry), now).authenticated && !Fire(m, Some(expiry), now).authenticated
  {
  }

  /** The first check is due 30 seconds before the expiry, to the millisecond, but not before one second
      has passed. */
  lemma FirstCheck(m: Monitor, expiry: real, now: int)
    requires now as real < expiry && expiry != 0.0 && expiry - now as real < 2_147_483_648.0
    ensures Schedule(m, Some(expiry), now).timer
         == Some(now + (if expiry - now as real < 31_000.0 then 1000 else (expiry - now as real - 30_000.0).Floor))
  {
    ArmedExactly(expiry - now as real);
  }

  /** The limit of 31 bits. */
  lemma FitsIs(remaining: real)
    ensures Fits(remaining) <==> remaining < 2_147_483_648.0 + 30_000.0
  {
  }
}
