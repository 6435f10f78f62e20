/** Lazy loading with retries: the retry loop, the rate-limited page reload, and the memoised promise. */
module LazyRetry {
  import opened Wrappers

  const COOLDOWN: int := 10_000

  // ----- The reload guard ---------------------------------------------------------------------

  /** The stored timestamp of the last reload: absent, text that reads as no number, or a number. */
  datatype Stamp = Absent | NotANumber | At(time: int)

  /** Whether a reload may happen now; comparing with a non-number never holds it back. */
  predicate MayReload(stamp: Stamp, now: int) {
    stamp.At? ==> now - stamp.time >= COOLDOWN
  }

  class ReloadGuard {
    var stamp: Stamp

    constructor (stamp: Stamp)
      ensures this.stamp == stamp
    {
      this.stamp := stamp;
    }

    /** `storable` says whether session storage accepts the new timestamp; if not, there is no reload. */
    method AttemptReload(now: int, storable: bool) returns (reloaded: bool)
      modifies this
      ensures reloaded <==> MayReload(old(stamp), now) && storable
      ensures stamp == if reloaded then At(now) else old(stamp)
    {
      if stamp.At? && now - stamp.time < COOLDOWN { return false; }
      if !storable { return false; }
      stamp := At(now);
      reloaded := true;
    }
  }

  /** An attempt at `now`, with or without working session storage. */
  datatype Attempt = Attempt(now: int, storable: bool)

  /** The times of the reloads that a series of attempts causes. */
  function Reloads(stamp: Stamp, attempts: seq<Attempt>): seq<int>
    decreases |attempts|
  {
    if attempts == [] then []
    else if MayReload(stamp, attempts[0].now) && attempts[0].storable then
      [attempts[0].now] + Reloads(At(attempts[0].now), attempts[1..])
    else Reloads(stamp, attempts[1..])
  }

  /** Automatic reloads in a session are at least the cooldown apart, whatever the clock does. */
  lemma {:induction false} ReloadsAreApart(stamp: Stamp, attempts: seq<Attempt>)
    ensures forall i, j :: 0 <= i < j < |Reloads(stamp, attempts)| ==>
      Reloads(stamp, attempts)[i] + COOLDOWN <= Reloads(stamp, attempts)[j]
    ensures stamp.At? ==> forall i :: 0 <= i < |Reloads(stamp, attempts)| ==>
      stamp.time + COOLDOWN <= Reloads(stamp, attempts)[i]
    decreases |attempts|
  {
    if attempts != [] {
      ReloadsAreApart(At(attempts[0].now), attempts[1..]);
      ReloadsAreApart(stamp, attempts[1..]);
    }
  }

  // ----- The retry loop -------------------------------------------------------------------------

  datatype Outcome = Loaded | Failed(chunkError: bool)

  /** What the first, second, ... call of the factory in one load yields. */
  type Factory = nat -> Outcome

  datatype LoadResult = Module | Reloading | Thrown

  /** The most factory calls a load can make; a negative retry count still allows the first. */
  function CallLimit(maxRetries: int): nat {
    if maxRetries < 0 then 1 else maxRetries + 1
  }

  function Pow2(n: nat): nat {
    if n == 0 then 1 else 2 * Pow2(n - 1)
  }

  /** The wait after the (n+1)-st failure. */
  function Backoff(initialDelay: int, n: nat): int {
    initialDelay * Pow2(n)
  }

  /** All waits before the (n+1)-st call together. */
  function TotalWait(initialDelay: int, n: nat): int {
    initialDelay * (Pow2(n) - 1)
  }

  function Sum(waits: seq<int>): int {
    if waits == [] then 0 else Sum(waits[..|waits| - 1]) + waits[|waits| - 1]
  }

  /** One load: the factory is called until it succeeds or the limit is reached, with a wait that
      doubles after each failure; a last chunk error may reload the page instead of throwing. */
  method ExecuteWithRetry(factory: Factory, maxRetries: int, initialDelay: int, autoReload: bool,
                          guard: ReloadGuard, now: int, storable: bool)
    returns (result: LoadResult, calls: nat, waits: seq<int>)
    modifies guard
    ensures 1 <= calls <= CallLimit(maxRetries)
    ensures forall i :: 0 <= i < calls - 1 ==> factory(i).Failed?
    ensures result.Module? <==> factory(calls - 1).Loaded?
    ensures !result.Module? ==> calls == CallLimit(maxRetries)
    ensures result.Reloading? <==>
      !result.Module? && autoReload && factory(calls - 1).chunkError && MayReload(old(guard.stamp), now) && storable
    ensures guard.stamp == if result.Reloading? then At(now) else old(guard.stamp)
    ensures |waits| == calls - 1 && forall i :: 0 <= i < |waits| ==> waits[i] == Backoff(initialDelay, i)
    ensures Sum(waits) == TotalWait(initialDelay, calls - 1)
  {
    hide Backoff, TotalWait;
    WaitsAddUp(initialDelay, 0);
    var attempt: nat := 0;
    calls, waits := 0, [];
    while true
      invariant attempt == calls == |waits| < CallLimit(maxRetries)
      invariant forall i :: 0 <= i < calls ==> factory(i).Failed?
      invariant forall i :: 0 <= i < |waits| ==> waits[i] == Backoff(initialDelay, i)
      invariant Sum(waits) == TotalWait(initialDelay, calls)
      invariant guard.stamp == old(guard.stamp)
      decreases CallLimit(maxRetries) - attempt
    {
      var outcome := factory(calls);
      calls := calls + 1;
      if outcome.Loaded? { return Module, calls, waits; }
      attempt := attempt + 1;
      if attempt > maxRetries {
        if autoReload && outcome.chunkError {
          var reloaded := guard.AttemptReload(now, storable);
          if reloaded { return Reloading, calls, waits; }
        }
        return Thrown, calls, waits;
      }
      var delay := Backoff(initialDelay, attempt - 1);
      SumAppend(waits, delay);
      WaitsAddUp(initialDelay, attempt - 1);
      waits := waits + [delay];
    }
  }

  lemma SumAppend(waits: seq<int>, delay: int)
    ensures Sum(waits + [delay]) == Sum(waits) + delay
  {
    assert (waits + [delay])[..|waits|] == waits;
  }

  lemma WaitsAddUp(initialDelay: int, n: nat)
    ensures TotalWait(initialDelay, n) + Backoff(initialDelay, n) == TotalWait(initialDelay, n + 1)
    ensures TotalWait(initialDelay, 0) == 0
  {
    var p: int := Pow2(n);
    assert initialDelay * (p - 1) == initialDelay * p - initialDelay;
    assert initialDelay * (2 * p - 1) == 2 * (initialDelay * p) - initialDelay;
  }

  // ----- The memoised promise ---------------------------------------------------------------------

  /** A load under way, after `failures` failed calls. */
  datatype Load = Calling(failures: nat) | Waiting(failures: nat)

  /** Promises are numbered; `cached` is the memoised one. A load is `running`, or its promise is
      resolved, or it never settles because the page is reloading. `calls` counts factory calls. */
  datatype State = State(
    cached: Option<nat>, running: map<nat, Load>, resolved: set<nat>, hung: set<nat>, next: nat, calls: map<nat, nat>)

  datatype Event =
    | Request
    | Succeeded(id: nat)
    | FailedCall(id: nat, reload: bool)
    | DelayOver(id: nat)

  const INITIAL := State(None, map[], {}, {}, 0, map[])

  /** What can happen: only a running call settles, and only a waiting load wakes up. */
  predicate Possible(s: State, e: Event) {
    match e
    case Request => true
    case Succeeded(id) => id in s.running && s.running[id].Calling?
    case FailedCall(id, _) => id in s.running && s.running[id].Calling?
    case DelayOver(id) => id in s.running && s.running[id].Waiting?
  }

  function CallsOf(s: State, id: nat): nat {
    if id in s.calls then s.calls[id] else 0
  }

  function Step(s: State, e: Event, maxRetries: int): State
    requires Possible(s, e)
  {
    match e
    case Request =>
      if s.cached.Some? then s
      else s.(cached := Some(s.next), running := s.running[s.next := Calling(0)], next := s.next + 1,
              calls := s.calls[s.next := 1])
    case Succeeded(id) => s.(running := s.running - {id}, resolved := s.resolved + {id})
    case FailedCall(id, reload) =>
      var failures := s.running[id].failures + 1;
      if failures <= maxRetries then s.(running := s.running[id := Waiting(failures)])
      else if reload then s.(running := s.running - {id}, hung := s.hung + {id})
      else s.(running := s.running - {id}, cached := None)
    case DelayOver(id) =>
      s.(running := s.running[id := Calling(s.running[id].failures)], calls := s.calls[id := CallsOf(s, id) + 1])
  }

  class LazyModule {
    const maxRetries: int
    var cached: Option<nat>
    var running: map<nat, Load>
    var resolved: set<nat>
    var hung: set<nat>
    var next: nat
    var calls: map<nat, nat>

    function View(): State
      reads this
    {
      State(cached, running, resolved, hung, next, calls)
    }

    constructor (maxRetries: int)
      ensures View() == INITIAL && this.maxRetries == maxRetries
    {
      this.maxRetries := maxRetries;
      cached, running, resolved, hung, next, calls := None, map[], {}, {}, 0, map[];
    }

    /** Rendering and preloading share one promise. */
    method LoadModule() returns (promise: nat)
      modifies this
      ensures View() == Step(old(View()), Request, maxRetries) && cached == Some(promise)
    {
      if cached.None? {
        running := running[next := Calling(0)];
        calls := calls[next := 1];
        cached := Some(next);
        next := next + 1;
      }
      promise := cached.value;
    }

    method OnFailure(id: nat, reload: bool)
      requires id in running && running[id].Calling?
      modifies this
      ensures View() == Step(old(View()), FailedCall(id, reload), maxRetries)
    {
      var failures := running[id].failures + 1;
      if failures <= maxRetries {
        running := running[id := Waiting(failures)];
        return;
      }
      running := running - {id};
      if reload {
        hung := hung + {id};
      } else {
        cached := None;
      }
    }

    method OnSuccess(id: nat)
      requires id in running && running[id].Calling?
      modifies this
      ensures View() == Step(old(View()), Succeeded(id), maxRetries)
    {
      running := running - {id};
      resolved := resolved + {id};
    }

    method OnDelayOver(id: nat)
      requires id in running && running[id].Waiting?
      modifies this
      ensures View() == Step(old(View()), DelayOver(id), maxRetries)
    {
      running := running[id := Calling(running[id].failures)];
      calls := calls[id := (if id in calls then calls[id] else 0) + 1];
    }
  }

  function Memoised(s: State): set<nat> {
    if s.cached.Some? then {s.cached.value} else {}
  }

  /** The memoised promise is the only one running, resolved or hung, and is in one of these conditions. */
  predicate OnlyMemoised(s: State) {
    s.running.Keys + s.resolved + s.hung == Memoised(s) && s.running.Keys !! s.resolved !! s.hung
  }

  /** No load has called the factory more often than its limit. */
  ghost predicate CallsLimited(s: State, maxRetries: int) {
    && (forall id :: id in s.calls ==> id < s.next && 1 <= s.calls[id] <= CallLimit(maxRetries))
    && (forall id :: id in s.running ==>
          id in s.calls &&
          match s.running[id]
          case Calling(failures) => s.calls[id] == failures + 1
          case Waiting(failures) => s.calls[id] == failures <= maxRetries)
  }

  ghost predicate Invariant(s: State, maxRetries: int) {
    OnlyMemoised(s) && CallsLimited(s, maxRetries)
  }

  lemma StepKeepsInvariant(s: State, e: Event, maxRetries: int)
    requires Invariant(s, maxRetries) && Possible(s, e)
    ensures Invariant(Step(s, e, maxRetries), maxRetries)
  {
    hide OnlyMemoised, CallsLimited;
    StepKeepsOnlyMemoised(s, e, maxRetries);
    StepKeepsCallsLimited(s, e, maxRetries);
  }

  lemma StepKeepsOnlyMemoised(s: State, e: Event, maxRetries: int)
    requires OnlyMemoised(s) && Possible(s, e)
    ensures OnlyMemoised(Step(s, e, maxRetries))
  {
  }

  lemma StepKeepsCallsLimited(s: State, e: Event, maxRetries: int)
    requires CallsLimited(s, maxRetries) && Possible(s, e)
    ensures CallsLimited(Step(s, e, maxRetries), maxRetries)
  {
  }

  lemma ResolvedIsFinal(s: State, e: Event, maxRetries: int)
    requires Invariant(s, maxRetries) && Possible(s, e) && s.resolved != {}
    ensures Step(s, e, maxRetries) == s
  {
  }

  predicate PossibleRun(s: State, events: seq<Event>, maxRetries: int)
    decreases |events|
  {
    events == [] || (Possible(s, events[0]) && PossibleRun(Step(s, events[0], maxRetries), events[1..], maxRetries))
  }

  function Run(s: State, events: seq<Event>, maxRetries: int): State
    requires PossibleRun(s, events, maxRetries)
    decreases |events|
  {
    if events == [] then s else Run(Step(s, events[0], maxRetries), events[1..], maxRetries)
  }

  /** Over every run at most one load is in flight, no load exceeds its calls, and after a success
      nothing changes any more: the factory is never called again. */
  lemma {:induction false} RunKeepsInvariant(s: State, events: seq<Event>, maxRetries: int)
    requires Invariant(s, maxRetries) && PossibleRun(s, events, maxRetries)
    ensures Invariant(Run(s, events, maxRetries), maxRetries)
    ensures |Run(s, events, maxRetries).running| <= 1
    ensures forall id :: CallsOf(Run(s, events, maxRetries), id) <= CallLimit(maxRetries)
    ensures s.resolved != {} ==> Run(s, events, maxRetries) == s
    decreases |events|
  {
    if events == [] {
      assert s.running.Keys <= Memoised(s);
      SubsetOfOne(s);
    } else {
      StepKeepsInvariant(s, events[0], maxRetries);
      if s.resolved != {} { ResolvedIsFinal(s, events[0], maxRetries); }
      RunKeepsInvariant(Step(s, events[0], maxRetries), events[1..], maxRetries);
    }
  }

  lemma SubsetOfOne(s: State)
    requires s.running.Keys <= Memoised(s)
    ensures |s.running| <= 1
  {
    assert s.running.Keys == {} || s.running.Keys == Memoised(s);
    assert |s.running| == |s.running.Keys|;
  }

  /** A load that fails for good without a reload leaves nothing memoised, so a later request starts anew. */
  lemma FailureIsForgotten(s: State, id: nat, maxRetries: int)
    requires Invariant(s, maxRetries) && Possible(s, FailedCall(id, false)) && maxRetries <= s.running[id].failures
    ensures var after := Step(s, FailedCall(id, false), maxRetries);
      && after.cached.None? && after.running == map[]
      && Step(after, Request, maxRetries).running == map[s.next := Calling(0)]
  {
  }

  // ----- How many calls, how long, how often ---------------------------------------------------------

  /** With two retries a load makes three calls; without any, or with a negative count, one. */
  lemma CallLimits(maxRetries: int)
    ensures CallLimit(maxRetries) == if 0 <= maxRetries then maxRetries + 1 else 1
    ensures CallLimit(2) == 3 && CallLimit(0) == CallLimit(-1) == 1
  {
  }

  /** Waits double; after the first failure the wait is the initial delay. */
  lemma WaitsDouble(initialDelay: int, n: nat)
    ensures Backoff(initialDelay, 0) == initialDelay
    ensures Backoff(initialDelay, n + 1) == 2 * Backoff(initialDelay, n)
  {
    var p: int := Pow2(n);
    assert initialDelay * (2 * p) == 2 * (initialDelay * p);
  }

  /** A reload is held back for 10 seconds after the last one, and by nothing else. */
  lemma ReloadsWaitTenSeconds(stamp: Stamp, now: int)
    ensures MayReload(stamp, now) <==> !stamp.At? || stamp.time + 10_000 <= now
  {
  }

  /** A failed call is followed by a wait and another call exactly when the limit is not reached; the last one
      forgets the promise, or leaves it hanging while the page reloads. */
  lemma FailuresAreRetried(s: State, id: nat, reload: bool, maxRetries: int)
    requires Invariant(s, maxRetries) && Possible(s, FailedCall(id, reload))
    ensures var after := Step(s, FailedCall(id, reload), maxRetries);
      if CallsOf(s, id) < CallLimit(maxRetries) then
        && after == s.(running := after.running) && after.running.Keys == {id} && after.running[id].Waiting?
        && var again := Step(after, DelayOver(id), maxRetries);
           again.running.Keys == {id} && again.running[id].Calling? && CallsOf(again, id) == CallsOf(s, id) + 1
           && again.cached == s.cached
      else
        && after.running == map[] && after.calls == s.calls
        && (if reload then after.cached == Some(id) && after.hung == {id} else after.cached == None && after.hung == {})
  {
    assert id in Memoised(s);
    assert s.running.Keys == {id};
  }

  /** A request starts one call when nothing is memoised and changes nothing otherwise; a success keeps the
      promise for good. */
  lemma RequestsShareAPromise(s: State, maxRetries: int)
    requires Invariant(s, maxRetries)
    ensures var after := Step(s, Request, maxRetries);
      if s.cached.Some? then after == s
      else after.cached == Some(s.next) && after.running == map[s.next := Calling(0)] && CallsOf(after, s.next) == 1
    ensures forall id: nat :: Possible(s, Succeeded(id)) ==>
      var after := Step(s, Succeeded(id), maxRetries);
      after.cached == Some(id) && after.running == map[] && after.resolved == {id} && after.calls == s.calls
  {
    forall id: nat | Possible(s, Succeeded(id))
      ensures var after := Step(s, Succeeded(id), maxRetries);
        after.cached == Some(id) && after.running == map[] && after.resolved == {id}
    {
      assert id in Memoised(s);
      assert s.running.Keys == {id};
    }
  }
}
