/**
 * The older compiled variant of the refresh machine (dist/fetcher.js). Its
 * transition table, guards, actions and delays are those of src/fetcher.ts,
 * without the INITIAL_DATA event and without an `initialData` loader, so its
 * events are a subset of the newer machine's and each is handled the same way.
 */
module LegacyFetcher {
  import opened Optional
  import opened Fetcher
  import Browser
  import FetcherProperties

  /** The events of the older machine: the newer set without INITIAL_DATA. */
  datatype LegacyEvent<T, E> =
    | LegacyFetcherEnabled(enabled: bool)
    | LegacySetPermitted(allowed: bool)
    | LegacyBrowserEnabled(active: bool)
    | LegacyForceRefresh
    | LegacyRefreshTimerFired
    | LegacyBackoffTimerFired
    | LegacyFetchDone(result: FetchResult<T>)
    | LegacyFetchFailed(error: E)

  /** Each event of the older machine is the same-named event of the newer one. */
  function Lift<T, E>(ev: LegacyEvent<T, E>): (lifted: Event<T, E>)
    ensures !lifted.InitialData?
  {
    match ev
    case LegacyFetcherEnabled(b) => FetcherEnabled(b)
    case LegacySetPermitted(b) => SetPermitted(b)
    case LegacyBrowserEnabled(b) => BrowserEnabled(b)
    case LegacyForceRefresh => ForceRefresh
    case LegacyRefreshTimerFired => RefreshTimerFired
    case LegacyBackoffTimerFired => BackoffTimerFired
    case LegacyFetchDone(r) => FetchDone(r)
    case LegacyFetchFailed(e) => FetchFailed(e)
  }

  /** The older event with the same name as a newer one; INITIAL_DATA has none. */
  function Lower<T, E>(ev: Event<T, E>): LegacyEvent<T, E>
    requires !ev.InitialData?
  {
    match ev
    case FetcherEnabled(b) => LegacyFetcherEnabled(b)
    case SetPermitted(b) => LegacySetPermitted(b)
    case BrowserEnabled(b) => LegacyBrowserEnabled(b)
    case ForceRefresh => LegacyForceRefresh
    case RefreshTimerFired => LegacyRefreshTimerFired
    case BackoffTimerFired => LegacyBackoffTimerFired
    case FetchDone(r) => LegacyFetchDone(r)
    case FetchFailed(e) => LegacyFetchFailed(e)
  }

  /** `Lift` is one-to-one onto the newer events other than INITIAL_DATA:
      the older events are exactly the newer set without INITIAL_DATA. */
  lemma LiftLowerRoundTrip<T, E>(legacy: LegacyEvent<T, E>, ev: Event<T, E>)
    ensures Lower(Lift(legacy)) == legacy
    ensures !ev.InitialData? ==> Lift(Lower(ev)) == ev
  {
  }

  /** One transition of the older machine. It never delivers stale data and
      keeps the invariant of the newer machine. */
  function LegacyStep<T, E>(state: State, ctx: Context, ev: LegacyEvent<T, E>, now: int, online: bool): (t: Transition<T, E>)
    ensures forall i :: 0 <= i < |t.out| ==> !t.out[i].Stale?
    ensures Inv(state, ctx) ==> Inv(t.state, t.ctx)
    ensures |t.out| <= 1
  {
    Step(state, ctx, Lift(ev), now, online)
  }

  /** Control events only assign their field while refreshing, and re-run
      `maybeStart` (in guard order) from every other state. */
  lemma LegacyControlEvents<T, E>(state: State, ctx: Context, ev: LegacyEvent<T, E>, now: int, online: bool)
    requires ev.LegacyFetcherEnabled? || ev.LegacySetPermitted? || ev.LegacyBrowserEnabled?
    ensures var t := LegacyStep(state, ctx, ev, now, online);
      var updated := ApplyControl(ctx, Lift(ev));
      && updated.lastRefresh == ctx.lastRefresh && updated.retries == ctx.retries
      && updated.reportedError == ctx.reportedError
      && (state == Refreshing ==> t == Transition(Refreshing, updated, []))
      && (state != Refreshing ==>
            t.state == (if !updated.permitted then NotPermitted
                        else if CanEnable(updated) then WaitingForRefresh
                        else Disabled))
  {
  }

  /** `refreshDone` resets the streak, stamps the refresh and delivers only
      data that is not UNMODIFIED while permitted; `reportError` delivers
      only the first online error of a streak and always marks it reported. */
  lemma LegacyFetchOutcomes<T, E>(ctx: Context, result: FetchResult<T>, error: E, now: int, online: bool)
    ensures var t := LegacyStep<T, E>(Refreshing, ctx, LegacyFetchDone(result), now, online);
      && t.ctx.retries == 0 && !t.ctx.reportedError
      && t.ctx.lastRefresh == (if ctx.permitted then now else 0)
      && t.out == (if !ctx.permitted then [Cleared] else if result.Data? then [Fresh(result.value)] else [])
    ensures var t := LegacyStep<T, E>(Refreshing, ctx, LegacyFetchFailed(error), now, online);
      && t.state == ErrorBackoff && t.ctx.reportedError && t.ctx.retries == ctx.retries + 1
      && t.out == (if !ctx.reportedError && online then [Failed(error)] else [])
  {
    FetcherProperties.FetchDoneOutcome<T, E>(ctx, result, now, online);
    FetcherProperties.FetchFailedOutcome<T, E>(ctx, error, now, online);
  }

  /** The object returned by the older `fetcher`: the same control methods
      over the older machine. */
  class LegacyFetcher<T, E> {
    const config: Config
    var state: State
    var ctx: Context
    var received: seq<Delivery<T, E>>
    var stopped: bool

    ghost predicate Valid()
      reads this
    {
      Inv(state, ctx)
    }

    /** `fetcher(options)`: start the interpreter, then subscribe to the
        environment signal source, whose immediate call with the current
        `browser` state is handled before the handle is returned. */
    constructor (autoRefreshPeriod: Option<int>, maxBackoff: Option<int>,
                 initialEnabled: Option<bool>, initialPermitted: Option<bool>, browser: Browser.BrowserState)
      ensures Valid() && !stopped && config == MakeConfig(autoRefreshPeriod, maxBackoff)
      ensures var started := Resolve<T, E>(IntendedInitialContext(initialEnabled, initialPermitted));
        var t := LegacyStep<T, E>(started.state, started.ctx, LegacyBrowserEnabled(BrowserActive(browser)), 0, true);
        state == t.state && ctx == t.ctx && received == started.out + t.out
    {
      var started := Resolve<T, E>(IntendedInitialContext(initialEnabled, initialPermitted));
      config := MakeConfig(autoRefreshPeriod, maxBackoff);
      state, ctx, received, stopped := started.state, started.ctx, started.out, false;
      new;
      NotifyBrowserState(browser);
    }

    /** `machine.send`; a stopped interpreter ignores every event. */
    method Send(ev: LegacyEvent<T, E>, now: int, online: bool)
      requires Valid()
      modifies this
      ensures Valid() && stopped == old(stopped)
      ensures old(stopped) ==> state == old(state) && ctx == old(ctx) && received == old(received)
      ensures !old(stopped) ==>
        var t := LegacyStep(old(state), old(ctx), ev, now, online);
        state == t.state && ctx == t.ctx && received == old(received) + t.out
    {
      if !stopped {
        var t := LegacyStep(state, ctx, ev, now, online);
        state, ctx, received := t.state, t.ctx, received + t.out;
      }
    }

    /** `setEnabled`. */
    method SetEnabled(enabled: bool)
      requires Valid()
      modifies this
      ensures Valid() && stopped == old(stopped)
      ensures old(stopped) ==> state == old(state) && ctx == old(ctx) && received == old(received)
      ensures !old(stopped) && old(state) == Refreshing ==>
        state == Refreshing && ctx == old(ctx).(storeEnabled := enabled) && received == old(received)
      ensures !old(stopped) && old(state) != Refreshing ==>
        var t := Resolve<T, E>(old(ctx).(storeEnabled := enabled));
        state == t.state && ctx == t.ctx && received == old(received) + t.out
    {
      // control events read neither the clock nor connectivity
      Send(LegacyFetcherEnabled(enabled), 0, true);
    }

    /** `setPermitted`. */
    method SetPermitted(permitted: bool)
      requires Valid()
      modifies this
      ensures Valid() && stopped == old(stopped)
      ensures old(stopped) ==> state == old(state) && ctx == old(ctx) && received == old(received)
      ensures !old(stopped) && old(state) == Refreshing ==>
        state == Refreshing && ctx == old(ctx).(permitted := permitted) && received == old(received)
      ensures !old(stopped) && old(state) != Refreshing ==>
        var t := Resolve<T, E>(old(ctx).(permitted := permitted));
        state == t.state && ctx == t.ctx && received == old(received) + t.out
    {
      Send(LegacySetPermitted(permitted), 0, true);
    }

    /** The subscription's listener: BROWSER_ENABLED with `focused && online && visible`. */
    method NotifyBrowserState(s: Browser.BrowserState)
      requires Valid()
      modifies this
      ensures Valid() && stopped == old(stopped)
      ensures old(stopped) ==> state == old(state) && ctx == old(ctx) && received == old(received)
      ensures !old(stopped) && old(state) == Refreshing ==>
        state == Refreshing && ctx == old(ctx).(browserEnabled := BrowserActive(s)) && received == old(received)
      ensures !old(stopped) && old(state) != Refreshing ==>
        var t := Resolve<T, E>(old(ctx).(browserEnabled := BrowserActive(s)));
        state == t.state && ctx == t.ctx && received == old(received) + t.out
    {
      Send(LegacyBrowserEnabled(BrowserActive(s)), 0, true);
    }

    /** `refresh`: FORCE_REFRESH. */
    method Refresh()
      requires Valid()
      modifies this
      ensures Valid() && stopped == old(stopped)
      ensures ctx == old(ctx) && received == old(received)
      ensures state == if !old(stopped) && old(state) in {WaitingForRefresh, Disabled} then Refreshing else old(state)
    {
      Send(LegacyForceRefresh, 0, true);
    }

    /** `destroy`. */
    method Destroy()
      modifies this
      ensures stopped
      ensures state == old(state) && ctx == old(ctx) && received == old(received)
      ensures old(Valid()) ==> Valid()
    {
      stopped := true;
    }
  }
}
