/**
 * The per-key refresh state machine of `fetcher` (src/fetcher.ts).
 *
 * The state chart is written out as a pure transition function `Step` over a
 * resting state, a context and one event, returning the new state, the new
 * context and the `receive` deliveries the transition makes, in order. The
 * transient `maybeStart` state is resolved inside each step by `Resolve`, so
 * the machine never rests there. Timer expiry and the settling of the fetch
 * promise arrive as events; the clock (`Date.now()`) and the connectivity
 * probe (`isOnline()`) are parameters of the step.
 *
 * The control handle returned by `fetcher` is the class `Fetcher`, which
 * holds the interpreter's current state and feeds events through `Step`.
 */
module Fetcher {
  import opened Optional
  import Browser

  /** The resting states of the chart. */
  datatype State = NotPermitted | Disabled | WaitingForRefresh | Refreshing | ErrorBackoff

  datatype Context = Context(
    lastRefresh: int,     // time of the last successful fetch; 0 means none (or cleared)
    retries: nat,         // failed attempts since the last success
    reportedError: bool,  // an error of the current failure streak has been handled
    storeEnabled: bool,
    browserEnabled: bool,
    permitted: bool)

  /** What the fetch promise resolves to: data, or the UNMODIFIED marker. */
  datatype FetchResult<T> = Data(value: T) | Unmodified

  datatype Event<T, E> =
    | FetcherEnabled(enabled: bool)    // FETCHER_ENABLED
    | SetPermitted(allowed: bool)      // SET_PERMITTED
    | BrowserEnabled(active: bool)     // BROWSER_ENABLED
    | InitialData(initial: Option<T>)  // INITIAL_DATA; `event.data`, None when undefined
    | ForceRefresh                     // FORCE_REFRESH
    | RefreshTimerFired                // the `nextRefreshDelay` timer of waitingForRefresh
    | BackoffTimerFired                // the `errorBackoffDelay` timer of errorBackoff
    | FetchDone(result: FetchResult<T>)  // the `refresh` service resolved
    | FetchFailed(error: E)            // the `refresh` service rejected

  /** The argument of one `receive` call. */
  datatype Delivery<T, E> =
    | Fresh(data: T)     // receive({data})
    | Stale(stale: Option<T>)  // receive({data, stale: true}); None is `data: undefined`
    | Cleared            // receive({data: null})
    | Failed(error: E)   // receive({error})

  datatype Transition<T, E> = Transition(state: State, ctx: Context, out: seq<Delivery<T, E>>)

  /** One event as the interpreter receives it, with the clock and connectivity at that moment. */
  datatype Input<T, E> = Input(ev: Event<T, E>, now: int, online: bool)

  datatype Config = Config(autoRefreshPeriod: int, maxBackoff: int)

  const DefaultAutoRefreshPeriod: int := 60 * 60 * 1000
  const DefaultMaxBackoff: int := 60 * 1000
  const BaseDelay: nat := 200
  const MaxExponent: nat := 20

  /** The destructured options with their defaults: one hour between
      refreshes and at most one minute of backoff. */
  function MakeConfig(autoRefreshPeriod: Option<int>, maxBackoff: Option<int>): (c: Config)
    ensures autoRefreshPeriod.Some? ==> c.autoRefreshPeriod == autoRefreshPeriod.value
    ensures maxBackoff.Some? ==> c.maxBackoff == maxBackoff.value
    ensures autoRefreshPeriod.None? ==> c.autoRefreshPeriod == 3_600_000
    ensures maxBackoff.None? ==> c.maxBackoff == 60_000
  {
    Config(
      autoRefreshPeriod := if autoRefreshPeriod.Some? then autoRefreshPeriod.value else DefaultAutoRefreshPeriod,
      maxBackoff := if maxBackoff.Some? then maxBackoff.value else DefaultMaxBackoff)
  }

  function Min(a: int, b: int): int { if a <= b then a else b }
  function Max(a: int, b: int): int { if a >= b then a else b }

  function Pow2(k: nat): (p: nat)
    ensures p >= 1
  {
    if k == 0 then 1 else 2 * Pow2(k - 1)
  }

  /** `errorBackoffDelay`: 200 ms doubled per retry with the exponent capped
      at 20, and never more than `maxBackoff`. */
  function ErrorBackoffDelay(retries: nat, maxBackoff: int): (d: int)
    ensures d <= maxBackoff
    ensures d >= Min(BaseDelay, maxBackoff)
  {
    Min(BaseDelay * Pow2(Min(retries, MaxExponent)), maxBackoff)
  }

  /** `nextRefreshDelay`: the timer fires at the deadline `lastRefresh + autoRefreshPeriod`,
      or at once when that deadline has already passed. */
  function NextRefreshDelay(lastRefresh: int, now: int, autoRefreshPeriod: int): (d: int)
    ensures d >= 0
    ensures now + d >= lastRefresh + autoRefreshPeriod
    ensures d > 0 ==> now + d == lastRefresh + autoRefreshPeriod
  {
    var timeSinceRefresh := now - lastRefresh;
    var remaining := autoRefreshPeriod - timeSinceRefresh;
    Max(remaining, 0)
  }

  /** The delayed transition a state arms when it is entered at time `now`
      (the delay is computed from the context the state rests in). */
  function ArmedDelay(state: State, ctx: Context, now: int, config: Config): (d: Option<int>)
    ensures d.Some? <==> state == WaitingForRefresh || state == ErrorBackoff
    ensures state == WaitingForRefresh ==>
      d.value >= 0 && now + d.value >= ctx.lastRefresh + config.autoRefreshPeriod
    ensures state == ErrorBackoff ==>
      Min(BaseDelay, config.maxBackoff) <= d.value <= config.maxBackoff
  {
    match state
    case WaitingForRefresh => Some(NextRefreshDelay(ctx.lastRefresh, now, config.autoRefreshPeriod))
    case ErrorBackoff => Some(ErrorBackoffDelay(ctx.retries, config.maxBackoff))
    case _ => None
  }

  // Guards

  predicate NotPermittedToRefresh(ctx: Context) { !ctx.permitted }

  predicate PermittedToRefresh(ctx: Context) { ctx.permitted }

  /** `can_enable`: a resource never fetched may start at once; one that has
      data refreshes only while the browser is active. */
  predicate CanEnable(ctx: Context)
    ensures CanEnable(ctx) <==> ctx.storeEnabled && ctx.permitted && (ctx.lastRefresh == 0 || ctx.browserEnabled)
  {
    if !ctx.storeEnabled || !ctx.permitted then false
    else if ctx.lastRefresh == 0 then true
    else ctx.browserEnabled
  }

  // Actions

  predicate IsControl<T, E>(ev: Event<T, E>)
  {
    ev.FetcherEnabled? || ev.SetPermitted? || ev.BrowserEnabled?
  }

  /** `updateStoreEnabled`, `updatePermitted`, `updateBrowserEnabled`: each
      assigns the event's value to its own flag and to nothing else. */
  function ApplyControl<T, E>(ctx: Context, ev: Event<T, E>): (c: Context)
    requires IsControl(ev)
    ensures c.lastRefresh == ctx.lastRefresh && c.retries == ctx.retries && c.reportedError == ctx.reportedError
    ensures c.storeEnabled == if ev.FetcherEnabled? then ev.enabled else ctx.storeEnabled
    ensures c.permitted == if ev.SetPermitted? then ev.allowed else ctx.permitted
    ensures c.browserEnabled == if ev.BrowserEnabled? then ev.active else ctx.browserEnabled
  {
    if ev.FetcherEnabled? then ctx.(storeEnabled := ev.enabled)
    else if ev.SetPermitted? then ctx.(permitted := ev.allowed)
    else ctx.(browserEnabled := ev.active)
  }

  function ClearLastRefresh(ctx: Context): Context { ctx.(lastRefresh := 0) }

  function ClearData<T, E>(): seq<Delivery<T, E>> { [Cleared] }

  function IncrementRetry(ctx: Context): Context { ctx.(retries := ctx.retries + 1) }

  /** `receiveInitialData`: stale data is passed on only while nothing has been fetched. */
  function ReceiveInitialData<T, E>(ctx: Context, data: Option<T>): (out: seq<Delivery<T, E>>)
    ensures out != [] <==> ctx.lastRefresh == 0
    ensures out != [] ==> out == [Stale(data)]
  {
    if ctx.lastRefresh != 0 then [] else [Stale(data)]
  }

  /** `refreshDone`: stamp the refresh, end the failure streak, and pass on
      new data while permitted. */
  function RefreshDone<T, E>(ctx: Context, result: FetchResult<T>, now: int): (r: (Context, seq<Delivery<T, E>>))
    ensures r.0.lastRefresh == now && r.0.retries == 0 && !r.0.reportedError
    ensures r.0.storeEnabled == ctx.storeEnabled && r.0.browserEnabled == ctx.browserEnabled
    ensures r.0.permitted == ctx.permitted
    ensures r.1 != [] <==> result.Data? && ctx.permitted
    ensures r.1 != [] ==> r.1 == [Fresh(result.value)]
  {
    var updated := ctx.(lastRefresh := now, retries := 0, reportedError := false);
    if result.Data? && ctx.permitted then (updated, [Fresh(result.value)]) else (updated, [])
  }

  /** `reportError`: pass on the first error of a streak while online; the
      streak is marked as reported either way. */
  function ReportError<T, E>(ctx: Context, error: E, online: bool): (r: (Context, seq<Delivery<T, E>>))
    ensures r.0.reportedError && r.0.(reportedError := ctx.reportedError) == ctx
    ensures r.1 != [] <==> !ctx.reportedError && online
    ensures r.1 != [] ==> r.1 == [Failed(error)]
  {
    var out: seq<Delivery<T, E>> := if !ctx.reportedError && online then [Failed(error)] else [];
    (ctx.(reportedError := true), out)
  }

  // Transitions

  function Stay<T, E>(state: State, ctx: Context): Transition<T, E>
  {
    Transition(state, ctx, [])
  }

  /** Entering `notPermitted` runs `clearData` and `clearLastRefresh`. */
  function EnterNotPermitted<T, E>(ctx: Context): Transition<T, E>
  {
    Transition(NotPermitted, ClearLastRefresh(ctx), ClearData())
  }

  /** Entering `errorBackoff` runs `incrementRetry`, after the transition's own deliveries. */
  function EnterErrorBackoff<T, E>(ctx: Context, out: seq<Delivery<T, E>>): Transition<T, E>
  {
    Transition(ErrorBackoff, IncrementRetry(ctx), out)
  }

  /** The transient `maybeStart` state: its `always` branches are tried in
      order, and the state they pick is entered. */
  function Resolve<T, E>(ctx: Context): (t: Transition<T, E>)
    ensures t.state == NotPermitted <==> !ctx.permitted
    ensures t.state == WaitingForRefresh <==> CanEnable(ctx)
    ensures t.state == Disabled <==> ctx.permitted && !CanEnable(ctx)
    ensures t.out == if ctx.permitted then [] else [Cleared]
    ensures t.ctx == if ctx.permitted then ctx else ctx.(lastRefresh := 0)
  {
    if NotPermittedToRefresh(ctx) then EnterNotPermitted(ctx)
    else if CanEnable(ctx) then Stay(WaitingForRefresh, ctx)
    else Stay(Disabled, ctx)
  }

  /** One transition of the chart. Events a state has no handler for are
      ignored. Every transition keeps the resting-state invariant, calls
      `receive` at most once, and passes on stale data only for INITIAL_DATA. */
  function Step<T, E>(state: State, ctx: Context, ev: Event<T, E>, now: int, online: bool): (t: Transition<T, E>)
    ensures Inv(state, ctx) ==> Inv(t.state, t.ctx)
    ensures |t.out| <= 1
    ensures forall i :: 0 <= i < |t.out| && t.out[i].Stale? ==> ev.InitialData?
  {
    match ev
    case FetcherEnabled(_) | SetPermitted(_) | BrowserEnabled(_) =>
      // root handlers target maybeStart; refreshing overrides them with targetless assignments
      var updated := ApplyControl(ctx, ev);
      if state == Refreshing then Stay(Refreshing, updated) else Resolve(updated)
    case InitialData(data) =>
      Transition(state, ctx, ReceiveInitialData(ctx, data))
    case ForceRefresh =>
      if state == WaitingForRefresh || (state == Disabled && PermittedToRefresh(ctx)) then Stay(Refreshing, ctx)
      else Stay(state, ctx)
    case RefreshTimerFired =>
      if state == WaitingForRefresh then Stay(Refreshing, ctx) else Stay(state, ctx)
    case BackoffTimerFired =>
      if state == ErrorBackoff then Stay(Refreshing, ctx) else Stay(state, ctx)
    case FetchDone(result) =>
      if state != Refreshing then Stay(state, ctx)
      else
        var (updated, delivered) := RefreshDone(ctx, result, now);
        var next := Resolve(updated);
        Transition(next.state, next.ctx, delivered + next.out)
    case FetchFailed(error) =>
      if state != Refreshing then Stay(state, ctx)
      else
        var (updated, delivered) := ReportError(ctx, error, online);
        EnterErrorBackoff(updated, delivered)
  }

  /** The interpreter processing events strictly in arrival order. The
      invariant holds after any sequence of events, and each event causes at
      most one `receive` call. */
  function Run<T, E>(state: State, ctx: Context, inputs: seq<Input<T, E>>): (r: Transition<T, E>)
    ensures Inv(state, ctx) ==> Inv(r.state, r.ctx)
    ensures |r.out| <= |inputs|
    decreases |inputs|
  {
    if inputs == [] then Stay(state, ctx)
    else
      var t := Step(state, ctx, inputs[0].ev, inputs[0].now, inputs[0].online);
      var rest := Run(t.state, t.ctx, inputs[1..]);
      Transition(rest.state, rest.ctx, t.out + rest.out)
  }

  /** What holds of every state the machine can rest in. */
  ghost predicate Inv(state: State, ctx: Context)
  {
    && (ctx.reportedError <==> ctx.retries > 0)
    && (state == NotPermitted ==> !ctx.permitted && ctx.lastRefresh == 0)
    && (state == Disabled ==> ctx.permitted && !CanEnable(ctx))
    && (state == WaitingForRefresh ==> CanEnable(ctx))
    && (state == ErrorBackoff ==> ctx.reportedError)
  }

  // Initial context

  /** JavaScript's `x || y` for an optional boolean `x`. */
  function JsOr(x: Option<bool>, y: bool): bool
  {
    if x == Some(true) then true else y
  }

  /** The initial context as written, with `initialEnabled || true` and
      `initialPermitted || true`: both flags are true whatever was passed. */
  function InitialContext(initialEnabled: Option<bool>, initialPermitted: Option<bool>): (c: Context)
    ensures c.storeEnabled && c.permitted
    ensures c.lastRefresh == 0 && c.retries == 0 && !c.reportedError && c.browserEnabled
  {
    Context(lastRefresh := 0, retries := 0, reportedError := false, browserEnabled := true,
      storeEnabled := JsOr(initialEnabled, true), permitted := JsOr(initialPermitted, true))
  }

  /** The initial context as documented: an explicit value is honoured and an
      absent one defaults to true. */
  function IntendedInitialContext(initialEnabled: Option<bool>, initialPermitted: Option<bool>): (c: Context)
    ensures initialEnabled.Some? ==> c.storeEnabled == initialEnabled.value
    ensures initialPermitted.Some? ==> c.permitted == initialPermitted.value
    ensures initialEnabled.None? ==> c.storeEnabled
    ensures initialPermitted.None? ==> c.permitted
    ensures c.lastRefresh == 0 && c.retries == 0 && !c.reportedError && c.browserEnabled
  {
    Context(lastRefresh := 0, retries := 0, reportedError := false, browserEnabled := true,
      storeEnabled := initialEnabled != Some(false), permitted := initialPermitted != Some(false))
  }

  /** What the machine sees of the value the `initialData` loader resolved
      to: its `data` property, None when it has none. */
  datatype Loaded<T> = Loaded(data: Option<T>)

  /** `fetchInitial`: INITIAL_DATA is sent only when the loader produced a
      value other than null or undefined (`loaded` is None for those). The
      two-argument `send` spreads that value into the event, so the event's
      `data` is the value's own `data` property, not the value itself. */
  function FetchInitial<T, E>(loaded: Option<Loaded<T>>): (sent: seq<Event<T, E>>)
    ensures |sent| <= 1
    ensures sent != [] <==> loaded.Some?
    ensures sent != [] ==> sent[0] == InitialData(loaded.value.data)
  {
    match loaded
    case Some(value) => [InitialData(value.data)]
    case None => []
  }

  /** `BROWSER_ENABLED` carries `focused && online && visible`. */
  function BrowserActive(s: Browser.BrowserState): bool
  {
    s.focused && s.online && s.visible
  }

  /** The object returned by `fetcher`: the running interpreter and its control methods.
      `received` is every `receive` call made so far, in order. */
  class Fetcher<T, E> {
    const config: Config
    var state: State
    var ctx: Context
    var received: seq<Delivery<T, E>>
    var stopped: bool

    ghost predicate Valid()
      reads this
    {
      Inv(state, ctx)
    }

    /** `fetcher(options)`: start the interpreter, which resolves the initial
        `maybeStart` at once, then subscribe to the environment signal source,
        which calls the new listener straight away with the current `browser`
        state. The handle is returned only after that BROWSER_ENABLED. The
        initial context honours explicit `false` options (see
        `IntendedInitialContext`). */
    constructor (autoRefreshPeriod: Option<int>, maxBackoff: Option<int>,
                 initialEnabled: Option<bool>, initialPermitted: Option<bool>, browser: Browser.BrowserState)
      ensures Valid() && !stopped && config == MakeConfig(autoRefreshPeriod, maxBackoff)
      ensures var started := Resolve<T, E>(IntendedInitialContext(initialEnabled, initialPermitted));
        var t := Step<T, E>(started.state, started.ctx, Event.BrowserEnabled(BrowserActive(browser)), 0, true);
        state == t.state && ctx == t.ctx && received == started.out + t.out
    {
      var started := Resolve<T, E>(IntendedInitialContext(initialEnabled, initialPermitted));
      config := MakeConfig(autoRefreshPeriod, maxBackoff);
      state, ctx, received, stopped := started.state, started.ctx, started.out, false;
      new;
      NotifyBrowserState(browser);
    }

    /** `machine.send`: a stopped interpreter ignores every event. */
    method Send(ev: Event<T, E>, now: int, online: bool)
      requires Valid()
      modifies this
      ensures Valid() && stopped == old(stopped)
      ensures old(stopped) ==> state == old(state) && ctx == old(ctx) && received == old(received)
      ensures !old(stopped) ==>
        var t := Step(old(state), old(ctx), ev, now, online);
        state == t.state && ctx == t.ctx && received == old(received) + t.out
    {
      if !stopped {
        var t := Step(state, ctx, ev, now, online);
        state, ctx, received := t.state, t.ctx, received + t.out;
      }
    }

    /** `setEnabled`: while refreshing only the flag changes; otherwise the
        machine re-resolves from the updated context. */
    method SetEnabled(enabled: bool)
      requires Valid()
      modifies this
      ensures Valid() && stopped == old(stopped)
      ensures old(stopped) ==> state == old(state) && ctx == old(ctx) && received == old(received)
      ensures !old(stopped) && old(state) == Refreshing ==>
        state == Refreshing && ctx == old(ctx).(storeEnabled := enabled) && received == old(received)
      ensures !old(stopped) && old(state) != Refreshing ==>
        var t := Resolve<T, E>(old(ctx).(storeEnabled := enabled));
        state == t.state && ctx == t.ctx && received == old(received) + t.out
    {
      // control events read neither the clock nor connectivity
      Send(Event.FetcherEnabled(enabled), 0, true);
    }

    /** `setPermitted`. */
    method SetPermitted(permitted: bool)
      requires Valid()
      modifies this
      ensures Valid() && stopped == old(stopped)
      ensures old(stopped) ==> state == old(state) && ctx == old(ctx) && received == old(received)
      ensures !old(stopped) && old(state) == Refreshing ==>
        state == Refreshing && ctx == old(ctx).(permitted := permitted) && received == old(received)
      ensures !old(stopped) && old(state) != Refreshing ==>
        var t := Resolve<T, E>(old(ctx).(permitted := permitted));
        state == t.state && ctx == t.ctx && received == old(received) + t.out
    {
      Send(Event.SetPermitted(permitted), 0, true);
    }

    /** The subscription to the environment signal source: each notification
        becomes `BROWSER_ENABLED` with `focused && online && visible`. */
    method NotifyBrowserState(s: Browser.BrowserState)
      requires Valid()
      modifies this
      ensures Valid() && stopped == old(stopped)
      ensures old(stopped) ==> state == old(state) && ctx == old(ctx) && received == old(received)
      ensures !old(stopped) && old(state) == Refreshing ==>
        state == Refreshing && ctx == old(ctx).(browserEnabled := BrowserActive(s)) && received == old(received)
      ensures !old(stopped) && old(state) != Refreshing ==>
        var t := Resolve<T, E>(old(ctx).(browserEnabled := BrowserActive(s)));
        state == t.state && ctx == t.ctx && received == old(received) + t.out
    {
      Send(Event.BrowserEnabled(BrowserActive(s)), 0, true);
    }

    /** The continuation of `fetchInitial` once the loader has settled with
        `loaded`: INITIAL_DATA, if sent, changes neither state nor context and
        passes on the value's `data` as stale while nothing has been fetched. */
    method InitialDataSettled(loaded: Option<Loaded<T>>)
      requires Valid()
      modifies this
      ensures Valid() && stopped == old(stopped)
      ensures state == old(state) && ctx == old(ctx)
      ensures received == old(received) +
        if !old(stopped) && loaded.Some? && old(ctx).lastRefresh == 0 then [Stale(loaded.value.data)] else []
    {
      var sent := FetchInitial<T, E>(loaded);
      if sent != [] {
        // INITIAL_DATA reads neither the clock nor connectivity
        Send(sent[0], 0, true);
      }
    }

    /** `refresh`: FORCE_REFRESH starts a fetch from `waitingForRefresh`, and
        from `disabled` (which is always permitted); it is ignored elsewhere. */
    method Refresh()
      requires Valid()
      modifies this
      ensures Valid() && stopped == old(stopped)
      ensures ctx == old(ctx) && received == old(received)
      ensures state == if !old(stopped) && old(state) in {WaitingForRefresh, Disabled} then Refreshing else old(state)
    {
      Send(Event.ForceRefresh, 0, true);
    }

    /** `destroy`: stop the interpreter; later events, including a fetch that
        settles afterwards, change nothing and deliver nothing. */
    method Destroy()
      modifies this
      ensures stopped
      ensures state == old(state) && ctx == old(ctx) && received == old(received)
      ensures old(Valid()) ==> Valid()
    {
      stopped := true;
    }
  }
}
