# swr-xstate refresh machine, modelled in Dafny

This project models the core of `swr-xstate`: the per-key refresh state
machine built by `fetcher` (src/fetcher.ts), its older compiled twin without
initial-data support (dist/fetcher.js), and the environment signal source's
listener registry (dist/browser_state.js).

- `fetcher.dfy` (module `Fetcher`): the state chart as a pure function
  `Step(state, ctx, event, now, online)` returning the new resting state, the
  new context and the `receive` calls the transition makes. The five resting
  states are `notPermitted`, `disabled`, `waitingForRefresh`, `refreshing` and
  `errorBackoff`. The transient `maybeStart` is resolved inside the step by
  `Resolve`, which tries its guards in order, so the machine never rests
  there. The same file holds the guards, the assign actions, the two delay
  formulas, the initial context, the invariant `Inv` of every resting state,
  and the class `Fetcher`: the interpreter plus the handle's `setEnabled`,
  `setPermitted`, `refresh` and `destroy`. Its constructor ends where
  `fetcher()` returns: after the BROWSER_ENABLED that subscribing delivers
  synchronously. `InitialDataSettled` is the rest of `fetchInitial`, after
  the loader has settled.
- `fetcher_properties.dfy` (module `FetcherProperties`): lemmas for the delay
  bounds, the guard order, what each event does in each state, the
  notPermitted entry protocol, and "at most one error per failure streak"
  over whole runs.
- `legacy_fetcher.dfy` (module `LegacyFetcher`): the older machine. Its
  events are the newer set without INITIAL_DATA, and each of them is handled
  by the same transition. Its delays (dist/fetcher.js:81-92), actions
  (:96-133), guards (:134-148) and initial context (:149-156) are the same
  text as in src/fetcher.ts. They are modelled by the same definitions:
  `ErrorBackoffDelay`, `NextRefreshDelay`, `CanEnable`, `RefreshDone`,
  `ReportError` and `InitialContext`.
- `browser_state.dfy` (module `Browser`): the platform defaults of
  `isDocumentVisible`/`isOnline`, and the `listeners` registry as a class
  whose `seq` field `subscribe` and `unsubscribe` reassign. The registry
  also keeps an `attached` flag that stands for the five window listeners.
  Its `Refresh` method is the error-deferring fan-out loop.
- `optional.dfy`: an `Option` type for values JavaScript leaves `undefined`.

Timers, the fetch promise and the initial-data loader are outside the model.
Their effects arrive as events: `RefreshTimerFired`, `BackoffTimerFired`,
`FetchDone(Data(d) | Unmodified)`, `FetchFailed(e)` and `InitialData(d)`.
`Date.now()` and `isOnline()` are the step's `now` and `online` parameters.
Each `receive` call is a `Delivery` in the transition's output:

- `Fresh(d)` stands for `{data}`.
- `Stale(d)` stands for `{data: d, stale: true}`. `d` is the INITIAL_DATA
  event's `data`, and `None` stands for undefined.
- `Cleared` stands for `{data: null}`.
- `Failed(e)` stands for `{error}`.

Where a reading of the intent differs from the code, the model follows the code:

- FETCHER_ENABLED, SET_PERMITTED and BROWSER_ENABLED go through the root
  handlers in `errorBackoff` too, because that state has no override. So
  withdrawing permission during backoff moves the machine to `notPermitted`
  at once. The pending retry is not kept.
- Entering `notPermitted` clears `lastRefresh` only. `retries` and
  `reportedError` are left as they were.
- `receiveInitialData` delivers `{data, stale: true}` and changes no context.
  It does not set `lastRefresh`, and no delivery carries a timestamp.
- `reportError` sets `reportedError` even when it delivers nothing, for
  example when offline.
- `fetchInitial` sends the loaded value with the two-argument
  `send('INITIAL_DATA', data)`. xstate spreads that value into the event
  object, so `event.data` is the loaded value's own `data` property. The
  delivery carries that property, or undefined when the value has none. The
  model's `Loaded` keeps only that property. The `timestamp` of the
  `{data, timestamp?}` shape (dist/fetcher.d.ts:16-19) is read by no code.
- The only guard on stale data is `lastRefresh`, and entering
  `notPermitted` clears it. So an INITIAL_DATA that arrives after permission
  was withdrawn delivers stale data, even in `notPermitted` and even after
  live data.
- `fetcher()` sends BROWSER_ENABLED once before it returns, because
  `subscribe` calls the new listener at once. As written, `|| true` never
  withholds permission at construction. With the corrected start
  (`IntendedInitialContext`, see "## Findings") and `initialPermitted: false`,
  `{data: null}` is delivered twice during construction, because
  BROWSER_ENABLED re-enters `notPermitted`.
- `refresh` in browser_state.js re-throws the last caught value, and only
  when that value is truthy. It does not re-throw the first error.
- The delay that `errorBackoff` arms is computed from the context the state
  rests in, after `incrementRetry`. xstate applies a transition's assign
  actions before it resolves delayed sends.

## Model

| member | source | states |
|---|---|---|
| `Fetcher.ErrorBackoffDelay` | src/fetcher.ts:163-167 | the backoff delay is never above `maxBackoff` and never below min(200, maxBackoff) |
| `Fetcher.NextRefreshDelay` | src/fetcher.ts:168-172 | the delay is never negative; the timer fires exactly at `lastRefresh + autoRefreshPeriod`, or at once when that deadline has passed |
| `Fetcher.MakeConfig` | src/fetcher.ts:72-73 | an option that is passed is used as given; an absent `autoRefreshPeriod` is one hour and an absent `maxBackoff` one minute |
| `Fetcher.ArmedDelay` | src/fetcher.ts:125-127 | exactly waitingForRefresh and errorBackoff arm a timer: the refresh timer fires no earlier than lastRefresh + autoRefreshPeriod, and the backoff delay lies between min(200, maxBackoff) and maxBackoff |
| `Fetcher.CanEnable` | src/fetcher.ts:234-246 | `can_enable` holds iff storeEnabled and permitted, and either nothing has been fetched (lastRefresh = 0) or the browser is active |
| `Fetcher.ApplyControl` | src/fetcher.ts:181-189 | each control action assigns the event's value to its own flag and changes nothing else |
| `Fetcher.ReceiveInitialData` | src/fetcher.ts:190-200 | the stale data is passed on iff lastRefresh is 0, as one `{data, stale: true}` call |
| `Fetcher.RefreshDone` | src/fetcher.ts:202-214 | lastRefresh becomes now, and retries and reportedError are reset, with the flags kept; the data is delivered iff it is not UNMODIFIED and fetching is permitted |
| `Fetcher.ReportError` | src/fetcher.ts:215-228 | reportedError becomes true and nothing else changes; the error is delivered iff none was reported in this streak and the browser is online |
| `Fetcher.Resolve` | src/fetcher.ts:114-120 | `maybeStart` picks notPermitted iff not permitted, waitingForRefresh iff `can_enable`, and disabled otherwise; only the notPermitted entry delivers `{data: null}` and clears lastRefresh |
| `Fetcher.Step` | src/fetcher.ts:85-160 | every transition keeps the resting-state invariant (reportedError iff retries > 0; notPermitted has permission withdrawn and lastRefresh 0; disabled is permitted but cannot enable; waitingForRefresh can enable; errorBackoff has reported its streak), calls `receive` at most once, and delivers stale data only for INITIAL_DATA |
| `Fetcher.Run` | src/fetcher.ts:259 | the interpreter keeps the invariant over any sequence of events, and makes at most one `receive` call per event |
| `Fetcher.InitialContext` | src/fetcher.ts:249-256 | as written, the initial context has storeEnabled and permitted true whatever options are passed, lastRefresh = retries = 0, browserEnabled true, nothing reported |
| `Fetcher.IntendedInitialContext` | src/fetcher.ts:44-51 | an explicit `initialEnabled`/`initialPermitted` is honoured and an absent one defaults to true |
| `Fetcher.FetchInitial` | src/fetcher.ts:272-281 | INITIAL_DATA is sent at most once, exactly when the loader resolved to something other than null or undefined, and it carries that value's own `data` property (the event spreads the value) |
| `Fetcher.Fetcher.InitialDataSettled` | src/fetcher.ts:272-281 | once the loader settles, state and context are unchanged, and the value's `data` is delivered as stale exactly when a value was loaded, the interpreter runs, and lastRefresh is 0 |
| `Fetcher.Fetcher.constructor` | src/fetcher.ts:259-270 | applies the option defaults (:72-73), resolves `maybeStart` from `IntendedInitialContext` (the corrected initial context, not the `\|\| true` of :254-255), then handles the synchronous BROWSER_ENABLED from `subscribe` (:267-270); the invariant holds |
| `Fetcher.Fetcher.Send` | src/fetcher.ts:259 | a running interpreter moves to `Step`'s state and context and appends its deliveries to everything received; a stopped one changes nothing |
| `Fetcher.Fetcher.SetEnabled` | src/fetcher.ts:286 | while refreshing only storeEnabled changes; otherwise the machine re-resolves `maybeStart` from the updated context |
| `Fetcher.Fetcher.SetPermitted` | src/fetcher.ts:289 | while refreshing only permitted changes; otherwise the machine re-resolves from the updated context |
| `Fetcher.Fetcher.NotifyBrowserState` | src/fetcher.ts:267-270 | an environment notification sets browserEnabled to focused and online and visible, with the same routing as the other control events |
| `Fetcher.Fetcher.Refresh` | src/fetcher.ts:291 | a forced refresh starts a fetch from waitingForRefresh or disabled and is ignored elsewhere; context and deliveries unchanged |
| `Fetcher.Fetcher.Destroy` | src/fetcher.ts:292-295 | after destroy the interpreter is stopped and nothing changes or is delivered |
| `FetcherProperties.BackoffMonotone` | src/fetcher.ts:163-167 | the backoff delay is non-decreasing in retries |
| `FetcherProperties.BackoffFlatFromExponentCap` | src/fetcher.ts:165 | the delay is the same for every retries >= 20 and never exceeds 200 * 2^20 |
| `FetcherProperties.DefaultBackoffSchedule` | src/fetcher.ts:73 | with the default one-minute cap, the delay computed from retries is 200 ms at 0, 400 ms at 1, 6400 ms at 5, 51200 ms at 8, and 60000 ms from 9 on |
| `FetcherProperties.BackoffDelayAfterFailure` | src/fetcher.ts:153-157 | every reachable errorBackoff has retries >= 1 (its delay is computed after `incrementRetry`), so a retry waits at least min(400, maxBackoff) |
| `FetcherProperties.RefreshDelayBounds` | src/fetcher.ts:168-172 | the refresh delay is 0 once now - lastRefresh >= autoRefreshPeriod, and at most autoRefreshPeriod when lastRefresh <= now |
| `FetcherProperties.ResolveGuardOrder` | src/fetcher.ts:115-119 | the resting state is given by the guards in order: not permitted, then can_enable, then disabled |
| `FetcherProperties.FirstFetchNotDelayed` | src/fetcher.ts:121-128 | a resource never fetched, enabled and permitted waits with delay 0 (once now >= autoRefreshPeriod) whatever browserEnabled is |
| `FetcherProperties.ControlEventsWhileRefreshing` | src/fetcher.ts:129-139 | in refreshing, a control event assigns exactly its own field, keeps the state and delivers nothing |
| `FetcherProperties.ControlEventsElsewhere` | src/fetcher.ts:89-95 | in every other state, errorBackoff included, a control event assigns its field and re-resolves `maybeStart` |
| `FetcherProperties.PermissionWithdrawnDuringBackoff` | src/fetcher.ts:153-158 | SET_PERMITTED(false) in errorBackoff goes to notPermitted with `{data: null}` and lastRefresh 0 |
| `FetcherProperties.FetchDoneOutcome` | src/fetcher.ts:202-214 | a successful fetch resets retries and reportedError, keeps the three flags, stamps lastRefresh (then cleared if not permitted), delivers data iff not UNMODIFIED and permitted, and re-resolves |
| `FetcherProperties.FetchFailedOutcome` | src/fetcher.ts:215-228 | a failed fetch goes to errorBackoff with retries + 1 and reportedError set, delivering the error iff none was reported and online |
| `FetcherProperties.BackoffTimerRetries` | src/fetcher.ts:153-158 | the backoff timer goes straight to refreshing with the context unchanged |
| `FetcherProperties.StrayEventsIgnored` | src/fetcher.ts:100-159 | fetch outcomes outside refreshing and timers outside their own state change nothing |
| `FetcherProperties.ClearedExactlyOnEntry` | src/fetcher.ts:102-104 | `{data: null}` is delivered iff the step enters notPermitted (a control event re-enters it); it comes alone, lastRefresh becomes 0, and a control entry leaves retries and reportedError alone |
| `FetcherProperties.NoFetchWhileNotPermitted` | src/fetcher.ts:101-104 | no event starts a fetch from notPermitted |
| `FetcherProperties.ForceRefreshOutcome` | src/fetcher.ts:105-128 | FORCE_REFRESH never changes context or delivers; it starts a fetch from waitingForRefresh, and from disabled only if permitted, and otherwise leaves the state alone |
| `FetcherProperties.ForceRefreshHonouredWhenDisabled` | src/fetcher.ts:105-113 | in any reachable disabled state the `permitted_to_refresh` guard holds, so FORCE_REFRESH starts a fetch |
| `FetcherProperties.InitialDataOutcome` | src/fetcher.ts:190-200 | INITIAL_DATA never changes state or context and delivers the stale data iff lastRefresh is 0 |
| `FetcherProperties.LiveDataNotOverwrittenByStale` | src/fetcher.ts:191-194 | right after a permitted successful fetch at a non-zero time, INITIAL_DATA delivers nothing |
| `FetcherProperties.StaleDataAfterPermissionWithdrawn` | src/fetcher.ts:101-104 | after SET_PERMITTED(false) from any state but refreshing, lastRefresh is 0 again, so INITIAL_DATA delivers stale data in notPermitted |
| `FetcherProperties.StartAsWritten` | src/fetcher.ts:249-256 | as written, the machine always starts in waitingForRefresh with nothing delivered |
| `FetcherProperties.ExplicitFalseIgnored` | src/fetcher.ts:254-255 | passing false for both options still yields an enabled, permitted start; the intended defaulting starts in notPermitted |
| `FetcherProperties.InitialContextsValid` | src/fetcher.ts:249-256 | the machine's first resting state satisfies the invariant, for both initial contexts |
| `FetcherProperties.StartupOutcome` | src/fetcher.ts:259-270 | the handle `fetcher()` returns rests in notPermitted iff permission was withheld, in waitingForRefresh iff it was also enabled (whatever the browser's activity), and in disabled otherwise; browserEnabled reflects the environment; `{data: null}` was delivered twice if not permitted, and nothing otherwise |
| `FetcherProperties.RunAppend` | src/fetcher.ts:259 | running two event sequences one after the other equals running their concatenation: events are handled strictly in order and the deliveries concatenate |
| `FetcherProperties.StepErrorBound` | src/fetcher.ts:215-228 | without a successful fetch, a step delivers an error only when it turns reportedError from false to true, and never resets it |
| `FetcherProperties.AtMostOneErrorPerStreak` | src/fetcher.ts:218-227 | in any run with no fetch success, at most one error is delivered, and none if the streak was already reported |
| `LegacyFetcher.LiftLowerRoundTrip` | dist/fetcher.js:12-19 | each older event lifts to its same-named newer event and back; every newer event except INITIAL_DATA comes from exactly one older event |
| `LegacyFetcher.LegacyStep` | dist/fetcher.js:9-79 | a transition of the older machine never delivers stale data, calls `receive` at most once and keeps the invariant |
| `LegacyFetcher.LegacyControlEvents` | dist/fetcher.js:49-59 | in refreshing, control events only assign their field; elsewhere the machine re-resolves in guard order |
| `LegacyFetcher.LegacyFetchOutcomes` | dist/fetcher.js:110-131 | `refreshDone` resets the streak, stamps lastRefresh and delivers only non-UNMODIFIED data while permitted; `reportError` delivers only the first online error and always marks the streak |
| `LegacyFetcher.LegacyFetcher.constructor` | dist/fetcher.js:157-166 | applies the option defaults (:4-5), resolves `maybeStart` from `IntendedInitialContext` (not the `\|\| true` of :154-155), then handles the synchronous BROWSER_ENABLED from the subscription (:163-166); the invariant holds |
| `LegacyFetcher.LegacyFetcher.Send` | dist/fetcher.js:157 | a running interpreter takes `LegacyStep`'s state and context and appends its deliveries; a stopped one changes nothing |
| `LegacyFetcher.LegacyFetcher.SetEnabled` | dist/fetcher.js:170 | only storeEnabled changes while refreshing; otherwise re-resolve |
| `LegacyFetcher.LegacyFetcher.SetPermitted` | dist/fetcher.js:173 | only permitted changes while refreshing; otherwise re-resolve |
| `LegacyFetcher.LegacyFetcher.NotifyBrowserState` | dist/fetcher.js:163-166 | an environment notification sets browserEnabled to focused and online and visible; only that flag changes while refreshing, and otherwise the machine re-resolves |
| `LegacyFetcher.LegacyFetcher.Refresh` | dist/fetcher.js:175 | a forced refresh starts a fetch from waitingForRefresh or disabled and is ignored elsewhere |
| `LegacyFetcher.LegacyFetcher.Destroy` | dist/fetcher.js:176-179 | after destroy nothing changes or is delivered |
| `Browser.IsDocumentVisible` | dist/browser_state.js:2-9 | visible unless the visibility state exists and is exactly 'hidden' |
| `Browser.IsOnline` | dist/browser_state.js:10-16 | `navigator.onLine` when defined, true otherwise |
| `Browser.GetBrowserState` | dist/browser_state.js:20-26 | the state is online unless the platform reports offline, visible unless it reports 'hidden', and focused as the document reports |
| `Browser.IndexOf` | dist/browser_state.js:47 | the first position of the callback, or -1 exactly when it is absent |
| `Browser.RemoveFirst` | dist/browser_state.js:46-50 | removing a callback shortens the list by one exactly when the callback is present |
| `Browser.RemoveFirstIsSplice` | dist/browser_state.js:47-50 | `splice(indexOf(cb), 1)` removes exactly the first occurrence and keeps the others in order |
| `Browser.RemoveFirstAbsent` | dist/browser_state.js:48 | an absent callback leaves the list unchanged |
| `Browser.RemoveFirstMultiset` | dist/browser_state.js:49 | removal takes away exactly one copy of a present callback and nothing else |
| `Browser.RemoveFirstAppended` | dist/browser_state.js:67 | unsubscribing a callback just pushed removes its earlier copy if there is one, and otherwise the pushed one |
| `Browser.LastCaught` | dist/browser_state.js:31-39 | the caught value, if any, is the outcome of one of the listeners |
| `Browser.Rethrow` | dist/browser_state.js:41-44 | a re-thrown value is a truthy value that some listener threw |
| `Browser.SubscribeUnsubscribeRoundTrip` | dist/browser_state.js:67-70 | subscribe followed by its unsubscriber always restores the listeners as a multiset; it restores the exact list when the callback was new; when the callback was already registered, its first copy is removed and the callback moves to the end |
| `Browser.LastCaughtIsLastThrow` | dist/browser_state.js:31-39 | the caught error is the one thrown by the last listener that threw, and none exactly when no listener threw |
| `Browser.RethrowIffLastThrowTruthy` | dist/browser_state.js:41-44 | `refresh` re-throws iff the last listener that threw threw a truthy value, and what it re-throws is that last listener's value |
| `Browser.Registry.constructor` | dist/browser_state.js:27 | the registry starts empty and detached |
| `Browser.Registry.Subscribe` | dist/browser_state.js:59-71 | appends the callback, attaches exactly when the list was empty, calls the callback once with the current state, and keeps "attached iff non-empty" |
| `Browser.Registry.Unsubscribe` | dist/browser_state.js:46-58 | removes the first occurrence if any, detaches whenever the list is then empty (found or not), and keeps "attached iff non-empty" |
| `Browser.Registry.Refresh` | dist/browser_state.js:28-45 | calls every listener in order with one computed state, continues past throwing listeners, and re-throws what `Rethrow` says |

## Findings

| source | as written | input that shows it | evidently intended | confidence | as-written member | corrected member |
|---|---|---|---|---|---|---|
| src/fetcher.ts:254-255 | `storeEnabled: initialEnabled \|\| true` and `permitted: initialPermitted \|\| true`, also at dist/fetcher.js:154-155 | `initialEnabled: false, initialPermitted: false` still starts enabled and permitted, in waitingForRefresh | an explicit false is honoured, as the option comments at src/fetcher.ts:44-51 describe ("False if it should wait for `setPermitted(true)`") | high; not executed | `FetcherProperties.ExplicitFalseIgnored` | `Fetcher.IntendedInitialContext` |

Both handle classes start from `IntendedInitialContext`. `InitialContext`
and `StartAsWritten` keep the code as written.

## Left out

- The xstate library is not modelled: `Machine`, `interpret`, the `after`
  timers, the `invoke` plumbing and `machine.stop`. Timer expiry and fetch
  settlement are events. Re-arming a timer when a state is re-entered is not
  tracked; `ArmedDelay` gives the delay a state arms when it is entered.
- `Date.now()` and `isOnline()` are not called. They are the step's `now`
  and `online` parameters.
- The host callbacks `fetch`, `initialData` and `receive` are foreign code.
  Fetch outcomes are events and `receive` calls are outputs. The asynchronous
  timing of `fetchInitial` is not modelled, so INITIAL_DATA may arrive at any step.
- The `debug` hook, `name` and the machine `id` are logging only.
- `UNMODIFIED` is the `Unmodified` variant, not a Symbol compared by identity.
  `{data: null}` from `clearData` is the `Cleared` variant, kept apart from
  fetched data that happens to be null.
- JavaScript numbers are IEEE-754 doubles; the model uses unbounded
  integers. Every value the machine computes, up to 200 * 2^20 and
  `Date.now()`, is an integer that a double holds exactly. Non-integer or NaN values for
  `maxBackoff`, `autoRefreshPeriod` or `lastRefresh` are not modelled.
- The platform probes and `window.add/removeEventListener` are not modelled.
  They are the `Platform` input and the `attached` flag. `isDocumentFocused`
  is the `hasFocus` input. The exception `isOnline` would raise when
  `navigator` itself is undefined is not modelled.
- Listeners that subscribe or unsubscribe during the fan-out are not modelled,
  because callback bodies are unknown. Each listener's outcome is an input.
  An exception thrown by the immediate call in `subscribe` is not modelled;
  it would propagate after the callback is registered.
- The fetcher's subscription handle is not linked to the registry object.
  The constructors take the current `BrowserState` for the immediate call.
  Later notifications are `NotifyBrowserState`, and the unsubscribe that
  `destroy` performs is `Registry.Unsubscribe`.
- dist/fetcher.d.ts and dist/browser_state.d.ts hold type declarations only.
  The timestamped deliveries they describe have no implementation here.
- AtMostOneErrorPerStreak: stated for runs with no FetchDone event at all.
  The code also ignores a FetchDone that arrives outside `refreshing`, so the
  property holds more widely than stated.
- `config` in both handle classes records the options with their defaults
  applied. No method reads it, because the timers it would configure are
  outside the model. `ArmedDelay` takes the config and gives the delays.
- The handle methods `SetEnabled`, `SetPermitted`, `NotifyBrowserState`,
  `InitialDataSettled` and `Refresh` pass a fixed clock and connectivity to
  `Send`, and so does the constructor. Control events, INITIAL_DATA and
  FORCE_REFRESH read neither.
- A loaded value with no `data` property is modelled, as `Loaded(None)`.
  A primitive value spread into the event (a string's characters become
  numbered keys) is not modelled; it too leaves `data` undefined.
