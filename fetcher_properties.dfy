/**
 * Properties of the refresh state machine of src/fetcher.ts: the delay
 * arithmetic, the order of the `maybeStart` guards, what each event does in
 * each state, the invariant of every resting state, and the error-reporting
 * policy over whole runs.
 */
module FetcherProperties {
  import opened Optional
  import opened Fetcher

  // Delays

  lemma {:induction false} Pow2Monotone(j: nat, k: nat)
    requires j <= k
    ensures Pow2(j) <= Pow2(k)
  {
    if j < k {
      Pow2Monotone(j, k - 1);
    }
  }

  /** The backoff delay never shrinks as failures accumulate. */
  lemma BackoffMonotone(r1: nat, r2: nat, maxBackoff: int)
    requires r1 <= r2
    ensures ErrorBackoffDelay(r1, maxBackoff) <= ErrorBackoffDelay(r2, maxBackoff)
  {
    Pow2Monotone(Min(r1, MaxExponent), Min(r2, MaxExponent));
  }

  /** From 20 retries on the delay is the same, and it never exceeds 200 * 2^20. */
  lemma BackoffFlatFromExponentCap(retries: nat, maxBackoff: int)
    ensures retries >= MaxExponent ==> ErrorBackoffDelay(retries, maxBackoff) == ErrorBackoffDelay(MaxExponent, maxBackoff)
    ensures ErrorBackoffDelay(retries, maxBackoff) <= BaseDelay * Pow2(MaxExponent)
  {
    Pow2Monotone(Min(retries, MaxExponent), MaxExponent);
  }

  /** The values of the delay with the default one-minute cap, by the
      `retries` count it is computed from: 200 ms at 0, 400 ms at 1, 6400 ms
      at 5, and the full minute from 9 on. Since the delay is computed after
      `incrementRetry`, the first backoff of a streak uses `retries` = 1. */
  lemma DefaultBackoffSchedule(retries: nat)
    ensures ErrorBackoffDelay(0, DefaultMaxBackoff) == 200
    ensures ErrorBackoffDelay(1, DefaultMaxBackoff) == 400
    ensures ErrorBackoffDelay(5, DefaultMaxBackoff) == 6400
    ensures ErrorBackoffDelay(8, DefaultMaxBackoff) == 51200
    ensures retries >= 9 ==> ErrorBackoffDelay(retries, DefaultMaxBackoff) == DefaultMaxBackoff
  {
    assert Pow2(5) == 32;
    assert Pow2(8) == 256;
    assert Pow2(9) == 512;
    if retries >= 9 {
      Pow2Monotone(9, Min(retries, MaxExponent));
    }
  }

  /** Every errorBackoff the machine can rest in has counted at least one
      failure, so a retry never waits less than 400 ms (or `maxBackoff`, if
      that is smaller). */
  lemma BackoffDelayAfterFailure(ctx: Context, maxBackoff: int)
    requires Inv(ErrorBackoff, ctx)
    ensures ErrorBackoffDelay(ctx.retries, maxBackoff) >= Min(2 * BaseDelay, maxBackoff)
  {
    Pow2Monotone(1, Min(ctx.retries, MaxExponent));
  }

  /** The refresh delay is never negative, is zero once overdue, and is at
      most one period after a refresh in the past. */
  lemma RefreshDelayBounds(lastRefresh: int, now: int, autoRefreshPeriod: int)
    ensures now - lastRefresh >= autoRefreshPeriod ==> NextRefreshDelay(lastRefresh, now, autoRefreshPeriod) == 0
    ensures lastRefresh <= now && 0 <= autoRefreshPeriod ==> NextRefreshDelay(lastRefresh, now, autoRefreshPeriod) <= autoRefreshPeriod
  {
  }

  // maybeStart

  /** The machine comes to rest in the first `maybeStart` branch whose guard holds. */
  lemma ResolveGuardOrder<T, E>(ctx: Context)
    ensures var t := Resolve<T, E>(ctx);
      t.state == (if !ctx.permitted then NotPermitted
                  else if ctx.storeEnabled && (ctx.lastRefresh == 0 || ctx.browserEnabled) then WaitingForRefresh
                  else Disabled)
  {
  }

  /** A resource that was never fetched, enabled and permitted, is fetched
      without waiting, whatever the browser's activity, once `now` is at least
      one `autoRefreshPeriod` (lastRefresh 0 counts as a refresh at time 0). */
  lemma FirstFetchNotDelayed<T, E>(ctx: Context, now: int, config: Config)
    requires ctx.lastRefresh == 0 && ctx.storeEnabled && ctx.permitted
    requires now >= config.autoRefreshPeriod
    ensures var t := Resolve<T, E>(ctx);
      t.state == WaitingForRefresh && t.ctx == ctx && t.out == [] &&
      ArmedDelay(t.state, t.ctx, now, config) == Some(0)
  {
  }

  // Control events

  /** While a fetch is in flight, FETCHER_ENABLED, SET_PERMITTED and
      BROWSER_ENABLED assign exactly their own field and nothing else happens. */
  lemma ControlEventsWhileRefreshing<T, E>(ctx: Context, ev: Event<T, E>, now: int, online: bool)
    requires IsControl(ev)
    ensures var t := Step(Refreshing, ctx, ev, now, online);
      t.state == Refreshing && t.out == [] &&
      (ev.FetcherEnabled? ==> t.ctx == ctx.(storeEnabled := ev.enabled)) &&
      (ev.SetPermitted? ==> t.ctx == ctx.(permitted := ev.allowed)) &&
      (ev.BrowserEnabled? ==> t.ctx == ctx.(browserEnabled := ev.active))
  {
  }

  /** In every other state, errorBackoff included, a control event assigns its
      field and re-runs `maybeStart`. */
  lemma ControlEventsElsewhere<T, E>(state: State, ctx: Context, ev: Event<T, E>, now: int, online: bool)
    requires IsControl(ev) && state != Refreshing
    ensures Step(state, ctx, ev, now, online) == Resolve(ApplyControl(ctx, ev))
  {
  }

  /** Withdrawing permission during backoff cancels the retry: the machine
      goes to notPermitted and clears the data at once. */
  lemma PermissionWithdrawnDuringBackoff<T, E>(ctx: Context, now: int, online: bool)
    ensures Step<T, E>(ErrorBackoff, ctx, SetPermitted(false), now, online) ==
      Transition(NotPermitted, ctx.(permitted := false, lastRefresh := 0), [Cleared])
  {
  }

  // Fetch outcomes

  /** A successful fetch ends the failure streak, stamps the refresh, passes on
      new data exactly when it is not UNMODIFIED and fetching is permitted, and
      then re-runs `maybeStart`. */
  lemma FetchDoneOutcome<T, E>(ctx: Context, result: FetchResult<T>, now: int, online: bool)
    ensures var t := Step<T, E>(Refreshing, ctx, FetchDone(result), now, online);
      && t.ctx.retries == 0 && !t.ctx.reportedError
      && t.ctx.storeEnabled == ctx.storeEnabled && t.ctx.browserEnabled == ctx.browserEnabled
      && t.ctx.permitted == ctx.permitted
      && t.ctx.lastRefresh == (if ctx.permitted then now else 0)
      && t.out == (if !ctx.permitted then [Cleared] else if result.Data? then [Fresh(result.value)] else [])
      && t.state == Resolve<T, E>(ctx.(lastRefresh := now, retries := 0, reportedError := false)).state
  {
  }

  /** A failed fetch always marks the streak as reported, adds exactly one
      retry, goes to errorBackoff, and passes the error on only if none was
      reported in this streak and the browser is online. */
  lemma FetchFailedOutcome<T, E>(ctx: Context, error: E, now: int, online: bool)
    ensures Step<T, E>(Refreshing, ctx, FetchFailed(error), now, online) ==
      Transition(ErrorBackoff, ctx.(reportedError := true, retries := ctx.retries + 1),
        if !ctx.reportedError && online then [Failed(error)] else [])
  {
  }

  /** The backoff timer retries directly, without consulting the guards. */
  lemma BackoffTimerRetries<T, E>(ctx: Context, now: int, online: bool)
    ensures Step<T, E>(ErrorBackoff, ctx, BackoffTimerFired, now, online) == Transition(Refreshing, ctx, [])
  {
  }

  /** Fetch outcomes and timers are ignored outside the state that awaits them. */
  lemma StrayEventsIgnored<T, E>(state: State, ctx: Context, ev: Event<T, E>, now: int, online: bool)
    requires || ((ev.FetchDone? || ev.FetchFailed?) && state != Refreshing)
             || (ev.RefreshTimerFired? && state != WaitingForRefresh)
             || (ev.BackoffTimerFired? && state != ErrorBackoff)
    ensures Step(state, ctx, ev, now, online) == Transition(state, ctx, [])
  {
  }

  // notPermitted

  /** `{data: null}` is delivered exactly on entering notPermitted (a control
      event re-enters it), always alone, with lastRefresh cleared and the
      failure counters untouched. */
  lemma ClearedExactlyOnEntry<T, E>(state: State, ctx: Context, ev: Event<T, E>, now: int, online: bool)
    ensures var t := Step(state, ctx, ev, now, online);
      Cleared in t.out <==> t.state == NotPermitted && (state != NotPermitted || IsControl(ev))
    ensures var t := Step(state, ctx, ev, now, online);
      Cleared in t.out ==>
        && t.out == [Cleared] && t.ctx.lastRefresh == 0
        && t.ctx.storeEnabled == ApplyControlIfAny(ctx, ev).storeEnabled
        && t.ctx.browserEnabled == ApplyControlIfAny(ctx, ev).browserEnabled
        && (IsControl(ev) ==> t.ctx.retries == ctx.retries && t.ctx.reportedError == ctx.reportedError)
  {
  }

  function ApplyControlIfAny<T, E>(ctx: Context, ev: Event<T, E>): Context
  {
    if IsControl(ev) then ApplyControl(ctx, ev) else ctx
  }

  /** No fetch is ever started from notPermitted. */
  lemma NoFetchWhileNotPermitted<T, E>(ctx: Context, ev: Event<T, E>, now: int, online: bool)
    ensures Step(NotPermitted, ctx, ev, now, online).state != Refreshing
  {
  }

  // FORCE_REFRESH

  /** FORCE_REFRESH starts a fetch from waitingForRefresh, and from disabled
      when permitted; anywhere else it is ignored. It never changes the context. */
  lemma ForceRefreshOutcome<T, E>(state: State, ctx: Context, now: int, online: bool)
    ensures var t := Step<T, E>(state, ctx, ForceRefresh, now, online);
      t.ctx == ctx && t.out == [] &&
      (t.state == Refreshing <==> state in {WaitingForRefresh, Refreshing} || (state == Disabled && ctx.permitted)) &&
      (t.state != Refreshing ==> t.state == state)
  {
  }

  /** In every reachable disabled state the `permitted_to_refresh` guard holds,
      so FORCE_REFRESH is always honoured there. */
  lemma ForceRefreshHonouredWhenDisabled<T, E>(ctx: Context, now: int, online: bool)
    requires Inv(Disabled, ctx)
    ensures Step<T, E>(Disabled, ctx, ForceRefresh, now, online).state == Refreshing
  {
  }

  // INITIAL_DATA

  /** INITIAL_DATA never changes state or context and delivers the stale data
      only while lastRefresh is 0. */
  lemma InitialDataOutcome<T, E>(state: State, ctx: Context, data: Option<T>, now: int, online: bool)
    ensures Step<T, E>(state, ctx, InitialData(data), now, online) ==
      Transition(state, ctx, if ctx.lastRefresh == 0 then [Stale(data)] else [])
  {
  }

  /** Right after a permitted fetch has succeeded (at a non-zero time), an
      INITIAL_DATA delivers nothing. The guard is `lastRefresh` alone, so this
      lasts only until lastRefresh is cleared again (see the next lemma). */
  lemma LiveDataNotOverwrittenByStale<T, E>(ctx: Context, result: FetchResult<T>, data: Option<T>, now: int, online: bool)
    requires ctx.permitted && now != 0
    ensures var t := Step<T, E>(Refreshing, ctx, FetchDone(result), now, online);
      Step<T, E>(t.state, t.ctx, InitialData(data), now, online).out == []
  {
  }

  /** Withdrawing permission clears lastRefresh, so an INITIAL_DATA that
      arrives afterwards delivers the stale data, even in notPermitted and
      even if live data was delivered earlier. */
  lemma StaleDataAfterPermissionWithdrawn<T, E>(state: State, ctx: Context, data: Option<T>, now: int, online: bool)
    requires state != Refreshing
    ensures var t := Step<T, E>(state, ctx, SetPermitted(false), now, online);
      t.state == NotPermitted && Step<T, E>(t.state, t.ctx, InitialData(data), now, online).out == [Stale(data)]
  {
  }

  // Initial context

  /** As written, the machine always starts in waitingForRefresh with nothing
      delivered, whatever `initialEnabled` and `initialPermitted` are. */
  lemma StartAsWritten<T, E>(initialEnabled: Option<bool>, initialPermitted: Option<bool>)
    ensures var t := Resolve<T, E>(InitialContext(initialEnabled, initialPermitted));
      t.state == WaitingForRefresh && t.out == []
  {
  }

  /** Passing `false` explicitly has no effect as written; with the intended
      defaulting the same options start the machine in notPermitted. */
  lemma ExplicitFalseIgnored<T, E>()
    ensures InitialContext(Some(false), Some(false)).storeEnabled
    ensures InitialContext(Some(false), Some(false)).permitted
    ensures !IntendedInitialContext(Some(false), Some(false)).storeEnabled
    ensures Resolve<T, E>(InitialContext(Some(false), Some(false))).state == WaitingForRefresh
    ensures Resolve<T, E>(IntendedInitialContext(Some(false), Some(false))) ==
      Transition(NotPermitted, IntendedInitialContext(Some(false), Some(false)), [Cleared])
  {
  }

  /** Both initial contexts satisfy the invariant. */
  lemma InitialContextsValid<T, E>(initialEnabled: Option<bool>, initialPermitted: Option<bool>)
    ensures var t := Resolve<T, E>(InitialContext(initialEnabled, initialPermitted)); Inv(t.state, t.ctx)
    ensures var t := Resolve<T, E>(IntendedInitialContext(initialEnabled, initialPermitted)); Inv(t.state, t.ctx)
  {
  }

  /** The handle `fetcher` returns (the state after the initial `maybeStart`
      and the BROWSER_ENABLED from subscribing): notPermitted iff permission
      was withheld, waitingForRefresh iff also enabled (nothing has been
      fetched, so the browser's activity does not matter yet), disabled
      otherwise. `{data: null}` has been delivered twice when not permitted,
      because BROWSER_ENABLED re-enters notPermitted, and nothing otherwise. */
  lemma StartupOutcome<T, E>(initialEnabled: Option<bool>, initialPermitted: Option<bool>, active: bool)
    ensures var c := IntendedInitialContext(initialEnabled, initialPermitted);
      var started := Resolve<T, E>(c);
      var t := Step<T, E>(started.state, started.ctx, BrowserEnabled(active), 0, true);
      && (t.state == NotPermitted <==> initialPermitted == Some(false))
      && (t.state == WaitingForRefresh <==> initialPermitted != Some(false) && initialEnabled != Some(false))
      && t.ctx == c.(browserEnabled := active)
      && started.out + t.out == if initialPermitted == Some(false) then [Cleared, Cleared] else []
  {
  }

  // Runs

  /** Running two sequences of events one after the other is running their
      concatenation: the interpreter handles events strictly in order. */
  lemma {:induction false} RunAppend<T, E>(state: State, ctx: Context, a: seq<Input<T, E>>, b: seq<Input<T, E>>)
    ensures var first := Run(state, ctx, a);
      var second := Run(first.state, first.ctx, b);
      Run(state, ctx, a + b) == Transition(second.state, second.ctx, first.out + second.out)
    decreases |a|
  {
    if a == [] {
      assert a + b == b;
    } else {
      assert (a + b)[0] == a[0];
      assert (a + b)[1..] == a[1..] + b;
      var t := Step(state, ctx, a[0].ev, a[0].now, a[0].online);
      RunAppend(t.state, t.ctx, a[1..], b);
      var first := Run(t.state, t.ctx, a[1..]);
      var second := Run(first.state, first.ctx, b);
      assert t.out + (first.out + second.out) == (t.out + first.out) + second.out;
    }
  }

  function CountFailed<T, E>(out: seq<Delivery<T, E>>): nat
  {
    if out == [] then 0 else (if out[0].Failed? then 1 else 0) + CountFailed(out[1..])
  }

  lemma {:induction false} CountFailedAppend<T, E>(a: seq<Delivery<T, E>>, b: seq<Delivery<T, E>>)
    ensures CountFailed(a + b) == CountFailed(a) + CountFailed(b)
  {
    if a == [] {
      assert a + b == b;
    } else {
      assert (a + b)[1..] == a[1..] + b;
      CountFailedAppend(a[1..], b);
    }
  }

  function Flag(b: bool): nat { if b then 1 else 0 }

  /** A step without a successful fetch delivers an error only when it turns
      `reportedError` from false to true, and never turns it back. */
  lemma StepErrorBound<T, E>(state: State, ctx: Context, ev: Event<T, E>, now: int, online: bool)
    requires !ev.FetchDone?
    ensures var t := Step(state, ctx, ev, now, online);
      CountFailed(t.out) + Flag(ctx.reportedError) <= Flag(t.ctx.reportedError)
  {
    var t := Step(state, ctx, ev, now, online);
    assert CountFailed<T, E>([]) == 0;
    if t.out != [] {
      assert t.out == [t.out[0]] && t.out[1..] == [];
    }
  }

  /** Between two successful fetches at most one error is delivered, and none
      at all when the streak had already been reported. */
  lemma {:induction false} AtMostOneErrorPerStreak<T, E>(state: State, ctx: Context, inputs: seq<Input<T, E>>)
    requires forall i :: 0 <= i < |inputs| ==> !inputs[i].ev.FetchDone?
    ensures var r := Run(state, ctx, inputs);
      CountFailed(r.out) + Flag(ctx.reportedError) <= Flag(r.ctx.reportedError)
    ensures CountFailed(Run(state, ctx, inputs).out) <= 1
    ensures ctx.reportedError ==> CountFailed(Run(state, ctx, inputs).out) == 0
    decreases |inputs|
  {
    if inputs != [] {
      var t := Step(state, ctx, inputs[0].ev, inputs[0].now, inputs[0].online);
      StepErrorBound(state, ctx, inputs[0].ev, inputs[0].now, inputs[0].online);
      AtMostOneErrorPerStreak(t.state, t.ctx, inputs[1..]);
      CountFailedAppend(t.out, Run(t.state, t.ctx, inputs[1..]).out);
    }
  }
}
