/** src/analytics/withPageTracking.tsx: the page view sent when a wrapped
    component mounts. The React wrapper itself is glue; what is modelled is
    the page-name resolution and `trackPageView`, with the context's
    configuration (always present: the hook throws outside a provider) and
    the optional `configOveride` as inputs. */
module PageTracking {
  import opened Base
  import opened Logging
  import opened Payload
  import opened Config
  import opened Dispatch

  const UnknownPage: string := "UnknownPage"

  /** `pageName || WrappedComponent.displayName || WrappedComponent.name || 'UnknownPage'`. */
  function ResolvePageName(pageName: Option<string>, displayName: Option<string>, name: Option<string>): (r: string)
    ensures r != ""
    ensures Truthy(pageName) ==> r == pageName.value
    ensures !Truthy(pageName) && Truthy(displayName) ==> r == displayName.value
    ensures !Truthy(pageName) && !Truthy(displayName) && Truthy(name) ==> r == name.value
    ensures !Truthy(pageName) && !Truthy(displayName) && !Truthy(name) ==> r == UnknownPage
  {
    if Truthy(pageName) then pageName.value
    else if Truthy(displayName) then displayName.value
    else if Truthy(name) then name.value
    else UnknownPage
  }

  /** `configOveride || analyticsConfig`: a configuration object is always truthy. */
  function EffectiveConfig(configOverride: Option<ConfigView>, context: ConfigView): ConfigView
  {
    configOverride.GetOr(context)
  }

  /** `configOveride?.headers || analyticsConfig?.headers || {}`: the
      override's headers when it has them, else the context's, else none.
      The headers fall back to the context even when the override supplies
      everything else. */
  function EffectiveHeaders(configOverride: Option<ConfigView>, context: ConfigView): (r: Headers)
    ensures configOverride.Some? && configOverride.value.headers.Some? ==> r == configOverride.value.headers.value
    ensures (configOverride.None? || configOverride.value.headers.None?) && context.headers.Some? ==>
      r == context.headers.value
    ensures (configOverride.None? || configOverride.value.headers.None?) && context.headers.None? ==> r == map[]
  {
    if configOverride.Some? && configOverride.value.headers.Some? then configOverride.value.headers.value
    else context.headers.GetOr(map[])
  }

  /** `effectiveConfig?.url?.toString()`, as a truthy string or nothing. */
  function TargetUrl(cfg: ConfigView): (r: Option<string>)
    ensures r.Some? <==> cfg.url.Some? && cfg.url.value.href != ""
    ensures r.Some? ==> r.value == cfg.url.value.href
  {
    if cfg.url.Some? && cfg.url.value.href != "" then Some(cfg.url.value.href) else None
  }

  function SendingText(pageName: string): string
  {
    "Sending tracking event: 'page view, " + pageName + "'"
  }

  function PageViewErrorText(error: string): string
  {
    "Error sending tracking event: 'page view' to tracking API: " + error
  }

  /** The page-view payload: Navigation, the page name, no error message,
      no additional data. */
  function PageViewPayload(pageName: string): (p: AnalyticsPayload)
    ensures p.eventType == Navigation && p.target == pageName
    ensures p.errorMessage.None? && p.additionalPayload.None?
  {
    AnalyticsPayload(Navigation, pageName, None, None)
  }

  function PageViewTransport(configOverride: Option<ConfigView>, context: ConfigView): Transport
  {
    var cfg := EffectiveConfig(configOverride, context);
    ChooseTransport(cfg.apiCallback, TargetUrl(cfg))
  }

  /** The `fetch` options of the page view: a POST with the resolved headers. */
  function PageViewInit(configOverride: Option<ConfigView>, context: ConfigView, payload: AnalyticsPayload): FetchInit
  {
    FetchInit("POST", EffectiveHeaders(configOverride, context), ToJson(payload), false)
  }

  /** The `catch` block: `logMessage(…, ERROR, logCallback)` on failure. */
  function PageViewReport(logCallback: Option<FnRef>, failure: Option<string>): seq<Emission>
  {
    if failure.None? then [] else LogMessage(PageViewErrorText(failure.value), Some(ERROR), logCallback)
  }

  /** `trackPageView(resolvedPageName)`: an INFO line when a logging
      callback is set, the transport call, and on any failure an ERROR
      line through `logMessage` — written to `console.error` whether or
      not a callback is set. */
  function TrackPageView(pageName: string, configOverride: Option<ConfigView>, context: ConfigView,
                         settlement: Settlement): seq<Effect>
  {
    var cfg := EffectiveConfig(configOverride, context);
    var payload := PageViewPayload(pageName);
    var transport := PageViewTransport(configOverride, context);
    AsEffects(LogIfCallback(SendingText(pageName), INFO, cfg.logCallback))
    + Attempt(transport, payload, PageViewInit(configOverride, context, payload))
    + AsEffects(PageViewReport(cfg.logCallback, CaughtError(transport, settlement)))
  }

  /** One transport call when the effective configuration has an API
      callback or a non-empty URL, the callback taking priority; the POST
      carries the effective headers and no `keepalive`. */
  lemma PageViewSingleTransport(pageName: string, configOverride: Option<ConfigView>, context: ConfigView,
                                settlement: Settlement)
    ensures var cfg := EffectiveConfig(configOverride, context);
            var effects := TrackPageView(pageName, configOverride, context, settlement);
            var payload := PageViewPayload(pageName);
      && TransportCalls(effects) == (if cfg.apiCallback.Some? || TargetUrl(cfg).Some? then 1 else 0)
      && (cfg.apiCallback.Some? ==> CallApi(cfg.apiCallback.value, payload) in effects
                                    && forall e :: e in effects ==> !e.CallFetch?)
      && (cfg.apiCallback.None? && TargetUrl(cfg).Some? ==>
            CallFetch(cfg.url.value.href,
                      FetchInit("POST", EffectiveHeaders(configOverride, context), ToJson(payload), false)) in effects)
  {
    var cfg := EffectiveConfig(configOverride, context);
    var payload := PageViewPayload(pageName);
    var transport := PageViewTransport(configOverride, context);
    TransportInTrace(LogIfCallback(SendingText(pageName), INFO, cfg.logCallback), transport, payload,
                     PageViewInit(configOverride, context, payload),
                     PageViewReport(cfg.logCallback, CaughtError(transport, settlement)));
  }

  /** Every failure, including a configuration with no transport, reaches
      `console.error`, and the logging callback too when one is set. */
  lemma PageViewFailuresAlwaysLogged(pageName: string, configOverride: Option<ConfigView>, context: ConfigView,
                                     settlement: Settlement)
    ensures var cfg := EffectiveConfig(configOverride, context);
            var effects := TrackPageView(pageName, configOverride, context, settlement);
            var failure := CaughtError(PageViewTransport(configOverride, context), settlement);
      && (cfg.apiCallback.None? && TargetUrl(cfg).None? ==> failure == Some(NoTransportError))
      && (failure.Some? ==> Log(ConsoleWrite(ConsoleError, [PageViewErrorText(failure.value)])) in effects)
      && (failure.Some? && cfg.logCallback.Some? ==>
            Log(CallbackInvoked(cfg.logCallback.value, PageViewErrorText(failure.value), ERROR)) in effects)
  {
    var cfg := EffectiveConfig(configOverride, context);
    var failure := CaughtError(PageViewTransport(configOverride, context), settlement);
    if failure.Some? {
      var text := PageViewErrorText(failure.value);
      var report := PageViewReport(cfg.logCallback, failure);
      assert report == LogMessage(text, Some(ERROR), cfg.logCallback);
      assert report[|report| - 1] == ConsoleWrite(ConsoleError, [text]);
      ReportedInPageView(pageName, configOverride, context, settlement, ConsoleWrite(ConsoleError, [text]));
      if cfg.logCallback.Some? {
        assert report[0] == CallbackInvoked(cfg.logCallback.value, text, ERROR);
        ReportedInPageView(pageName, configOverride, context, settlement, CallbackInvoked(cfg.logCallback.value, text, ERROR));
      }
    }
  }

  /** An emission of the failure report appears in the effects of trackPageView. */
  lemma ReportedInPageView(pageName: string, configOverride: Option<ConfigView>, context: ConfigView,
                           settlement: Settlement, x: Emission)
    requires x in PageViewReport(EffectiveConfig(configOverride, context).logCallback,
                                 CaughtError(PageViewTransport(configOverride, context), settlement))
    ensures Log(x) in TrackPageView(pageName, configOverride, context, settlement)
  {
    var cfg := EffectiveConfig(configOverride, context);
    var payload := PageViewPayload(pageName);
    var transport := PageViewTransport(configOverride, context);
    var info := LogIfCallback(SendingText(pageName), INFO, cfg.logCallback);
    var attempt := Attempt(transport, payload, PageViewInit(configOverride, context, payload));
    var report := PageViewReport(cfg.logCallback, CaughtError(transport, settlement));
    assert TrackPageView(pageName, configOverride, context, settlement) == AsEffects(info) + attempt + AsEffects(report);
    LoggedInTrace(info, attempt, report, x);
  }

  /** When the transport call succeeds no error is logged. */
  lemma PageViewSuccessLogsNoError(pageName: string, configOverride: Option<ConfigView>, context: ConfigView,
                                   settlement: Settlement)
    requires CaughtError(PageViewTransport(configOverride, context), settlement).None?
    ensures forall e :: e in TrackPageView(pageName, configOverride, context, settlement) ==> !IsErrorReport(e)
  {
    var cfg := EffectiveConfig(configOverride, context);
    var payload := PageViewPayload(pageName);
    assert PageViewReport(cfg.logCallback, None) == [];
    NoErrorReportInTrace(SendingText(pageName), cfg.logCallback, PageViewTransport(configOverride, context), payload,
                         PageViewInit(configOverride, context, payload));
  }

  /** With an override, the context contributes nothing but its headers:
      two contexts with the same headers give the same page view. */
  lemma OverrideReplacesContext(pageName: string, o: ConfigView, c1: ConfigView, c2: ConfigView, settlement: Settlement)
    requires c1.headers == c2.headers
    ensures TrackPageView(pageName, Some(o), c1, settlement) == TrackPageView(pageName, Some(o), c2, settlement)
  {
  }
}
