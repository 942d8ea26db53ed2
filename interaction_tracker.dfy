/** src/analytics/interactionTracker.ts: the `InteractionTracker` class.
    `startEventTracking` validates the selector lists and registers one
    capture-phase handler per configured event name on the document,
    recording it in `listeners`; each handler decides whether to track an
    event and what to log; `logEvent` builds the payload and dispatches it;
    `stopEventTracking` removes the recorded handlers. */
module Tracker {
  import opened Base
  import opened Json
  import opened Logging
  import opened Payload
  import opened Config
  import opened TrackerUtils
  import opened Dom
  import opened Dispatch

  /** A DOM event as the handler sees it: its target element or `null`. */
  datatype DomEvent = DomEvent(target: Option<Element>)

  /** The `target` option: unset, a fixed string, or a function of the event. */
  datatype TargetSetting = TargetUnset | TargetText(text: string) | TargetFn(compute: DomEvent -> string)

  /** `TrackerConfig`: the `AnalyticsConfig` fields plus the tracking options. */
  datatype TrackerConfig = TrackerConfig(
    url: Option<Url>,
    headers: Option<Headers>,
    logCallback: Option<FnRef>,
    apiCallback: Option<FnRef>,
    events: Option<seq<string>>,
    includeSelectors: Option<seq<RawSelector>>,
    excludeSelectors: Option<seq<RawSelector>>,
    metaData: Option<Record>,
    customPayload: Option<DomEvent -> Record>,
    loggedEventType: Option<EventType>,
    target: TargetSetting)

  /** `window.location.href` and `document.title` at the time of logging. */
  datatype PageInfo = PageInfo(href: string, title: string)

  const DefaultEvents: seq<string> := ["click", "change"]
  const DefaultInclude: seq<RawSelector> :=
    [SelectorText("button"), SelectorText("a"), SelectorText("select"), SelectorText("input")]

  function EventsToTrack(cfg: TrackerConfig): seq<string>
  {
    cfg.events.GetOr(DefaultEvents)
  }

  function RawInclude(cfg: TrackerConfig): seq<RawSelector>
  {
    cfg.includeSelectors.GetOr(DefaultInclude)
  }

  function RawExclude(cfg: TrackerConfig): seq<RawSelector>
  {
    cfg.excludeSelectors.GetOr([])
  }

  /** Defaults for options the configuration leaves unset. */
  lemma DefaultsApply(cfg: TrackerConfig)
    ensures cfg.events.None? ==> EventsToTrack(cfg) == ["click", "change"]
    ensures cfg.includeSelectors.None? ==>
      RawInclude(cfg) == AsEntries(["button", "a", "select", "input"])
    ensures cfg.excludeSelectors.None? ==> RawExclude(cfg) == []
  {
    assert AsEntries(["button", "a", "select", "input"]) == DefaultInclude;
  }

  /** Whether any selector of the list applies to the element. */
  ghost predicate AnyApplies(sels: seq<string>, e: Element, engine: SelectorEngine)
  {
    exists i :: 0 <= i < |sels| && Applies(sels[i], e, engine)
  }

  /** The handler's `shouldTrack(target)`: no target is never tracked;
      otherwise both lists are checked (their warnings in that order) and
      the element is tracked when included and not excluded. */
  function ShouldTrack(includeList: seq<string>, excludeList: seq<string>, target: Option<Element>, engine: SelectorEngine)
    : (r: Warned<bool>)
    ensures target.None? ==> r == Warned(false, [])
    ensures target.Some? ==>
      (r.value <==> AnyApplies(includeList, target.value, engine) && !AnyApplies(excludeList, target.value, engine))
    ensures target.Some? ==>
      r.warnings == ThrowWarnings(includeList[..FirstHit(includeList, target.value, engine)], engine)
                  + ThrowWarnings(excludeList[..FirstHit(excludeList, target.value, engine)], engine)
  {
    match target
    case None => Warned(false, [])
    case Some(e) =>
      var inc := ElementCheck(includeList, e, engine);
      var exc := ElementCheck(excludeList, e, engine);
      Warned(inc.value && !exc.value, inc.warnings + exc.warnings)
  }

  /** Exclusion wins: an element an excludeList selector applies to is never
      tracked, whatever the include list says. */
  lemma ExclusionWins(includeList: seq<string>, excludeList: seq<string>, e: Element, engine: SelectorEngine, j: nat)
    requires j < |excludeList| && Applies(excludeList[j], e, engine)
    ensures !ShouldTrack(includeList, excludeList, Some(e), engine).value
  {
  }

  /** The arguments of one `logEvent` call. */
  datatype LogEventCall = LogEventCall(eventType: EventType, target: string, additionalPayload: Record)

  /** The logged target: the `target` function applied to the event, else
      the `target` string, else the DOM event name. */
  function ResolveTarget(setting: TargetSetting, eventName: string, e: DomEvent): (r: string)
    ensures setting.TargetUnset? ==> r == eventName
  {
    match setting
    case TargetFn(f) => f(e)
    case TargetText(s) => s
    case TargetUnset => eventName
  }

  /** The decision a handler registered for `eventName` takes on event `e`:
      the `console.warn` messages of `shouldTrack`, and the `logEvent` call
      it makes, if any. */
  function HandlerDecision(cfg: TrackerConfig, eventName: string, includeList: seq<string>, excludeList: seq<string>,
                           e: DomEvent, engine: SelectorEngine): (r: Warned<Option<LogEventCall>>)
    ensures r.warnings == ShouldTrack(includeList, excludeList, e.target, engine).warnings
    ensures r.value.Some? <==> ShouldTrack(includeList, excludeList, e.target, engine).value
    ensures r.value.Some? ==> e.target.Some?
  {
    var check := ShouldTrack(includeList, excludeList, e.target, engine);
    if !check.value then Warned(None, check.warnings)
    else
      var eventType := if cfg.loggedEventType.Some? then cfg.loggedEventType.value
                       else MapEventType(eventName, e.target.value);
      var target := ResolveTarget(cfg.target, eventName, e);
      var additional := if cfg.customPayload.Some? then cfg.customPayload.value(e) else map[];
      Warned(Some(LogEventCall(eventType, target, additional)), check.warnings)
  }

  /** What a tracked event logs: the configured event type if set, else the
      classifier's; the target by precedence; the custom payload or `{}`.
      An event type the classifier never yields (Outbound, Inbound) is
      logged only when configured. */
  lemma TrackedEventContents(cfg: TrackerConfig, eventName: string, includeList: seq<string>, excludeList: seq<string>,
                             e: DomEvent, engine: SelectorEngine)
    requires HandlerDecision(cfg, eventName, includeList, excludeList, e, engine).value.Some?
    ensures var call := HandlerDecision(cfg, eventName, includeList, excludeList, e, engine).value.value;
      && (cfg.loggedEventType.Some? ==> call.eventType == cfg.loggedEventType.value)
      && (cfg.loggedEventType.None? ==> call.eventType == MapEventType(eventName, e.target.value))
      && (call.eventType == Outbound || call.eventType == Inbound ==> cfg.loggedEventType == Some(call.eventType))
      && (cfg.target.TargetFn? ==> call.target == cfg.target.compute(e))
      && (cfg.target.TargetText? ==> call.target == cfg.target.text)
      && (cfg.target.TargetUnset? ==> call.target == eventName)
      && (cfg.customPayload.Some? ==> call.additionalPayload == cfg.customPayload.value(e))
      && (cfg.customPayload.None? ==> call.additionalPayload == map[])
  {
  }

  /** Handlers built from validated lists never warn while matching. */
  lemma {:induction false} HandlersOnValidatedListsNeverWarn(cfg: TrackerConfig, eventName: string, e: DomEvent,
                                                              engine: SelectorEngine)
    ensures HandlerDecision(cfg, eventName,
                            ValidateAndFilterSelectors(RawInclude(cfg), engine).value,
                            ValidateAndFilterSelectors(RawExclude(cfg), engine).value, e, engine).warnings == []
  {
    if e.target.Some? {
      ValidatedSelectorsNeverWarn(RawInclude(cfg), e.target.value, engine);
      ValidatedSelectorsNeverWarn(RawExclude(cfg), e.target.value, engine);
    }
  }

  /** The `additionalPayload` built by `logEvent`: page URL and title,
      overridden by the configured metadata, overridden by the argument. */
  function MergedPayload(page: PageInfo, metaData: Option<Record>, additional: Record): (r: Record)
    ensures r.Keys == {"pageUrl", "pageTitle"} + metaData.GetOr(map[]).Keys + additional.Keys
    ensures forall k :: k in additional ==> r[k] == additional[k]
    ensures forall k :: k !in additional && k in metaData.GetOr(map[]) ==> r[k] == metaData.value[k]
    ensures "pageUrl" !in additional && "pageUrl" !in metaData.GetOr(map[]) ==> r["pageUrl"] == JString(page.href)
    ensures "pageTitle" !in additional && "pageTitle" !in metaData.GetOr(map[]) ==> r["pageTitle"] == JString(page.title)
  {
    map["pageUrl" := JString(page.href), "pageTitle" := JString(page.title)] + metaData.GetOr(map[]) + additional
  }

  /** The payload `logEvent` dispatches: empty error message, merged data. */
  function LogEventPayload(cfg: TrackerConfig, page: PageInfo, call: LogEventCall): AnalyticsPayload
  {
    AnalyticsPayload(call.eventType, call.target, Some(""), Some(MergedPayload(page, cfg.metaData, call.additionalPayload)))
  }

  const JsonContentType: map<string, string> := map["Content-Type" := "application/json"]

  function LogEventInfo(call: LogEventCall): string
  {
    "Logging " + call.eventType.Wire() + " event for target: " + call.target
  }

  function LogEventErrorText(call: LogEventCall, error: string): string
  {
    "Error sending tracking event: '" + call.eventType.Wire() + "' to tracking API: " + error
  }

  /** The transport `logEvent` picks; a configured `URL` object is always truthy. */
  function LogEventTransport(cfg: TrackerConfig): Transport
  {
    ChooseTransport(cfg.apiCallback, if cfg.url.Some? then Some(cfg.url.value.href) else None)
  }

  /** The `fetch` options of `logEvent`: a JSON POST with `keepalive`. */
  function LogEventInit(payload: AnalyticsPayload): FetchInit
  {
    FetchInit("POST", JsonContentType, ToJson(payload), true)
  }

  /** The `catch` block of `logEvent`: nothing without a failure; the
      ERROR line through `logMessage` with a logging callback;
      `console.error('Tracking failed: ', error)` without one. */
  function LogEventReport(logCallback: Option<FnRef>, call: LogEventCall, failure: Option<string>): seq<Emission>
  {
    if failure.None? then []
    else if logCallback.Some? then LogMessage(LogEventErrorText(call, failure.value), Some(ERROR), logCallback)
    else [ConsoleWrite(ConsoleError, ["Tracking failed: ", failure.value])]
  }

  /** `logEvent(type, target, additionalPayload)`: an INFO line when a
      logging callback is set, then the transport call, then the report of
      a missing or rejected call. Nothing is thrown to the caller. */
  function LogEventEffects(cfg: TrackerConfig, page: PageInfo, call: LogEventCall, settlement: Settlement)
    : seq<Effect>
  {
    var payload := LogEventPayload(cfg, page, call);
    var transport := LogEventTransport(cfg);
    AsEffects(LogIfCallback(LogEventInfo(call), INFO, cfg.logCallback))
    + Attempt(transport, payload, LogEventInit(payload))
    + AsEffects(LogEventReport(cfg.logCallback, call, CaughtError(transport, settlement)))
  }

  /** Exactly one transport is tried when one is configured, the API
      callback taking priority over the URL (then `fetch` is never called);
      none is tried otherwise. */
  lemma LogEventSingleTransport(cfg: TrackerConfig, page: PageInfo, call: LogEventCall, settlement: Settlement)
    ensures var effects := LogEventEffects(cfg, page, call, settlement);
            var payload := LogEventPayload(cfg, page, call);
      && TransportCalls(effects) == (if cfg.apiCallback.Some? || cfg.url.Some? then 1 else 0)
      && (cfg.apiCallback.Some? ==> CallApi(cfg.apiCallback.value, payload) in effects
                                    && forall e :: e in effects ==> !e.CallFetch?)
      && (cfg.apiCallback.None? && cfg.url.Some? ==>
            CallFetch(cfg.url.value.href, FetchInit("POST", JsonContentType, ToJson(payload), true)) in effects)
  {
    var payload := LogEventPayload(cfg, page, call);
    var transport := LogEventTransport(cfg);
    TransportInTrace(LogIfCallback(LogEventInfo(call), INFO, cfg.logCallback), transport, payload,
                     LogEventInit(payload), LogEventReport(cfg.logCallback, call, CaughtError(transport, settlement)));
  }

  /** Every failure — a rejected call, or no transport at all — is reported
      at ERROR level: through the logging callback (and `console.error`)
      when one is set, else as `console.error('Tracking failed: ', error)`. */
  lemma LogEventReportsFailures(cfg: TrackerConfig, page: PageInfo, call: LogEventCall, settlement: Settlement)
    ensures var effects := LogEventEffects(cfg, page, call, settlement);
            var failure := CaughtError(LogEventTransport(cfg), settlement);
      && (cfg.apiCallback.None? && cfg.url.None? ==> failure == Some(NoTransportError))
      && (failure.Some? && cfg.logCallback.Some? ==>
            Log(CallbackInvoked(cfg.logCallback.value, LogEventErrorText(call, failure.value), ERROR)) in effects
            && Log(ConsoleWrite(ConsoleError, [LogEventErrorText(call, failure.value)])) in effects)
      && (failure.Some? && cfg.logCallback.None? ==>
            Log(ConsoleWrite(ConsoleError, ["Tracking failed: ", failure.value])) in effects)
  {
    var failure := CaughtError(LogEventTransport(cfg), settlement);
    if failure.Some? && cfg.logCallback.Some? {
      var text := LogEventErrorText(call, failure.value);
      var report := LogEventReport(cfg.logCallback, call, failure);
      assert report == LogMessage(text, Some(ERROR), cfg.logCallback);
      assert report[0] == CallbackInvoked(cfg.logCallback.value, text, ERROR);
      assert report[1] == ConsoleWrite(ConsoleError, [text]);
      ReportedInEffects(cfg, page, call, settlement, CallbackInvoked(cfg.logCallback.value, text, ERROR));
      ReportedInEffects(cfg, page, call, settlement, ConsoleWrite(ConsoleError, [text]));
    } else if failure.Some? {
      assert LogEventReport(cfg.logCallback, call, failure) == [ConsoleWrite(ConsoleError, ["Tracking failed: ", failure.value])];
      ReportedInEffects(cfg, page, call, settlement, ConsoleWrite(ConsoleError, ["Tracking failed: ", failure.value]));
    }
  }

  /** An emission of the failure report appears in the effects of logEvent. */
  lemma ReportedInEffects(cfg: TrackerConfig, page: PageInfo, call: LogEventCall, settlement: Settlement, x: Emission)
    requires x in LogEventReport(cfg.logCallback, call, CaughtError(LogEventTransport(cfg), settlement))
    ensures Log(x) in LogEventEffects(cfg, page, call, settlement)
  {
    var payload := LogEventPayload(cfg, page, call);
    var transport := LogEventTransport(cfg);
    var info := LogIfCallback(LogEventInfo(call), INFO, cfg.logCallback);
    var attempt := Attempt(transport, payload, LogEventInit(payload));
    var report := LogEventReport(cfg.logCallback, call, CaughtError(transport, settlement));
    assert LogEventEffects(cfg, page, call, settlement) == AsEffects(info) + attempt + AsEffects(report);
    LoggedInTrace(info, attempt, report, x);
  }


  /** When the transport call succeeds nothing is reported as an error. */
  lemma LogEventSuccessReportsNothing(cfg: TrackerConfig, page: PageInfo, call: LogEventCall, settlement: Settlement)
    requires CaughtError(LogEventTransport(cfg), settlement).None?
    ensures forall e :: e in LogEventEffects(cfg, page, call, settlement) ==> !IsErrorReport(e)
  {
    var payload := LogEventPayload(cfg, page, call);
    var transport := LogEventTransport(cfg);
    assert LogEventReport(cfg.logCallback, call, None) == [];
    NoErrorReportInTrace(LogEventInfo(call), cfg.logCallback, transport, payload, LogEventInit(payload));
  }

  /** The INFO line is written exactly when a logging callback is set. */
  lemma LogEventInfoOnlyWithCallback(cfg: TrackerConfig, page: PageInfo, call: LogEventCall, settlement: Settlement)
    ensures Log(ConsoleWrite(ConsoleInfo, [LogEventInfo(call)])) in LogEventEffects(cfg, page, call, settlement)
            <==> cfg.logCallback.Some?
  {
    var payload := LogEventPayload(cfg, page, call);
    var transport := LogEventTransport(cfg);
    var info := LogIfCallback(LogEventInfo(call), INFO, cfg.logCallback);
    var attempt := Attempt(transport, payload, LogEventInit(payload));
    var report := LogEventReport(cfg.logCallback, call, CaughtError(transport, settlement));
    var line := Log(ConsoleWrite(ConsoleInfo, [LogEventInfo(call)]));
    if cfg.logCallback.Some? {
      assert AsEffects(info)[1] == line;
    } else {
      assert AsEffects(info) == [];
      assert forall k :: 0 <= k < |report| ==> AsEffects(report)[k] != line;
    }
  }

  /** The console output of warnings. */
  function WarnEffects(warnings: seq<string>): (r: seq<Effect>)
    ensures |r| == |warnings|
    ensures forall k :: 0 <= k < |r| ==> r[k] == Log(ConsoleWrite(ConsoleWarn, [warnings[k]]))
  {
    seq(|warnings|, k requires 0 <= k < |warnings| => Log(ConsoleWrite(ConsoleWarn, [warnings[k]])))
  }

  /** Everything a handler does for one event: its warnings, then, when it
      tracks the event, the `logEvent` it starts. */
  function HandlerEffects(cfg: TrackerConfig, eventName: string, includeList: seq<string>, excludeList: seq<string>,
                          e: DomEvent, engine: SelectorEngine, page: PageInfo, settlement: Settlement): seq<Effect>
  {
    var d := HandlerDecision(cfg, eventName, includeList, excludeList, e, engine);
    WarnEffects(d.warnings) + (if d.value.Some? then LogEventEffects(cfg, page, d.value.value, settlement) else [])
  }

  /** An event whose target is `null`, or that the lists exclude, causes no
      transport call at all. */
  lemma UntrackedEventsSendNothing(cfg: TrackerConfig, eventName: string, includeList: seq<string>, excludeList: seq<string>,
                                   e: DomEvent, engine: SelectorEngine, page: PageInfo, settlement: Settlement)
    requires e.target.None? || AnyApplies(excludeList, e.target.value, engine)
    ensures forall k :: 0 <= k < |HandlerEffects(cfg, eventName, includeList, excludeList, e, engine, page, settlement)| ==>
      !IsTransportCall(HandlerEffects(cfg, eventName, includeList, excludeList, e, engine, page, settlement)[k])
  {
  }

  /** The closure `startEventTracking` registers for one event name. It
      keeps the validated lists and reads the tracker's configuration when
      it runs. */
  class Handler {
    const tracker: InteractionTracker
    const eventType: string
    const includeList: seq<string>
    const excludeList: seq<string>

    constructor (tracker: InteractionTracker, eventType: string, includeList: seq<string>, excludeList: seq<string>)
      ensures this.tracker == tracker && this.eventType == eventType
      ensures this.includeList == includeList && this.excludeList == excludeList
    {
      this.tracker := tracker;
      this.eventType := eventType;
      this.includeList := includeList;
      this.excludeList := excludeList;
    }

    /** The listener running for event `e`. It reads `tracker.config` when
        the event arrives, so a configuration replaced after start is the
        one it acts on; only the selector lists are fixed at start. */
    method Run(e: DomEvent, engine: SelectorEngine, page: PageInfo, settlement: Settlement) returns (effects: seq<Effect>)
      ensures effects == HandlerEffects(tracker.config, eventType, includeList, excludeList, e, engine, page, settlement)
    {
      var cfg := tracker.config;
      var d := HandlerDecision(cfg, eventType, includeList, excludeList, e, engine);
      effects := WarnEffects(d.warnings);
      if d.value.Some? {
        effects := effects + LogEventEffects(cfg, page, d.value.value, settlement);
      }
    }
  }

  /** The document entries for a list of handlers, capture phase. */
  function Captures(hs: seq<Handler>): (r: seq<Registration>)
    ensures |r| == |hs|
    ensures forall k :: 0 <= k < |hs| ==> r[k] == Registration(hs[k].eventType, hs[k], true)
  {
    seq(|hs|, k requires 0 <= k < |hs| => Registration(hs[k].eventType, hs[k], true))
  }

  lemma CapturesSnoc(hs: seq<Handler>, h: Handler)
    ensures Captures(hs + [h]) == Captures(hs) + [Registration(h.eventType, h, true)]
  {
    assert forall k :: 0 <= k < |hs| ==> (hs + [h])[k] == hs[k];
  }

  /** `listeners` after `listeners[h.eventType] = h` for each handler in turn. */
  function Recorded(m: map<string, Handler>, hs: seq<Handler>): map<string, Handler>
    decreases |hs|
  {
    if hs == [] then m
    else Recorded(m, hs[..|hs| - 1])[hs[|hs| - 1].eventType := hs[|hs| - 1]]
  }

  lemma RecordedSnoc(m: map<string, Handler>, hs: seq<Handler>, h: Handler)
    ensures Recorded(m, hs + [h]) == Recorded(m, hs)[h.eventType := h]
  {
    assert (hs + [h])[..|hs|] == hs;
  }

  /** After recording, each name maps to the last handler registered for it. */
  lemma {:induction false} RecordedKeepsLast(m: map<string, Handler>, hs: seq<Handler>, i: nat)
    requires i < |hs|
    requires forall j :: i < j < |hs| ==> hs[j].eventType != hs[i].eventType
    ensures hs[i].eventType in Recorded(m, hs) && Recorded(m, hs)[hs[i].eventType] == hs[i]
    decreases |hs|
  {
    if i < |hs| - 1 {
      RecordedKeepsLast(m, hs[..|hs| - 1], i);
    }
  }

  /** Names no handler was registered for keep their old entry, or stay absent. */
  lemma {:induction false} RecordedLeavesOthers(m: map<string, Handler>, hs: seq<Handler>, name: string)
    requires forall j :: 0 <= j < |hs| ==> hs[j].eventType != name
    ensures name in Recorded(m, hs) <==> name in m
    ensures name in m ==> Recorded(m, hs)[name] == m[name]
    decreases |hs|
  {
    if hs != [] {
      RecordedLeavesOthers(m, hs[..|hs| - 1], name);
    }
  }

  /** A name some new handler was registered for maps to one of the new handlers. */
  lemma {:induction false} RecordedFrom(m: map<string, Handler>, hs: seq<Handler>, name: string)
    requires exists i :: 0 <= i < |hs| && hs[i].eventType == name
    ensures name in Recorded(m, hs)
    ensures exists i :: 0 <= i < |hs| && Recorded(m, hs)[name] == hs[i] && hs[i].eventType == name
    decreases |hs|
  {
    var last := |hs| - 1;
    if hs[last].eventType != name {
      var i :| 0 <= i < |hs| && hs[i].eventType == name;
      assert hs[..last][i].eventType == name;
      RecordedFrom(m, hs[..last], name);
      var j :| 0 <= j < last && Recorded(m, hs[..last])[name] == hs[..last][j] && hs[..last][j].eventType == name;
      assert Recorded(m, hs)[name] == hs[j];
    }
  }

  /** The document entries `stopEventTracking` removes. */
  function ListenerEntries(m: map<string, Handler>): set<Registration>
  {
    set name | name in m :: Registration(name, m[name], true)
  }

  class InteractionTracker {
    /** The configuration, read afresh by every handler run. */
    var config: TrackerConfig
    /** The handler recorded for each event name. */
    var listeners: map<string, Handler>

    constructor (config: TrackerConfig)
      ensures this.config == config && listeners == map[]
    {
      this.config := config;
      listeners := map[];
    }

    /** `startEventTracking()`: the includeList and excludeList lists are validated
        once (their warnings are returned), and for each configured event
        name, in order, a fresh handler is recorded in `listeners` (a later
        one replacing an earlier one of the same name) and added to the
        document in the capture phase. */
    method StartEventTracking(doc: Document, engine: SelectorEngine)
      returns (warnings: seq<Effect>, ghost added: seq<Handler>)
      requires doc.Valid()
      modifies this`listeners, doc`registrations
      ensures doc.Valid()
      ensures warnings == WarnEffects(ValidateAndFilterSelectors(RawInclude(config), engine).warnings
                                      + ValidateAndFilterSelectors(RawExclude(config), engine).warnings)
      ensures |added| == |EventsToTrack(config)|
      ensures forall k :: 0 <= k < |added| ==>
        fresh(added[k]) && added[k].tracker == this && added[k].eventType == EventsToTrack(config)[k]
        && added[k].includeList == ValidateAndFilterSelectors(RawInclude(config), engine).value
        && added[k].excludeList == ValidateAndFilterSelectors(RawExclude(config), engine).value
      ensures doc.registrations == old(doc.registrations) + Captures(added)
      ensures listeners == Recorded(old(listeners), added)
    {
      var events := EventsToTrack(config);
      var included := ValidateAndFilterSelectors(RawInclude(config), engine);
      var excluded := ValidateAndFilterSelectors(RawExclude(config), engine);
      warnings := WarnEffects(included.warnings + excluded.warnings);
      added := [];
      var i := 0;
      while i < |events|
        invariant 0 <= i <= |events| && |added| == i
        invariant forall k :: 0 <= k < i ==> fresh(added[k])
        invariant forall k :: 0 <= k < i ==> added[k].tracker == this && added[k].eventType == events[k]
        invariant forall k :: 0 <= k < i ==> added[k].includeList == included.value && added[k].excludeList == excluded.value
        invariant doc.Valid()
        invariant doc.registrations == old(doc.registrations) + Captures(added)
        invariant listeners == Recorded(old(listeners), added)
      {
        var h := Register(doc, events[i], included.value, excluded.value);
        CapturesSnoc(added, h);
        RecordedSnoc(old(listeners), added, h);
        added := added + [h];
        i := i + 1;
      }
    }

    /** One step of startEventTracking: a new handler for `eventType`,
        recorded in `listeners` and added to the document in the capture phase. */
    method Register(doc: Document, eventType: string, includeList: seq<string>, excludeList: seq<string>)
      returns (h: Handler)
      requires doc.Valid()
      modifies this`listeners, doc`registrations
      ensures doc.Valid()
      ensures fresh(h) && h.tracker == this && h.eventType == eventType
      ensures h.includeList == includeList && h.excludeList == excludeList
      ensures listeners == old(listeners)[eventType := h]
      ensures doc.registrations == old(doc.registrations) + [Registration(eventType, h, true)]
    {
      h := new Handler(this, eventType, includeList, excludeList);
      listeners := listeners[eventType := h];
      doc.AddEventListener(eventType, h, true);
    }

    /** `stopEventTracking()`: removes from the document exactly the
        (name, handler, capture) entries recorded in `listeners`, in any
        order, and nothing else; `listeners` itself is left as it is. */
    method StopEventTracking(doc: Document)
      requires doc.Valid()
      modifies doc`registrations
      ensures doc.Valid()
      ensures doc.registrations == Without(old(doc.registrations), ListenerEntries(listeners))
    {
      var remaining := listeners.Keys;
      ghost var removed: set<string> := {};
      WithoutNothing(doc.registrations);
      assert RestrictTo(listeners, removed) == map[];
      assert ListenerEntries(RestrictTo(listeners, removed)) == {};
      while remaining != {}
        invariant remaining + removed == listeners.Keys && remaining !! removed
        invariant doc.Valid()
        invariant doc.registrations == Without(old(doc.registrations), ListenerEntries(RestrictTo(listeners, removed)))
        decreases remaining
      {
        var name :| name in remaining;
        var entry := Registration(name, listeners[name], true);
        doc.RemoveEventListener(name, listeners[name], true);
        WithoutTwice(old(doc.registrations), ListenerEntries(RestrictTo(listeners, removed)), {entry});
        ListenerEntriesGrow(listeners, removed, name);
        remaining := remaining - {name};
        removed := removed + {name};
      }
      assert RestrictTo(listeners, removed) == listeners;
    }
  }

  /** Stopping a tracker started once on distinct event names removes
      exactly what starting added, leaving the document's other entries. */
  lemma StopUndoesStart(before: seq<Registration>, hs: seq<Handler>)
    requires forall i, j :: 0 <= i < j < |hs| ==> hs[i].eventType != hs[j].eventType
    requires forall k, i :: 0 <= k < |before| && 0 <= i < |hs| ==> before[k].listener != hs[i]
    ensures Without(before + Captures(hs), ListenerEntries(Recorded(map[], hs))) == before
  {
    var gone := ListenerEntries(Recorded(map[], hs));
    forall i | 0 <= i < |hs|
      ensures Captures(hs)[i] in gone
    {
      RecordedKeepsLast(map[], hs, i);
    }
    forall k | 0 <= k < |before|
      ensures before[k] !in gone
    {
      if before[k] in gone {
        var name :| name in Recorded(map[], hs) && before[k] == Registration(name, Recorded(map[], hs)[name], true);
        if forall i :: 0 <= i < |hs| ==> hs[i].eventType != name {
          RecordedLeavesOthers(map[], hs, name);
        }
        RecordedFrom(map[], hs, name);
      }
    }
    WithoutAppend(before, Captures(hs), gone);
    WithoutDisjoint(before, gone);
    WithoutCovered(Captures(hs), gone);
    assert before + [] == before;
  }

  /** Stopping a tracker that was never started (nothing recorded)
      removes nothing from the document. */
  lemma StopBeforeStartRemovesNothing(regs: seq<Registration>)
    ensures Without(regs, ListenerEntries(map[])) == regs
  {
    assert ListenerEntries(map[]) == {};
    WithoutNothing(regs);
  }

  /** Starting again replaces the recorded handler of every name the
      second start registers, so a later stop no longer reaches the
      earlier handler for that name: its entry stays on the document. */
  lemma RestartLeavesEarlierHandlers(m: map<string, Handler>, first: seq<Handler>, second: seq<Handler>, i: nat)
    requires i < |first|
    requires exists j :: 0 <= j < |second| && second[j].eventType == first[i].eventType
    requires forall j :: 0 <= j < |second| ==> second[j] != first[i]
    ensures Registration(first[i].eventType, first[i], true)
            !in ListenerEntries(Recorded(Recorded(m, first), second))
  {
    RecordedFrom(Recorded(m, first), second, first[i].eventType);
  }

  lemma ListenerEntriesGrow(m: map<string, Handler>, names: set<string>, name: string)
    requires name in m
    ensures ListenerEntries(RestrictTo(m, names + {name}))
         == ListenerEntries(RestrictTo(m, names)) + {Registration(name, m[name], true)}
  {
    var small := RestrictTo(m, names);
    var big := RestrictTo(m, names + {name});
    assert big == small[name := m[name]];
    forall r | r in ListenerEntries(big)
      ensures r in ListenerEntries(small) + {Registration(name, m[name], true)}
    {
      var n :| n in big && r == Registration(n, big[n], true);
      if n != name {
        assert n in small && r == Registration(n, small[n], true);
      }
    }
    forall r | r in ListenerEntries(small)
      ensures r in ListenerEntries(big)
    {
      var n :| n in small && r == Registration(n, small[n], true);
      assert n in big && r == Registration(n, big[n], true);
    }
    assert name in big && Registration(name, big[name], true) in ListenerEntries(big);
  }

  function RestrictTo(m: map<string, Handler>, names: set<string>): map<string, Handler>
  {
    map name | name in m && name in names :: m[name]
  }
}
