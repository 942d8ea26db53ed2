# Analytics tracking toolkit — a Dafny model

This project models the logic of a small browser analytics library:

- an **interaction tracker** that listens for DOM events on the document
  (capture phase), decides from include/exclude CSS selector lists whether
  an event's target element is tracked, classifies and labels the event,
  enriches it with page and configured metadata, and dispatches an
  analytics payload through an API callback or an HTTP `POST`;
- the **selector helpers** behind it (validation, matching against an
  element and its ancestors, event classification, target formatting);
- the **configuration** class (transport guard and `url` setter) and the
  **payload** record with its closed `EventType` enumeration;
- the **logging** helper that routes a message to one console channel and
  to an optional callback;
- the **page-view** decision logic of the page-tracking wrapper (page-name
  fallback, effective configuration and headers, transport, error logging);
- the **chatbot session id** kept in `localStorage`, and the **DOM
  helpers** that inject scripts and stylesheets and create elements.

Browser primitives are inputs: the CSS selector engine (`SelectorEngine`:
does a selector parse, does it match an element), URL parsing (a
`string -> Result<Url, string>` function), how an awaited transport call
settles (`Settlement`), the page URL and title (`PageInfo`), the UUID and
the clock. Host functions (logging and API callbacks) are identities
(`FnRef`). Console writes, logging and API callback calls, and `fetch`
calls are returned as an ordered trace of `Emission` / `Effect` values. The document is a `Document` object holding its listener
registrations and its head and body children; the tracker is an
`InteractionTracker` object whose `listeners` map and the document's
registrations are updated by loops; `localStorage` is a `LocalStorage`
object holding a map.

Modules: `Base` (Option, Result, host-function identities), `Text`
(JavaScript `trim`, ASCII lower-casing, decimal rendering), `Json`,
`Logging`, `Payload`, `Config`, `TrackerUtils`, `Dom`, `DomUtils`,
`Dispatch` (transport choice and effects shared by both trackers),
`Tracker`, `PageTracking`, `ChatbotSession`.

Where the source's own doc comments and its code disagree, the model
follows the code:

- The doc comment of `stopEventTracking`
  (src/analytics/interactionTracker.ts:196-198) speaks of removing the
  tracking configuration as well; the code only removes the listeners from
  the document and leaves the `listeners` map as it is
  (`Tracker.InteractionTracker.StopEventTracking`).
- The doc comments of `TrackerConfig.customPayload` and `logEvent`
  (src/analytics/interactionTracker.ts:14-17 and :140) say a custom payload
  replaces the default payload and the metadata enrichment; the code
  merges its result over the page details and the metadata
  (`Tracker.MergedPayload`).
- `logEvent` posts with a fixed `Content-Type: application/json` header
  and `keepalive`, ignoring configured headers; the page view posts with
  the resolved headers and no `keepalive`.

## Model

| member | source | states |
|---|---|---|
| Logging.LogMessage | src/helpers/logging.ts:28-52 | the callback, when given, is called once and first with the message and the level (DEBUG when omitted); then exactly one console channel, the one named by that level, receives the message unchanged |
| Payload.EventTypeFromWire | src/analytics/analyticsPayload.ts:7-15 | reading a wire string back yields an event type whose wire string it is |
| Payload.WireRoundTrip | src/analytics/analyticsPayload.ts:7-15 | every one of the seven event types is recovered from its wire string (Navigation's is "Navigate") |
| Payload.WireInjective | src/analytics/analyticsPayload.ts:7-15 | two event types have the same wire string exactly when they are the same type |
| Payload.ToJson | src/analytics/analyticsPayload.ts:17-41 | the payload serialises to an object that has ErrorMessage and AdditionalPayload keys exactly when those fields are set |
| Payload.JsonRoundTrip | src/analytics/analyticsPayload.ts:30-40 | the four constructor arguments are kept verbatim: decoding the serialised payload gives back the same payload, an empty additional payload staying empty rather than absent |
| Config.UrlSetterResult | src/analytics/analyticsConfig.ts:29-43 | `undefined` clears the url, a URL object is kept, a string is stored parsed, and an unparsable string yields "Invalid URL provided. A valid URL must be provided. Original error: " followed by the parser's message |
| Config.AnalyticsConfig.SetUrl | src/analytics/analyticsConfig.ts:29-43 | the setter stores the new url or throws that message leaving the previous url unchanged; setting `undefined` never throws |
| Config.AnalyticsConfig.WithFields | src/analytics/analyticsConfig.ts:86-88 | headers, logging callback and API callback are stored exactly as given |
| Config.NewAnalyticsConfig | src/analytics/analyticsConfig.ts:71-89 | construction fails with the "You must provide either an apiCallback or a url" message exactly when there is no API callback and no url; otherwise a bad url string fails with the setter's message, and success yields a fresh configuration holding the parsed url (none when only an API callback was given) and the other fields as given |
| Text.TrimIsInnerSlice | src/analytics/analyticsHelpers/interactionTrackerUtils.ts:57 | `trim` removes only surrounding whitespace: the result is a slice of the input with whitespace on either side and non-whitespace at its ends |
| Text.TrimEmptyIffBlank | src/analytics/analyticsHelpers/interactionTrackerUtils.ts:7 | a string trims to empty exactly when it is all whitespace |
| TrackerUtils.ValidateAndFilterSelectors | src/analytics/analyticsHelpers/interactionTrackerUtils.ts:4-19 | kept selectors and warnings together number the input entries; every kept selector is a string, non-blank after trimming, that the selector engine parses; every warning reads "Invalid selector syntax provided: " followed by a rejected entry as printed |
| TrackerUtils.FilterKeepsAcceptedInOrder | src/analytics/analyticsHelpers/interactionTrackerUtils.ts:4-19 | the result is a subsequence of the input in the original order holding exactly as many entries as are acceptable; the warnings are exactly one "Invalid selector syntax provided: " line per rejected entry, in list order, and none for an accepted entry |
| TrackerUtils.FilterKeepsValidList | src/analytics/analyticsHelpers/interactionTrackerUtils.ts:4-19 | a list of acceptable selectors, the empty list included, comes back unchanged with no warning |
| TrackerUtils.FilterIdempotent | src/analytics/analyticsHelpers/interactionTrackerUtils.ts:4-19 | filtering an already filtered list changes nothing and warns about nothing |
| TrackerUtils.ClosestFindsAnyMatchingAncestor | src/analytics/analyticsHelpers/interactionTrackerUtils.ts:25 | `closest` finds an element exactly when the element itself or one of its ancestors matches the selector |
| TrackerUtils.ElementCheck | src/analytics/analyticsHelpers/interactionTrackerUtils.ts:22-31 | true exactly when some selector parses and matches the element or an ancestor (so false for an empty list); the walk stops at the first selector that finds an element, and the warnings are exactly one "Invalid selector provided: <selector>" per unparsable selector before that point, in order (all of them when none matches); no warning when every selector parses |
| TrackerUtils.ThrowWarningsOnlyUnparsable | src/analytics/analyticsHelpers/interactionTrackerUtils.ts:23-29 | at most one warning per selector, each naming a selector that does not parse |
| TrackerUtils.ElementCheckStopsAtFirstMatch | test/analytics/analyticsHelpers/interactionTrackerUtils.test.ts:113-141 | with "button" matching and "##invalid" unparsable, ["button", "##invalid"] gives true with no warning and ["##invalid", "button"] gives true with one warning for "##invalid" |
| TrackerUtils.ValidatedSelectorsNeverWarn | src/analytics/analyticsHelpers/interactionTrackerUtils.ts:4-31 | matching with a validated list never warns |
| TrackerUtils.MapEventType | src/analytics/analyticsHelpers/interactionTrackerUtils.ts:33-53 | Link exactly for a click on `a`, Navigation exactly for a click on `button`, UserInput exactly for a click on input/textarea/select or a `change` or `input` event, Error exactly for an `error` event, Other otherwise; never Outbound or Inbound |
| TrackerUtils.MapEventTypeIgnoresTagCase | src/analytics/analyticsHelpers/interactionTrackerUtils.ts:34 | classification does not depend on the letter case of the tag name |
| TrackerUtils.FormatTarget | src/analytics/analyticsHelpers/interactionTrackerUtils.ts:55-62 | `formatTarget`: the Link rendering or the element's markup; its shape is stated by FormatTargetShape |
| TrackerUtils.FormatTargetShape | src/analytics/analyticsHelpers/interactionTrackerUtils.ts:55-62 | any label but Link gives the element's markup; Link gives the trimmed text content, " <", the href attribute (empty when missing) and ">" |
| Dispatch.ChooseTransport | src/analytics/interactionTracker.ts:171-182 | the API callback is chosen whenever set; the url only when there is no callback; no transport when neither is set |
| Dispatch.CaughtError | src/analytics/interactionTracker.ts:170-183 | with no transport the caught error is the "No apiCallback or url provided for analytics tracking." error; otherwise an error is caught exactly when the call rejects, and it is that rejection |
| Tracker.DefaultsApply | src/analytics/interactionTracker.ts:89-91 | missing options default to events click and change, include selectors button, a, select, input, and no exclude selectors |
| Tracker.ShouldTrack | src/analytics/interactionTracker.ts:98-108 | a null target is never tracked and warns about nothing; otherwise the element is tracked exactly when some include selector and no exclude selector applies to it, and both lists are always checked: the warnings are the include check's then the exclude check's |
| Tracker.ExclusionWins | src/analytics/interactionTracker.ts:98-108 | an element an exclude selector applies to is not tracked, whatever the include list |
| Tracker.HandlerEffects | src/analytics/interactionTracker.ts:111-130 | the handler closure's observable effects: the selector warnings, then the logEvent effects when the event is tracked; properties in HandlerDecision, TrackedEventContents and UntrackedEventsSendNothing |
| Tracker.HandlerDecision | src/analytics/interactionTracker.ts:111-130 | a handler makes a logEvent call exactly when its target is tracked, and warns exactly what the selector checks warn |
| Tracker.TrackedEventContents | src/analytics/interactionTracker.ts:116-129 | the logged type is the configured override, else the classification; Outbound or Inbound only via the override; the target is the target function's result, else the target string, else the DOM event name; the additional payload is the custom payload function's result, else empty |
| Tracker.HandlersOnValidatedListsNeverWarn | src/analytics/interactionTracker.ts:94-105 | handlers built on the lists validated at start never warn while matching |
| Tracker.UntrackedEventsSendNothing | src/analytics/interactionTracker.ts:111-113 | an event with a null target, or whose target is excluded, causes no transport call |
| Tracker.MergedPayload | src/analytics/interactionTracker.ts:149-158 | the merged data holds pageUrl, pageTitle, the metadata keys and the argument keys; the argument's values win, then the metadata's, then the page URL and title |
| Tracker.LogEventPayload | src/analytics/interactionTracker.ts:149-160 | the dispatched payload: the call's type and target, an empty error message, and the merged data of MergedPayload |
| Tracker.LogEventEffects | src/analytics/interactionTracker.ts:146-194 | `logEvent` as a trace: INFO line, transport attempt, failure report; properties in the four LogEvent lemmas below |
| Tracker.LogEventSingleTransport | src/analytics/interactionTracker.ts:170-182 | exactly one transport call when an API callback or url is set, none otherwise; with a callback, it receives the payload and fetch is never called; otherwise the url receives a POST of the payload's JSON with a JSON content type and keepalive |
| Tracker.LogEventReportsFailures | src/analytics/interactionTracker.ts:180-193 | no transport means the no-transport error; every failure is reported at ERROR through the logging callback and console.error when a callback is set, else as console.error("Tracking failed: ", error) |
| Tracker.LogEventSuccessReportsNothing | src/analytics/interactionTracker.ts:170-193 | when the transport call succeeds, no ERROR-level callback call and no console.error write occurs |
| Tracker.LogEventInfoOnlyWithCallback | src/analytics/interactionTracker.ts:162-168 | the "Logging <type> event for target: <target>" line is written exactly when a logging callback is set |
| Tracker.Handler.Run | src/analytics/interactionTracker.ts:111-130 | a registered handler acts on the tracker's configuration as it is when the event arrives, not as it was at start |
| Tracker.InteractionTracker.constructor | src/analytics/interactionTracker.ts:70-72 | a new tracker keeps the configuration and has no recorded listeners |
| Tracker.InteractionTracker.StartEventTracking | src/analytics/interactionTracker.ts:88-135 | the two selector lists are validated once; the document gains, in order, one capture-phase registration per configured event name, each a fresh handler holding the validated lists; each handler is recorded under its name |
| Tracker.InteractionTracker.Register | src/analytics/interactionTracker.ts:111-133 | one step of start: a fresh handler for the name holding the validated lists, recorded under the name in listeners and appended to the document as a capture-phase registration |
| Tracker.RecordedKeepsLast | src/analytics/interactionTracker.ts:132 | after start each event name maps to the last handler created for it |
| Tracker.RecordedLeavesOthers | src/analytics/interactionTracker.ts:132 | names not among the events keep their previous entry or stay absent |
| Tracker.RecordedFrom | src/analytics/interactionTracker.ts:132 | a name registered at start maps to one of the handlers created for it |
| Tracker.InteractionTracker.StopEventTracking | src/analytics/interactionTracker.ts:200-204 | exactly the (name, handler, capture) entries recorded in listeners are removed from the document, in any order; every other registration stays in place |
| Tracker.StopUndoesStart | src/analytics/interactionTracker.ts:200-204 | stopping a tracker started once on distinct event names leaves the document's registrations as they were before start |
| Tracker.StopBeforeStartRemovesNothing | src/analytics/interactionTracker.ts:200-204 | stopping with nothing recorded removes nothing |
| Tracker.RestartLeavesEarlierHandlers | src/analytics/interactionTracker.ts:132 | after a second start that registers a name again, stop no longer reaches the first handler for that name, so its registration stays |
| PageTracking.ResolvePageName | src/analytics/withPageTracking.tsx:31-35 | the page name is the first non-empty of the pageName prop, the display name and the component name, else "UnknownPage"; it is never empty |
| PageTracking.EffectiveHeaders | src/analytics/withPageTracking.tsx:45-47 | headers come from the override when it has them, else from the context configuration, else are empty, independently of which configuration supplies the transport |
| PageTracking.TargetUrl | src/analytics/withPageTracking.tsx:42 | a url is used exactly when the effective configuration has one with a non-empty text form |
| PageTracking.PageViewPayload | src/analytics/withPageTracking.tsx:57 | the page view is a Navigation payload targeting the page name, with no error message and no additional data |
| PageTracking.EffectiveConfig | src/analytics/withPageTracking.tsx:38 | the override when given, else the context configuration; see OverrideReplacesContext |
| PageTracking.TrackPageView | src/analytics/withPageTracking.tsx:37-78 | `trackPageView` as a trace: INFO line, transport attempt, failure report; properties in the PageView lemmas below |
| PageTracking.PageViewSingleTransport | src/analytics/withPageTracking.tsx:59-70 | exactly one transport call when the effective configuration has an API callback or url; the callback wins and fetch is then never called; otherwise the url receives a POST with the resolved headers and no keepalive |
| PageTracking.PageViewFailuresAlwaysLogged | src/analytics/withPageTracking.tsx:49-77 | no transport means the no-transport error; every failure reaches console.error, and the logging callback too when set |
| PageTracking.PageViewSuccessLogsNoError | src/analytics/withPageTracking.tsx:59-77 | when the transport call succeeds, no ERROR-level callback call and no console.error write occurs |
| PageTracking.OverrideReplacesContext | src/analytics/withPageTracking.tsx:38-47 | with an override the context configuration contributes only its headers |
| Text.DecimalRoundTrip | src/chatbot/util/utils.ts:10 | a timestamp renders as a non-empty string of decimal digits that reads back as the timestamp |
| ChatbotSession.SessionStep | src/chatbot/util/utils.ts:6-13 | a stored non-empty id is returned with storage unchanged; otherwise uuid, "-" and the timestamp are stored under "ChatbotsessionID" and returned; the result is never empty and no other key changes |
| ChatbotSession.GetChatbotSessionId | src/chatbot/util/utils.ts:6-13 | the returned id and the new storage are those of the session step |
| ChatbotSession.ClearChatBotSession | src/chatbot/util/utils.ts:17-19 | only the session key is removed |
| ChatbotSession.SessionIdStable | src/chatbot/util/utils.ts:7-12 | a second call returns the same id and leaves storage unchanged, whatever uuid and time it would use |
| ChatbotSession.FreshIdCarriesTimestamp | src/chatbot/util/utils.ts:9-12 | a fresh id is the uuid, a dash and digits that read back as the timestamp |
| ChatbotSession.ClearForcesNewId | src/chatbot/util/utils.ts:17-19 | after clearing, the next call generates a new id |
| DomUtils.NonceOrEmpty | src/helpers/utils.ts:9 | the nonce is kept when non-empty, else the empty string |
| DomUtils.InjectScript | src/helpers/utils.ts:3-13 | nothing changes when an element with the id exists; otherwise one async text/javascript script with the given src, id and nonce is appended to the body; a non-empty id held by at most one element is afterwards held by exactly one |
| DomUtils.InjectLink | src/helpers/utils.ts:15-25 | the same insert-if-absent by id, appending to the head a text/css stylesheet link |
| DomUtils.CreateElementWithClass | src/helpers/utils.ts:27-33 | a tag the host rejects as an element name fails with InvalidCharacterError and appends nothing; otherwise the element has the tag, the class only when non-empty, a value only when given, and is appended to the body |
| DomUtils.CreateElementForSelector | src/helpers/utils.ts:35-52 | always a button appended to the body: a "." prefix adds the rest as a class (an empty or whitespace-holding class token fails as the DOM does, appending nothing), a "#" prefix sets the rest as the id, anything else gives a plain button |

## Left out

- CSS selector grammar and `Element.closest`: the browser's selector engine is the `SelectorEngine` parameter; a selector throws exactly when it does not parse.
- URL parsing: the `URL` constructor is a parameter; a URL's string form is its `href`.
- `fetch`, the awaited API callback and Promise sequencing: how the call settles is an input; concurrent in-flight `logEvent` calls, their completion order, calls that never settle and the effect of `keepalive` are not modelled (`keepalive` is a recorded flag).
- `JSON.stringify`: the payload is a JSON value; its text, key order and non-integer numbers are not modelled, and additional payload values are JSON values with integer numbers.
- `window.location.href`, `document.title`, `uuidv4()` and `Date.now()` are inputs; the clock is a non-negative number of milliseconds.
- `localStorage` exceptions (storage disabled, quota exceeded) are not modelled.
- Console output is returned as a trace rather than written.
- React glue: the configuration context provider and hook, the error boundary, the chatbot component and the wrapper's component and `useEffect` shell (when the page view fires) are not part of this model; the context configuration is always present, since the hook throws outside a provider.
- Event targets that are not elements (text nodes, the window), on which `closest` does not exist, are not modelled: a target is an element or null.
- A target function, custom payload function or logging callback that throws is not modelled.
- Log levels outside the four enumerated ones are not modelled; an omitted level is the `default` branch.
- `MapEventType`: tag names are lower-cased for ASCII letters only; no other character lower-cases to a string that could make the compared tags equal, so classification is unaffected.
- The `trackerConfig` getter is the public `config` field of the tracker object.
- The caught error is recorded by its string form: `console.error('Tracking failed: ', error)` receives the `Error` object itself, which the trace records as the text `${error}` (the same text the callback message embeds).
- `getElementById` searches the whole document tree; the `Document` model holds only the direct children of head and body, so an id on a deeper element is not seen by `InjectScript` and `InjectLink`.
- A selector-list entry that is neither a string nor `null`/`undefined` (a number, an object) is not representable as a `RawSelector`; the `typeof sel !== 'string'` branch is modelled only for `null` and `undefined`.
- `customPayload` may return any value; the model takes its result as a record of JSON values, so the spreading of a non-object result (a string spreads into index keys, a primitive into nothing) is not modelled.
- DomUtils.CreateElementWithClass: `value` is stored as a plain text property whatever the element; the interface-specific setters (a `progress` rejecting non-numeric text, an `li` storing a number, a text `input` dropping line breaks) are not modelled. The element-name check of `createElement` is a parameter.
- Calls of the configured target function and custom payload function are not part of the trace: they are pure functions of the DOM event here, applied once per tracked event and never for an untracked one (the handler returns before reaching them).
- Tracker.InteractionTracker.StopEventTracking: the `listeners` record is a map, so an event named `__proto__` is recorded and later removed like any other. In the source `listeners` is a plain object, where assigning that key changes the object's prototype instead of adding an entry, so `stopEventTracking` never sees it and leaves that capture listener on the document. The same holds for `Tracker.Recorded` and `Tracker.InteractionTracker.Register`.
- Tracker.StopUndoesStart: for the reason above, the source's stop does not undo a start that registered an event named `__proto__`; the lemma does not exclude that name.
- `stopEventTracking` walks the recorded listeners in an unspecified order (`Object.entries` order is not modelled); the outcome does not depend on it.
