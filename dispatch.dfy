/** The dispatch strategy shared by `logEvent` and the page-view tracker:
    API callback first, else an HTTP POST, else the no-transport error;
    what the awaited call does is an input (`Settlement`), and every
    observable call is an `Effect`. */
module Dispatch {
  import opened Base
  import opened Json
  import opened Logging
  import opened Payload

  datatype Transport = ViaApiCallback(callback: FnRef) | ViaFetch(url: string) | NoTransport

  /** `if (apiCallback) … else if (url) … else throw …`; `url` is `None`
      when the source's url value is falsy. */
  function ChooseTransport(apiCallback: Option<FnRef>, url: Option<string>): (t: Transport)
    ensures t.ViaApiCallback? <==> apiCallback.Some?
    ensures t.ViaApiCallback? ==> t.callback == apiCallback.value
    ensures t.ViaFetch? <==> apiCallback.None? && url.Some?
    ensures t.ViaFetch? ==> t.url == url.value
  {
    if apiCallback.Some? then ViaApiCallback(apiCallback.value)
    else if url.Some? then ViaFetch(url.value)
    else NoTransport
  }

  /** How the awaited transport call settles; a rejection carries the
      error's string form (`${error}`). */
  datatype Settlement = Resolves | Rejects(error: string)

  /** The options object of a `fetch` call. The body is the payload's JSON. */
  datatype FetchInit = FetchInit(httpMethod: string, headers: map<string, string>, body: Json, keepalive: bool)

  /** An observable action of the core. */
  datatype Effect =
    | Log(emission: Emission)
    | CallApi(callback: FnRef, payload: AnalyticsPayload)
    | CallFetch(url: string, init: FetchInit)

  /** `${new Error('No apiCallback or url provided for analytics tracking.')}`. */
  const NoTransportError: string := "Error: No apiCallback or url provided for analytics tracking."

  function AsEffects(es: seq<Emission>): (r: seq<Effect>)
    ensures |r| == |es|
    ensures forall k :: 0 <= k < |es| ==> r[k] == Log(es[k])
  {
    seq(|es|, k requires 0 <= k < |es| => Log(es[k]))
  }

  /** `if (logCallback) logMessage(message, level, logCallback)`. */
  function LogIfCallback(message: string, level: LogLevel, logCallback: Option<FnRef>): seq<Emission>
  {
    if logCallback.Some? then LogMessage(message, Some(level), logCallback) else []
  }

  /** The call made on the chosen transport, if any. */
  function Attempt(t: Transport, payload: AnalyticsPayload, init: FetchInit): seq<Effect>
  {
    match t
    case ViaApiCallback(f) => [CallApi(f, payload)]
    case ViaFetch(u) => [CallFetch(u, init)]
    case NoTransport => []
  }

  /** The error the `catch` block receives: the no-transport error, the
      rejection of the chosen call, or nothing. */
  function CaughtError(t: Transport, settlement: Settlement): (r: Option<string>)
    ensures t.NoTransport? ==> r == Some(NoTransportError)
    ensures !t.NoTransport? ==> (r.Some? <==> settlement.Rejects?)
    ensures !t.NoTransport? && settlement.Rejects? ==> r.value == settlement.error
  {
    if t.NoTransport? then Some(NoTransportError)
    else if settlement.Rejects? then Some(settlement.error)
    else None
  }

  /** An ERROR-level callback call or a `console.error` write. */
  predicate IsErrorReport(e: Effect)
  {
    e.Log? && (e.emission.CallbackInvoked? ==> e.emission.level == ERROR)
           && (e.emission.ConsoleWrite? ==> e.emission.channel == ConsoleError)
  }

  predicate IsTransportCall(e: Effect)
  {
    e.CallApi? || e.CallFetch?
  }

  /** The number of transport calls in a trace. */
  function TransportCalls(es: seq<Effect>): nat
  {
    if es == [] then 0 else (if IsTransportCall(es[0]) then 1 else 0) + TransportCalls(es[1..])
  }

  lemma {:induction false} TransportCallsAppend(a: seq<Effect>, b: seq<Effect>)
    ensures TransportCalls(a + b) == TransportCalls(a) + TransportCalls(b)
  {
    if a == [] {
      assert a + b == b;
    } else {
      assert (a + b)[1..] == a[1..] + b;
      TransportCallsAppend(a[1..], b);
    }
  }

  /** Log output contains no transport call. */
  lemma {:induction false} NoTransportCallsInLogs(es: seq<Emission>)
    ensures TransportCalls(AsEffects(es)) == 0
  {
    if es != [] {
      assert AsEffects(es)[1..] == AsEffects(es[1..]);
      NoTransportCallsInLogs(es[1..]);
    }
  }

  /** Logging, then the transport attempt, then logging again: the trace
      calls a transport once when one is chosen and never otherwise; with
      the API callback chosen it calls it with the payload and never calls
      `fetch`; with the URL chosen it POSTs there. */
  lemma TransportInTrace(before: seq<Emission>, t: Transport, payload: AnalyticsPayload, init: FetchInit,
                         after: seq<Emission>)
    ensures var trace := AsEffects(before) + Attempt(t, payload, init) + AsEffects(after);
      && TransportCalls(trace) == (if t.NoTransport? then 0 else 1)
      && (t.ViaApiCallback? ==> CallApi(t.callback, payload) in trace && forall e :: e in trace ==> !e.CallFetch?)
      && (t.ViaFetch? ==> CallFetch(t.url, init) in trace)
  {
    var trace := AsEffects(before) + Attempt(t, payload, init) + AsEffects(after);
    NoTransportCallsInLogs(before);
    NoTransportCallsInLogs(after);
    TransportCallsAppend(AsEffects(before), Attempt(t, payload, init));
    TransportCallsAppend(AsEffects(before) + Attempt(t, payload, init), AsEffects(after));
    assert TransportCalls(Attempt(t, payload, init)) == if t.NoTransport? then 0 else 1;
    forall e | e in trace
      ensures t.ViaApiCallback? ==> !e.CallFetch?
    {
      if e !in Attempt(t, payload, init) {
        assert e in AsEffects(before) || e in AsEffects(after);
      }
    }
  }

  /** INFO output is never an error report. */
  lemma InfoIsNoErrorReport(message: string, logCallback: Option<FnRef>)
    ensures forall e :: e in AsEffects(LogIfCallback(message, INFO, logCallback)) ==> !IsErrorReport(e)
  {
    if logCallback.Some? {
      var r := LogMessage(message, Some(INFO), logCallback);
      assert AsEffects(r) == [Log(r[0]), Log(r[1])];
    }
  }

  /** Whatever the trailing logging emits appears in the trace. */
  lemma LoggedInTrace(before: seq<Emission>, attempt: seq<Effect>, after: seq<Emission>, x: Emission)
    requires x in after
    ensures Log(x) in AsEffects(before) + attempt + AsEffects(after)
  {
    var k :| 0 <= k < |after| && after[k] == x;
    assert AsEffects(after)[k] == Log(x);
    assert (AsEffects(before) + attempt + AsEffects(after))[|before| + |attempt| + k] == Log(x);
  }

  /** A trace of INFO logging and a transport call, with nothing after,
      holds no error report. */
  lemma NoErrorReportInTrace(message: string, logCallback: Option<FnRef>, t: Transport, payload: AnalyticsPayload,
                             init: FetchInit)
    ensures forall e :: e in AsEffects(LogIfCallback(message, INFO, logCallback)) + Attempt(t, payload, init) + AsEffects([])
                        ==> !IsErrorReport(e)
  {
    InfoIsNoErrorReport(message, logCallback);
    assert AsEffects([]) == [];
  }
}
