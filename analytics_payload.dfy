/** src/analytics/analyticsPayload.ts: the closed `EventType` taxonomy with
    its string values, and the `AnalyticsPayload` record. */
module Payload {
  import opened Base
  import opened Json

  /** `EventType`; `Wire()` is each member's string value. */
  datatype EventType = Navigation | Outbound | Inbound | Link | Error | UserInput | Other {
    function Wire(): string
    {
      match this
      case Navigation => "Navigate"
      case Outbound => "Outbound"
      case Inbound => "Inbound"
      case Link => "Link"
      case Error => "Error"
      case UserInput => "UserInput"
      case Other => "Other"
    }
  }

  /** Reads a string value back as an `EventType`, for instance on the
      receiving end of the JSON body. */
  function EventTypeFromWire(s: string): (r: Option<EventType>)
    ensures r.Some? ==> r.value.Wire() == s
  {
    if s == "Navigate" then Some(Navigation)
    else if s == "Outbound" then Some(Outbound)
    else if s == "Inbound" then Some(Inbound)
    else if s == "Link" then Some(Link)
    else if s == "Error" then Some(Error)
    else if s == "UserInput" then Some(UserInput)
    else if s == "Other" then Some(Other)
    else None
  }

  lemma WireRoundTrip(t: EventType)
    ensures EventTypeFromWire(t.Wire()) == Some(t)
  {
    match t
    case Navigation =>
    case Outbound =>
    case Inbound =>
    case Link =>
    case Error =>
    case UserInput =>
    case Other =>
  }

  /** The seven string values are pairwise distinct. */
  lemma WireInjective(a: EventType, b: EventType)
    ensures a.Wire() == b.Wire() <==> a == b
  {
    WireRoundTrip(a);
    WireRoundTrip(b);
  }

  /** `new AnalyticsPayload(eventType, target, errorMessage?, additionalPayload?)`:
      the constructor stores its four arguments as they are, an omitted
      optional argument as `None`. */
  datatype AnalyticsPayload = AnalyticsPayload(
    eventType: EventType,
    target: string,
    errorMessage: Option<string>,
    additionalPayload: Option<Record>)

  /** The object `JSON.stringify` serialises: `EventType` and `Target`
      always, `ErrorMessage` and `AdditionalPayload` only when defined. */
  function ToJson(p: AnalyticsPayload): (j: Json)
    ensures j.JObject?
    ensures "ErrorMessage" in j.fields <==> p.errorMessage.Some?
    ensures "AdditionalPayload" in j.fields <==> p.additionalPayload.Some?
  {
    var required := map["EventType" := JString(p.eventType.Wire()), "Target" := JString(p.target)];
    var error := if p.errorMessage.Some? then map["ErrorMessage" := JString(p.errorMessage.value)] else map[];
    var extra := if p.additionalPayload.Some? then map["AdditionalPayload" := JObject(p.additionalPayload.value)] else map[];
    JObject(required + error + extra)
  }

  /** Reads a serialised payload back. */
  function FromJson(j: Json): (r: Option<AnalyticsPayload>)
  {
    if !j.JObject? || "EventType" !in j.fields || "Target" !in j.fields then None
    else
      var t := j.fields["EventType"];
      var target := j.fields["Target"];
      if !t.JString? || EventTypeFromWire(t.s).None? || !target.JString? then None
      else if "ErrorMessage" in j.fields && !j.fields["ErrorMessage"].JString? then None
      else if "AdditionalPayload" in j.fields && !j.fields["AdditionalPayload"].JObject? then None
      else
        var error := if "ErrorMessage" in j.fields then Some(j.fields["ErrorMessage"].s) else None;
        var extra := if "AdditionalPayload" in j.fields then Some(j.fields["AdditionalPayload"].fields) else None;
        Some(AnalyticsPayload(EventTypeFromWire(t.s).value, target.s, error, extra))
  }

  /** Serialisation keeps all four fields: an undefined optional field is
      omitted and comes back undefined, an empty additional payload `{}`
      comes back as `{}`. */
  lemma JsonRoundTrip(p: AnalyticsPayload)
    ensures FromJson(ToJson(p)) == Some(p)
  {
    WireRoundTrip(p.eventType);
  }
}
