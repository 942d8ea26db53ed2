/** src/analytics/analyticsConfig.ts: the `AnalyticsConfig` class, its
    construction guard and its `url` accessor pair. Parsing a URL string
    (the `URL` constructor) belongs to the host and is a parameter. */
module Config {
  import opened Base

  /** A parsed URL; `href` is what `toString()` returns. */
  datatype Url = Url(href: string)

  /** What may be assigned to `url`: a string to parse or a `URL` object. */
  datatype UrlInput = UrlText(text: string) | UrlObject(url: Url)

  type Headers = map<string, string>

  /** The host's `new URL(s)`: a parsed URL, or the message of the error it throws. */
  type UrlParser = string -> Result<Url, string>

  const InvalidUrlPrefix: string := "Invalid URL provided. A valid URL must be provided. Original error: "
  const NoTransportMessage: string :=
    "AnalyticsConfig: You must provide either an apiCallback or a url (with optional headers)."

  /** The fields of a configuration as other components read them. */
  datatype ConfigView = ConfigView(
    url: Option<Url>,
    headers: Option<Headers>,
    logCallback: Option<FnRef>,
    apiCallback: Option<FnRef>)

  /** The value the `url` setter stores for `value`, or the message it throws:
      `undefined` clears, a `URL` object is kept, a string is parsed. */
  function UrlSetterResult(value: Option<UrlInput>, parse: UrlParser): (r: Result<Option<Url>, string>)
    ensures value.None? ==> r == Ok(None)
    ensures value.Some? && value.value.UrlObject? ==> r == Ok(Some(value.value.url))
    ensures value.Some? && value.value.UrlText? ==>
      (r.Ok? <==> parse(value.value.text).Ok?)
      && (r.Ok? ==> r.value == Some(parse(value.value.text).value))
      && (r.Err? ==> r.error == InvalidUrlPrefix + parse(value.value.text).error)
  {
    match value
    case None => Ok(None)
    case Some(UrlObject(u)) => Ok(Some(u))
    case Some(UrlText(s)) =>
      match parse(s)
      case Ok(u) => Ok(Some(u))
      case Err(e) => Err(InvalidUrlPrefix + e)
  }

  /** The constructor's first check: it throws when there is neither an
      API callback nor a url argument. An empty string counts as a url
      argument here and is then handed to the setter, which stores it or
      fails as the host's URL parser decides. */
  predicate MissingTransport(url: Option<UrlInput>, apiCallback: Option<FnRef>)
  {
    apiCallback.None? && url.None?
  }

  class AnalyticsConfig {
    /** The private `_url` behind the accessor pair. */
    var url: Option<Url>
    var headers: Option<Headers>
    var logCallback: Option<FnRef>
    var apiCallback: Option<FnRef>

    function View(): ConfigView
      reads this
    {
      ConfigView(url, headers, logCallback, apiCallback)
    }

    /** The field assignments of the constructor once its guard and the
        url assignment have succeeded. */
    constructor WithFields(url: Option<Url>, headers: Option<Headers>, logCallback: Option<FnRef>, apiCallback: Option<FnRef>)
      ensures View() == ConfigView(url, headers, logCallback, apiCallback)
    {
      this.url := url;
      this.headers := headers;
      this.logCallback := logCallback;
      this.apiCallback := apiCallback;
    }

    /** `set url(value)`: on success stores the new url; on a string the
        parser rejects, throws `Invalid URL provided...` and keeps the old url.
        No other field changes. */
    method SetUrl(value: Option<UrlInput>, parse: UrlParser) returns (c: Completion)
      modifies this`url
      ensures UrlSetterResult(value, parse).Ok? ==> c == Normal && url == UrlSetterResult(value, parse).value
      ensures UrlSetterResult(value, parse).Err? ==> c == Threw(UrlSetterResult(value, parse).error) && url == old(url)
      ensures value.None? ==> c == Normal && url == None
    {
      var r := UrlSetterResult(value, parse);
      if r.Ok? {
        url := r.value;
        c := Normal;
      } else {
        c := Threw(r.error);
      }
    }
  }

  /** `new AnalyticsConfig(url?, headers?, logCallback?, apiCallback?)`:
      throws the missing-transport error when neither an API callback nor a
      url is given, throws the setter's error for an unparsable url string,
      and otherwise stores headers and both callbacks exactly as given. */
  method NewAnalyticsConfig(url: Option<UrlInput>, headers: Option<Headers>, logCallback: Option<FnRef>,
                            apiCallback: Option<FnRef>, parse: UrlParser)
    returns (r: Result<AnalyticsConfig, string>)
    ensures MissingTransport(url, apiCallback) ==> r == Err(NoTransportMessage)
    ensures !MissingTransport(url, apiCallback) && UrlSetterResult(url, parse).Err? ==>
      r == Err(UrlSetterResult(url, parse).error)
    ensures !MissingTransport(url, apiCallback) && UrlSetterResult(url, parse).Ok? ==>
      r.Ok? && fresh(r.value)
      && r.value.View() == ConfigView(UrlSetterResult(url, parse).value, headers, logCallback, apiCallback)
  {
    if MissingTransport(url, apiCallback) {
      return Err(NoTransportMessage);
    }
    var config := new AnalyticsConfig.WithFields(None, None, None, None);
    if url.Some? {
      var c := config.SetUrl(url, parse);
      if c.Threw? {
        return Err(c.message);
      }
    }
    config.headers := headers;
    config.logCallback := logCallback;
    config.apiCallback := apiCallback;
    r := Ok(config);
  }
}
