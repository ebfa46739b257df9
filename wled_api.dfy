/** The device-client half of makeWLEDRequest (mcp-wled/index.js:46-81):
    the configured address, the request built for an endpoint and an
    optional body, the device's JSON as far as the handlers read it, and the
    translation of a transport outcome into a result or an error message. */
module WledApi {
  import opened Wrappers
  import opened Decimal
  import opened JsonBody

  /** config.wled: host, port and the request timeout in milliseconds. */
  datatype Config = Config(host: string, port: int, timeout: int)

  /** A host name or address, so it holds no '/' that would start the path early. */
  predicate WellFormedConfig(c: Config) {
    '/' !in c.host
  }

  function Origin(c: Config): string {
    "http://" + c.host + ":" + IntToString(c.port)
  }

  /** `http://${host}:${port}${endpoint}` (mcp-wled/index.js:51): after the
      scheme come the host, a colon, and the port, which reads back from the
      text up to the endpoint that follows it. */
  function Url(c: Config, endpoint: string): (u: string)
    ensures "http://" <= u
    ensures endpoint == [] || !IsDigit(endpoint[0]) ==>
      ReadAfter("http://" + c.host + ":", u) == Some((c.port, endpoint))
  {
    if endpoint == [] || !IsDigit(endpoint[0]) then
      ReadAfterOf("http://" + c.host + ":", c.port, endpoint);
      assert Origin(c) + endpoint == "http://" + c.host + ":" + (IntToString(c.port) + endpoint);
      Origin(c) + endpoint
    else Origin(c) + endpoint
  }

  /** The suffix of s from its first '/' on, empty when there is none. */
  function FromSlash(s: string): (r: string)
    ensures |r| <= |s|
  {
    if s == [] then [] else if s[0] == '/' then s else FromSlash(s[1..])
  }

  /** The path a server sees in an http:// URL: everything from the first '/'
      after the scheme. */
  function UrlPath(url: string): string {
    if "http://" <= url then FromSlash(url[7..]) else []
  }

  lemma {:induction false} FromSlashSkips(a: string, path: string)
    requires '/' !in a
    requires |path| > 0 && path[0] == '/'
    ensures FromSlash(a + path) == path
  {
    if a != [] {
      assert (a + path)[0] == a[0];
      assert (a + path)[1..] == a[1..] + path;
      FromSlashSkips(a[1..], path);
    } else {
      assert a + path == path;
    }
  }

  /** The URL of an endpoint, read back by the device, names that endpoint. */
  lemma UrlPathOfUrl(c: Config, endpoint: string)
    requires WellFormedConfig(c)
    requires |endpoint| > 0 && endpoint[0] == '/'
    ensures UrlPath(Url(c, endpoint)) == endpoint
  {
    var authority := c.host + ":" + IntToString(c.port);
    SlashNotInInt(c.port);
    assert '/' !in authority;
    assert Url(c, endpoint) == "http://" + (authority + endpoint);
    assert Url(c, endpoint)[7..] == authority + endpoint;
    FromSlashSkips(authority, endpoint);
  }

  datatype HttpMethod = Get | Post

  /** What fetch is given: the URL and the options object, whose `body` is
      present only for a write. */
  datatype HttpRequest = HttpRequest(
    verb: HttpMethod, url: string, contentType: string, timeout: int, body: Option<string>)

  /** The request makeWLEDRequest issues for an endpoint and an optional body
      (mcp-wled/index.js:51-64). */
  function Prepared(c: Config, endpoint: string, data: Option<Payload>): (req: HttpRequest)
    ensures req.verb == Post <==> data.Some?
    ensures req.body.Some? <==> data.Some?
    ensures req.body.Some? ==> ParseBody(req.body.value) == data
    ensures req.url == Url(c, endpoint) && req.timeout == c.timeout
    ensures req.contentType == "application/json"
  {
    if data.Some? then
      HttpRequest(Post, Url(c, endpoint), "application/json", c.timeout, Some(Serialize(data.value)))
    else
      HttpRequest(Get, Url(c, endpoint), "application/json", c.timeout, None)
  }

  /** A segment of the device's state: its colour slots, each a channel list. */
  datatype Segment = Segment(col: seq<seq<int>>)

  /** The device's `state` object as far as the handlers read it. */
  datatype DeviceState = DeviceState(on: bool, bri: int, seg: seq<Segment>)

  /** The device's `info` object: firmware version, effect name (fxn, may be
      missing), LED count and power draw in milliamps. */
  datatype Info = Info(ver: string, fxn: Option<string>, ledCount: int, pwr: int)

  /** The JSON a request answers with: /json/state gives the state object,
      /json gives {state, info}, and a write gives an acknowledgement the
      handlers ignore. */
  datatype Reply = StateReply(state: DeviceState) | FullReply(state: DeviceState, info: Info) | Ack

  /** What one fetch can end in. */
  datatype Outcome =
    | Response(status: int, statusText: string, reply: Reply)
    | ConnRefused          // error.code ECONNREFUSED
    | NameNotFound         // error.code ENOTFOUND
    | RequestTimeout       // error.type request-timeout
    | Fault(message: string)  // any other error, e.g. a body that is not JSON

  /** response.ok */
  predicate IsOk(o: Outcome) {
    o.Response? && 200 <= o.status <= 299
  }

  const ConfigLoadMessage := "Konfigurationsdatei config.json konnte nicht geladen werden"
  const ApiPrefix := "WLED-API Fehler: "
  const UnreachablePrefix := "WLED-Gerät unter "

  const TimeoutOpen := "Timeout beim Verbinden zu WLED-Gerät ("

  /** The message for a refused connection or an unknown host
      (mcp-wled/index.js:75): after the prefix come the configured host, a
      colon and the port, which reads back from the text. */
  function UnreachableMessage(c: Config): (m: string)
    ensures UnreachablePrefix <= m
    ensures ReadAfter(UnreachablePrefix + c.host + ":", m) == Some((c.port, " nicht erreichbar"))
  {
    ReadAfterOf(UnreachablePrefix + c.host + ":", c.port, " nicht erreichbar");
    UnreachablePrefix + c.host + ":" + (IntToString(c.port) + " nicht erreichbar")
  }

  /** The message for a request that timed out (mcp-wled/index.js:77): the
      configured timeout reads back from it, followed by "ms)". */
  function TimeoutMessage(c: Config): (m: string)
    ensures TimeoutOpen <= m
    ensures ReadAfter(TimeoutOpen, m) == Some((c.timeout, "ms)"))
  {
    ReadAfterOf(TimeoutOpen, c.timeout, "ms)");
    TimeoutOpen + (IntToString(c.timeout) + "ms)")
  }

  /** The message of the error thrown for a response that is not ok. */
  function HttpStatusMessage(status: int, statusText: string): string {
    "HTTP " + IntToString(status) + ": " + statusText
  }

  /** makeWLEDRequest's try/catch: an ok response yields its JSON; every
      other outcome becomes the message the rethrown error carries. A non-ok
      status is thrown inside the same try, so it is reported with the API
      prefix (mcp-wled/index.js:66-79). */
  function Classify(c: Config, o: Outcome): (r: Result<Reply, string>)
    ensures r.Ok? <==> IsOk(o)
    ensures r.Ok? ==> r.value == o.reply
  {
    match o
    case Response(status, text, reply) =>
      if 200 <= status <= 299 then Ok(reply) else Err(ApiPrefix + HttpStatusMessage(status, text))
    case ConnRefused => Err(UnreachableMessage(c))
    case NameNotFound => Err(UnreachableMessage(c))
    case RequestTimeout => Err(TimeoutMessage(c))
    case Fault(m) => Err(ApiPrefix + m)
  }

  lemma UnreachableIsNotApi(c: Config, m: string)
    ensures UnreachableMessage(c) != ApiPrefix + m
    ensures TimeoutMessage(c) != ApiPrefix + m
    ensures UnreachableMessage(c) != TimeoutMessage(c)
  {
    var u, t := UnreachableMessage(c), TimeoutMessage(c);
    assert u[5] == UnreachablePrefix[5] == 'G' && (ApiPrefix + m)[5] == ApiPrefix[5] == 'A';
    assert t[0] == TimeoutOpen[0] == 'T' && u[0] == UnreachablePrefix[0] == 'W';
  }

  /** The error taxonomy: the unreachable message comes exactly from a refused
      connection or an unknown host, the timeout message exactly from a
      timeout, and every other failure carries the API prefix. */
  lemma ClassifyKinds(c: Config, o: Outcome)
    ensures Classify(c, o) == Err(UnreachableMessage(c)) <==> o.ConnRefused? || o.NameNotFound?
    ensures Classify(c, o) == Err(TimeoutMessage(c)) <==> o.RequestTimeout?
    ensures (o.Fault? || (o.Response? && !IsOk(o))) ==> ApiPrefix <= Classify(c, o).error
    ensures o.Fault? ==> Classify(c, o).error[|ApiPrefix|..] == o.message
  {
    match o
    case Response(status, text, _) => UnreachableIsNotApi(c, HttpStatusMessage(status, text));
    case Fault(m) => UnreachableIsNotApi(c, m);
    case ConnRefused => UnreachableIsNotApi(c, []);
    case NameNotFound => UnreachableIsNotApi(c, []);
    case RequestTimeout => UnreachableIsNotApi(c, []);
  }

  /** A non-ok status can be read back from the reported message: after
      "WLED-API Fehler: HTTP " comes the status, then ": " and the status text. */
  lemma HttpStatusReadsBack(c: Config, status: int, text: string, reply: Reply)
    requires !(200 <= status <= 299)
    ensures var e := Classify(c, Response(status, text, reply)).error;
      ApiPrefix + "HTTP " <= e && ParseInt(e[|ApiPrefix + "HTTP "|..]) == Some((status, ": " + text))
  {
    var e := Classify(c, Response(status, text, reply)).error;
    var h := ApiPrefix + "HTTP ";
    var t := IntToString(status) + (": " + text);
    assert HttpStatusMessage(status, text) == "HTTP " + t;
    assert e == h + t;
    assert e[..|h|] == h && e[|h|..] == t;
    IntRoundTrip(status, ": " + text);
  }
}
