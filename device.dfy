/** The WLED device on the other end of every request, as the environment
    the handlers run against: its power, brightness and segments, the log of
    requests it was sent, and a script of transport failures by request
    number. Its answers follow WLED's JSON API: GET /json/state, GET /json,
    POST /json/state; which requests fail is a parameter. */
module Devices {
  import opened Wrappers
  import opened HexColor
  import opened JsonBody
  import opened WledApi

  /** Writes the primary colour of segment 0 (creating it if missing). */
  function SetPrimary(seg: seq<Segment>, c: Rgb): (r: seq<Segment>)
    ensures |r| > 0 && |r[0].col| > 0 && r[0].col[0] == [c.red, c.green, c.blue]
    ensures |seg| > 0 ==> |r| == |seg| && r[1..] == seg[1..]
  {
    var rgb := [c.red, c.green, c.blue];
    if |seg| == 0 then [Segment([rgb])]
    else if |seg[0].col| == 0 then seg[0 := Segment([rgb])]
    else seg[0 := Segment(seg[0].col[0 := rgb])]
  }

  /** The state change a write body asks for. */
  function Apply(s: DeviceState, p: Payload): (t: DeviceState)
    ensures p.Power? ==> t == s.(on := p.on)
    ensures p.Brightness? ==> t == s.(bri := p.bri)
    ensures p.Colour? ==> t.on == s.on && t.bri == s.bri && |t.seg| > 0 && |t.seg[0].col| > 0
                          && t.seg[0].col[0] == [p.rgb.red, p.rgb.green, p.rgb.blue]
                          && (|s.seg| > 0 ==> t.seg[1..] == s.seg[1..])
  {
    match p
    case Power(on) => s.(on := on)
    case Brightness(b) => s.(bri := b)
    case Colour(c) => s.(seg := SetPrimary(s.seg, c))
  }

  /** How the device answers a request that reaches it. */
  function Route(s: DeviceState, info: Info, req: HttpRequest): (Outcome, DeviceState) {
    var path := UrlPath(req.url);
    if req.verb == Get && path == "/json/state" then (Response(200, "OK", StateReply(s)), s)
    else if req.verb == Get && path == "/json" then (Response(200, "OK", FullReply(s, info)), s)
    else if req.verb == Post && path == "/json/state" then
      match (if req.body.Some? then ParseBody(req.body.value) else None)
      case Some(p) => (Response(200, "OK", Ack), Apply(s, p))
      case None => (Response(400, "Bad Request", Ack), s)
    else (Response(404, "Not Found", Ack), s)
  }

  /** Reading /json/state answers the current state and changes nothing. */
  lemma RouteReadState(s: DeviceState, info: Info, c: Config)
    requires WellFormedConfig(c)
    ensures Route(s, info, Prepared(c, "/json/state", None)) == (Response(200, "OK", StateReply(s)), s)
  {
    UrlPathOfUrl(c, "/json/state");
  }

  /** Reading /json answers the state with the device information. */
  lemma RouteReadStatus(s: DeviceState, info: Info, c: Config)
    requires WellFormedConfig(c)
    ensures Route(s, info, Prepared(c, "/json", None)) == (Response(200, "OK", FullReply(s, info)), s)
  {
    UrlPathOfUrl(c, "/json");
    assert "/json" != "/json/state";
  }

  /** A write of any payload to /json/state is accepted and applied. */
  lemma RouteWrite(s: DeviceState, info: Info, c: Config, p: Payload)
    requires WellFormedConfig(c)
    ensures Route(s, info, Prepared(c, "/json/state", Some(p))) == (Response(200, "OK", Ack), Apply(s, p))
  {
    UrlPathOfUrl(c, "/json/state");
  }

  /** A scripted transport failure: what the fetch reports, and whether the
      request reached the device, and was acted on, before the failure (a
      timeout or an unreadable reply after delivery, as against a refused
      connection or an unknown host). */
  datatype Failure = Failure(outcome: Outcome, delivered: bool)

  /** Refused connections and unknown hosts never reach the device; every
      other failure may come after the device has acted. */
  predicate Possible(f: Failure) {
    && !IsOk(f.outcome)
    && (f.delivered ==> !f.outcome.ConnRefused? && !f.outcome.NameNotFound?)
  }

  class Device {
    var on: bool
    var bri: int
    var seg: seq<Segment>
    /** Every request sent to the device, in order. */
    var log: seq<HttpRequest>
    const info: Info
    /** Request number k fails with script[k].outcome; the device acts on it
        first exactly when script[k].delivered. */
    const script: map<nat, Failure>

    predicate Valid() {
      forall k :: k in script ==> Possible(script[k])
    }

    /** Whether request number k is acted on by the device: it is not
        scripted to fail, or it fails only after delivery. */
    predicate Reaches(k: nat) {
      k !in script || script[k].delivered
    }

    function State(): DeviceState
      reads this
    {
      DeviceState(on, bri, seg)
    }

    /** The outcome of request number k against state s, and the state after. */
    function Answer(s: DeviceState, k: nat, req: HttpRequest): (Outcome, DeviceState) {
      if k in script then
        (script[k].outcome, if script[k].delivered then Route(s, info, req).1 else s)
      else Route(s, info, req)
    }

    /** Request number k, a write of p to /json/state: its scripted failure,
        with p applied if it reached the device, or else acceptance. */
    lemma AnswerWrite(s: DeviceState, k: nat, c: Config, p: Payload)
      requires WellFormedConfig(c)
      ensures Answer(s, k, Prepared(c, "/json/state", Some(p)))
              == if k in script then (script[k].outcome, if script[k].delivered then Apply(s, p) else s)
                 else (Response(200, "OK", Ack), Apply(s, p))
    {
      RouteWrite(s, info, c, p);
    }

    constructor (s: DeviceState, info: Info, script: map<nat, Failure>)
      requires forall k :: k in script ==> Possible(script[k])
      ensures Valid()
      ensures State() == s && log == []
      ensures this.info == info && this.script == script
    {
      on, bri, seg := s.on, s.bri, s.seg;
      log := [];
      this.info := info;
      this.script := script;
    }

    /** One fetch against the device. */
    method Receive(req: HttpRequest) returns (o: Outcome)
      modifies this
      ensures log == old(log) + [req]
      ensures (o, State()) == Answer(old(State()), |old(log)|, req)
    {
      var k := |log|;
      log := log + [req];
      var answer := Answer(State(), k, req);
      o := answer.0;
      on, bri, seg := answer.1.on, answer.1.bri, answer.1.seg;
    }
  }
}
