/** WLEDMCPServer's request path: the lazily loaded configuration,
    makeWLEDRequest, the four tool handlers and the dispatcher with its
    single catch (mcp-wled/index.js:31-81, 164-290). */
module Server {
  import opened Wrappers
  import opened HexColor
  import opened JsonBody
  import opened WledApi
  import opened Rendering
  import opened Tools
  import opened Devices

  /** `status.on` of a reply: the power flag of a state object, and falsy
      (undefined) for any other JSON. */
  function PowerField(reply: Reply): bool {
    reply.StateReply? && reply.state.on
  }

  /** Whether a call reaches a handler: its name is a tool's, and it carries
      an arguments object unless the tool ignores it. */
  predicate Runs(name: string, args: Option<Args>) {
    ToolNamed(name).Some? && (args.Some? || ToolNamed(name) == Some(GetStatus))
  }

  /** One write of p to /json/state as request number |log0|: the device
      log grows by exactly that request; if the request was scripted to fail
      r carries the failure's message and the payload is applied exactly when
      the request reached the device first, otherwise the payload is applied
      and r is Ok(text). */
  ghost predicate WroteOnce(
    dev: Device, c: Config, log0: seq<HttpRequest>, s0: DeviceState,
    p: Payload, r: Result<string, string>, text: string)
    reads dev
  {
    var n := |log0|;
    && dev.Valid()
    && dev.log == log0 + [Prepared(c, "/json/state", Some(p))]
    && if n in dev.script then
         && dev.State() == (if dev.script[n].delivered then Apply(s0, p) else s0)
         && r == Err(Classify(c, dev.script[n].outcome).error)
       else dev.State() == Apply(s0, p) && r == Ok(text)
  }

  /** A call sent nothing beyond log0, or the last request it sent did not
      reach the device. */
  predicate SentNothingReached(dev: Device, log0: seq<HttpRequest>)
    reads dev
  {
    |dev.log| <= |log0| || !dev.Reaches(|dev.log| - 1)
  }

  /** The arguments a handler sees: the call's, or none at all for the
      status handler, which reads none. */
  function ArgsOf(args: Option<Args>): Args {
    if args.Some? then args.value else NoArgs
  }

  /** What handling tool t with configuration c did, given the device's log
      log0 and state s0 before and the outcome r: each tool's handler
      contract below, in one place. */
  ghost predicate Handled(
    dev: Device, c: Config, t: Tool, args: Args,
    log0: seq<HttpRequest>, s0: DeviceState, r: Result<string, string>)
    requires ArgsFit(t, args)
    reads dev
  {
    var n := |log0|;
    && dev.Valid()
    && match t
    case TogglePower =>
      var read := log0 + [Prepared(c, "/json/state", None)];
      if args.state.Some? then
        WroteOnce(dev, c, log0, s0, Power(args.state.value), r, PowerText(args.state.value))
      else if n in dev.script then
        dev.log == read && dev.State() == s0 && r == Err(Classify(c, dev.script[n].outcome).error)
      else
        WroteOnce(dev, c, read, s0, Power(!s0.on), r, PowerText(!s0.on))
    case SetBrightness =>
      WroteOnce(dev, c, log0, s0, Brightness(args.brightness.value), r, BrightnessText(args.brightness.value))
    case SetColor =>
      WroteOnce(dev, c, log0, s0, Colour(ResolveColour(args)), r, ColourSetText(ColourEcho(args)))
    case GetStatus =>
      && dev.log == log0 + [Prepared(c, "/json", None)]
      && dev.State() == s0
      && r == if n in dev.script then Err(Classify(c, dev.script[n].outcome).error)
              else RenderStatus(FullReply(s0, dev.info))
  }

  /** After one write, an error whose request did not reach the device
      leaves it as it was. */
  lemma UnreachedWriteKeepsState(
    dev: Device, c: Config, log0: seq<HttpRequest>, s0: DeviceState,
    p: Payload, r: Result<string, string>, text: string)
    requires WroteOnce(dev, c, log0, s0, p, r, text)
    ensures r.Err? && SentNothingReached(dev, log0) ==> dev.State() == s0
  {
    assert |dev.log| - 1 == |log0|;
  }

  class WledServer {
    /** this.config: None until the first request loads it. */
    var config: Option<Config>
    /** What loading config.json would yield now: its wled section, or None
        when the file cannot be read or parsed. The server never changes it;
        the file may change between calls, and while no configuration is
        loaded every request reads it afresh. */
    var source: Option<Config>

    ghost predicate Valid()
      reads this
    {
      && (config.Some? ==> WellFormedConfig(config.value))
      && (source.Some? ==> WellFormedConfig(source.value))
    }

    /** The configuration the next request will use: the loaded one, or else
        what loading would give. */
    function Pending(): Option<Config>
      reads this
    {
      if config.Some? then config else source
    }

    constructor (source: Option<Config>)
      requires source.Some? ==> WellFormedConfig(source.value)
      ensures Valid() && config == None && this.source == source
    {
      config := None;
      this.source := source;
    }

    /** `if (!this.config) await this.loadConfig()` (mcp-wled/index.js:35-49):
        loads once, and a loaded configuration is never reloaded. */
    method EnsureConfig() returns (r: Result<Config, string>)
      requires Valid()
      modifies this
      ensures Valid() && config == old(Pending()) && source == old(source)
      ensures old(config).Some? ==> config == old(config)
      ensures config.Some? ==> r == Ok(config.value)
      ensures config.None? ==> r == Err(ConfigLoadMessage)
    {
      if config.None? {
        if source.None? {
          return Err(ConfigLoadMessage);
        }
        config := source;
      }
      r := Ok(config.value);
    }

    /** makeWLEDRequest (mcp-wled/index.js:46-81): with the configuration in
        hand, exactly one request goes to the device, POST with a body when
        data is given and GET without one otherwise, and its outcome is
        classified; without a configuration nothing is sent. */
    method Request(dev: Device, endpoint: string, data: Option<Payload>) returns (r: Result<Reply, string>)
      requires Valid()
      modifies this, dev
      ensures Valid() && config == old(Pending()) && source == old(source)
      ensures config.None? ==>
        r == Err(ConfigLoadMessage) && dev.log == old(dev.log) && dev.State() == old(dev.State())
      ensures config.Some? ==>
        var req := Prepared(config.value, endpoint, data);
        var answer := dev.Answer(old(dev.State()), |old(dev.log)|, req);
        && dev.log == old(dev.log) + [req]
        && dev.State() == answer.1
        && r == Classify(config.value, answer.0)
    {
      var loaded := EnsureConfig();
      if loaded.Err? {
        return Err(loaded.error);
      }
      var c := loaded.value;
      var url := Url(c, endpoint);
      var options := HttpRequest(if data.Some? then Post else Get, url, "application/json", c.timeout, None);
      if data.Some? {
        options := options.(body := Some(Serialize(data.value)));
      }
      var outcome := dev.Receive(options);
      r := Classify(c, outcome);
    }

    /** Shared tail of the three writing handlers: send p, then answer text. */
    method Write(dev: Device, p: Payload, text: string) returns (r: Result<string, string>)
      requires Valid() && dev.Valid() && config.Some?
      modifies this, dev
      ensures Valid() && config == old(config) && source == old(source)
      ensures WroteOnce(dev, config.value, old(dev.log), old(dev.State()), p, r, text)
      ensures r.Err? && SentNothingReached(dev, old(dev.log)) ==> dev.State() == old(dev.State())
    {
      ghost var n := |dev.log|;
      ghost var s0 := dev.State();
      var written := Request(dev, "/json/state", Some(p));
      dev.AnswerWrite(s0, n, config.value, p);
      if written.Err? {
        r := Err(written.error);
      } else {
        r := Ok(text);
      }
      UnreachedWriteKeepsState(dev, config.value, old(dev.log), old(dev.State()), p, r, text);
    }

    /** handleTogglePower (mcp-wled/index.js:198-221): with `state` given, one
        POST of {on: state}; without it, a GET of /json/state first and, if
        that succeeds, a POST of the inverse of the device's power. The text
        names the power written. */
    method HandleTogglePower(dev: Device, state: Option<bool>) returns (r: Result<string, string>)
      requires Valid() && dev.Valid()
      modifies this, dev
      ensures Valid() && config == old(Pending()) && source == old(source)
      ensures config.None? ==>
        r == Err(ConfigLoadMessage) && dev.log == old(dev.log) && dev.State() == old(dev.State())
      ensures config.Some? && state.Some? ==>
        WroteOnce(dev, config.value, old(dev.log), old(dev.State()), Power(state.value), r, PowerText(state.value))
      ensures config.Some? && state.None? ==>
        var c, n := config.value, |old(dev.log)|;
        var read := old(dev.log) + [Prepared(c, "/json/state", None)];
        if n in dev.script then
          dev.log == read && dev.State() == old(dev.State()) && r == Err(Classify(c, dev.script[n].outcome).error)
        else
          WroteOnce(dev, c, read, old(dev.State()), Power(!old(dev.on)), r, PowerText(!old(dev.on)))
      ensures r.Err? && SentNothingReached(dev, old(dev.log)) ==> dev.State() == old(dev.State())
    {
      var payload: Payload;
      if state.Some? {
        payload := Power(state.value);
        var loaded := EnsureConfig();
        if loaded.Err? {
          return Err(loaded.error);
        }
      } else {
        var status := Request(dev, "/json/state", None);
        if config.Some? {
          RouteReadState(old(dev.State()), dev.info, config.value);
        }
        if status.Err? {
          return Err(status.error);
        }
        payload := Power(!PowerField(status.value));
      }
      r := Write(dev, payload, PowerText(payload.on));
    }

    /** handleSetBrightness (mcp-wled/index.js:223-236): one POST of
        {bri: brightness}; the text gives the brightness and its percentage. */
    method HandleSetBrightness(dev: Device, brightness: int) returns (r: Result<string, string>)
      requires Valid() && dev.Valid()
      modifies this, dev
      ensures Valid() && config == old(Pending()) && source == old(source)
      ensures config.None? ==>
        r == Err(ConfigLoadMessage) && dev.log == old(dev.log) && dev.State() == old(dev.State())
      ensures config.Some? ==>
        WroteOnce(dev, config.value, old(dev.log), old(dev.State()), Brightness(brightness), r, BrightnessText(brightness))
      ensures r.Err? && SentNothingReached(dev, old(dev.log)) ==> dev.State() == old(dev.State())
    {
      var loaded := EnsureConfig();
      if loaded.Err? {
        return Err(loaded.error);
      }
      r := Write(dev, Brightness(brightness), BrightnessText(brightness));
    }

    /** handleSetColor (mcp-wled/index.js:238-263): one POST of the colour,
        decoded from a non-empty hex code or taken from the channels; the text
        echoes the form the caller used. */
    method HandleSetColor(dev: Device, args: Args) returns (r: Result<string, string>)
      requires Valid() && dev.Valid() && ColourArgsFit(args)
      modifies this, dev
      ensures Valid() && config == old(Pending()) && source == old(source)
      ensures config.None? ==>
        r == Err(ConfigLoadMessage) && dev.log == old(dev.log) && dev.State() == old(dev.State())
      ensures config.Some? ==>
        WroteOnce(dev, config.value, old(dev.log), old(dev.State()),
                  Colour(ResolveColour(args)), r, ColourSetText(ColourEcho(args)))
      ensures r.Err? && SentNothingReached(dev, old(dev.log)) ==> dev.State() == old(dev.State())
    {
      var colour: Rgb;
      if HexGiven(args) {
        var hex := RemoveFirst(args.hex.value, '#');
        colour := Rgb(PairValue(hex[0], hex[1]), PairValue(hex[2], hex[3]), PairValue(hex[4], hex[5]));
      } else {
        colour := Rgb(args.red.value, args.green.value, args.blue.value);
      }
      var loaded := EnsureConfig();
      if loaded.Err? {
        return Err(loaded.error);
      }
      var echo := if HexGiven(args) then args.hex.value else RgbText(colour);
      r := Write(dev, Colour(colour), ColourSetText(echo));
    }

    /** handleGetStatus (mcp-wled/index.js:265-290): one GET of /json, and
        the summary of the reply; the device is left as it was. */
    method HandleGetStatus(dev: Device) returns (r: Result<string, string>)
      requires Valid() && dev.Valid()
      modifies this, dev
      ensures Valid() && config == old(Pending()) && source == old(source)
      ensures dev.State() == old(dev.State())
      ensures config.None? ==> r == Err(ConfigLoadMessage) && dev.log == old(dev.log)
      ensures config.Some? ==>
        var c, n := config.value, |old(dev.log)|;
        && dev.log == old(dev.log) + [Prepared(c, "/json", None)]
        && r == if n in dev.script then Err(Classify(c, dev.script[n].outcome).error)
                else RenderStatus(FullReply(old(dev.State()), dev.info))
    {
      var status := Request(dev, "/json", None);
      if config.Some? {
        RouteReadStatus(old(dev.State()), dev.info, config.value);
      }
      if status.Err? {
        return Err(status.error);
      }
      r := RenderStatus(status.value);
    }

    /** The body of the dispatcher's try (mcp-wled/index.js:167-183): the
        name selects a handler, an unknown name throws, and a missing
        arguments object makes the three handlers that read it throw. */
    method Call(dev: Device, name: string, args: Option<Args>) returns (r: Result<string, string>)
      requires Valid() && dev.Valid()
      requires ToolNamed(name).Some? && args.Some? ==> ArgsFit(ToolNamed(name).value, args.value)
      modifies this, dev
      ensures Valid() && source == old(source)
      ensures r.Err? && SentNothingReached(dev, old(dev.log)) ==>
        dev.State() == old(dev.State())
      ensures !Runs(name, args) ==>
        && config == old(config) && dev.log == old(dev.log) && dev.State() == old(dev.State())
        && r == Err(if ToolNamed(name).None? then UnknownToolMessage(name)
                    else MissingArgsMessage(ToolNamed(name).value))
      ensures Runs(name, args) ==> config == old(Pending())
      ensures Runs(name, args) && config.None? ==>
        r == Err(ConfigLoadMessage) && dev.log == old(dev.log) && dev.State() == old(dev.State())
      ensures Runs(name, args) && config.Some? ==>
        Handled(dev, config.value, ToolNamed(name).value, ArgsOf(args), old(dev.log), old(dev.State()), r)
    {
      match ToolNamed(name) {
      case None =>
        r := Err(UnknownToolMessage(name));
      case Some(t) =>
        if args.None? && t != GetStatus {
          r := Err(MissingArgsMessage(t));
        } else {
          r := RunTool(dev, t, ArgsOf(args));
        }
      }
    }

    /** The switch's case for tool t: its handler, run on the arguments. */
    method RunTool(dev: Device, t: Tool, args: Args) returns (r: Result<string, string>)
      requires Valid() && dev.Valid() && ArgsFit(t, args)
      modifies this, dev
      ensures Valid() && config == old(Pending()) && source == old(source)
      ensures r.Err? && SentNothingReached(dev, old(dev.log)) ==> dev.State() == old(dev.State())
      ensures config.None? ==>
        r == Err(ConfigLoadMessage) && dev.log == old(dev.log) && dev.State() == old(dev.State())
      ensures config.Some? ==> Handled(dev, config.value, t, args, old(dev.log), old(dev.State()), r)
    {
      match t
      case TogglePower =>
        r := HandleTogglePower(dev, args.state);
      case SetBrightness =>
        r := HandleSetBrightness(dev, args.brightness.value);
      case SetColor =>
        r := HandleSetColor(dev, args);
      case GetStatus =>
        r := HandleGetStatus(dev);
    }

    /** The CallTool handler (mcp-wled/index.js:164-195): Call, with its single
        catch turning every error into an error result; nothing propagates.
        Each tool's effect is its handler's, read through Untranslate. */
    method Dispatch(dev: Device, name: string, args: Option<Args>) returns (res: ToolResult)
      requires Valid() && dev.Valid()
      requires ToolNamed(name).Some? && args.Some? ==> ArgsFit(ToolNamed(name).value, args.value)
      modifies this, dev
      ensures Valid() && source == old(source)
      ensures res.isError ==> ErrorPrefix <= res.text
      ensures res.isError && SentNothingReached(dev, old(dev.log)) ==>
        dev.State() == old(dev.State())
      ensures !Runs(name, args) ==>
        && config == old(config) && dev.log == old(dev.log) && dev.State() == old(dev.State())
        && res == Translate(Err(if ToolNamed(name).None? then UnknownToolMessage(name)
                                else MissingArgsMessage(ToolNamed(name).value)))
      ensures Runs(name, args) ==> config == old(Pending())
      ensures Runs(name, args) && config.None? ==>
        res == Translate(Err(ConfigLoadMessage)) && dev.log == old(dev.log) && dev.State() == old(dev.State())
      ensures Runs(name, args) && config.Some? ==>
        Handled(dev, config.value, ToolNamed(name).value, ArgsOf(args), old(dev.log), old(dev.State()), Untranslate(res))
    {
      var r := Call(dev, name, args);
      res := Translate(r);
      TranslateRoundTrip(r);
    }
  }
}
