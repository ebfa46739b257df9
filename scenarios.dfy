/** Whole calls against a fresh server and a fresh device: what a client of
    the MCP server observes over a sequence of tool calls. */
module Scenarios {
  import opened Wrappers
  import opened Decimal
  import opened HexColor
  import JsonBody
  import opened WledApi
  import opened Rendering
  import opened Tools
  import opened Devices
  import opened Server

  /** Of two toggles without a state, the first answer names the inverse of
      the starting power and the second the starting power; the device ends
      as it began. */
  method ToggleTwice(c: Config, s0: DeviceState, info: Info)
    returns (first: ToolResult, second: ToolResult, after: DeviceState)
    requires WellFormedConfig(c)
    ensures first == ToolResult(PowerText(!s0.on), false)
    ensures second == ToolResult(PowerText(s0.on), false)
    ensures after == s0
  {
    var dev := new Device(s0, info, map[]);
    var srv := new WledServer(Some(c));
    ToolNamedExactly(ToolName(TogglePower), TogglePower);
    first := srv.Dispatch(dev, ToolName(TogglePower), Some(NoArgs));
    ToolNamedExactly(ToolName(TogglePower), TogglePower);
    second := srv.Dispatch(dev, ToolName(TogglePower), Some(NoArgs));
    after := dev.State();
  }

  /** A refused connection is reported as the unreachable device, with the
      configured address, and the state stays as it was. */
  method UnreachableBrightness(c: Config, s0: DeviceState, info: Info, b: int)
    returns (res: ToolResult, sent: seq<HttpRequest>, after: DeviceState)
    requires WellFormedConfig(c)
    ensures res == ToolResult(ErrorPrefix + UnreachableMessage(c), true)
    ensures sent == [Prepared(c, "/json/state", Some(JsonBody.Brightness(b)))]
    ensures after == s0
  {
    var dev := new Device(s0, info, map[0 := Failure(ConnRefused, false)]);
    var srv := new WledServer(Some(c));
    ToolNamedExactly(ToolName(SetBrightness), SetBrightness);
    res := srv.Dispatch(dev, ToolName(SetBrightness), Some(NoArgs.(brightness := Some(b))));
    UntranslateRoundTrip(res);
    sent, after := dev.log, dev.State();
  }

  /** A brightness write that reaches the device and then times out is
      reported as the timeout, yet the device has taken the brightness. */
  method DeliveredTimeout(c: Config, s0: DeviceState, info: Info, b: int)
    returns (res: ToolResult, after: DeviceState)
    requires WellFormedConfig(c)
    ensures res == ToolResult(ErrorPrefix + TimeoutMessage(c), true)
    ensures after == s0.(bri := b)
  {
    var dev := new Device(s0, info, map[0 := Failure(RequestTimeout, true)]);
    var srv := new WledServer(Some(c));
    ToolNamedExactly(ToolName(SetBrightness), SetBrightness);
    res := srv.Dispatch(dev, ToolName(SetBrightness), Some(NoArgs.(brightness := Some(b))));
    UntranslateRoundTrip(res);
    after := dev.State();
  }

  /** A configuration file that could not be loaded is read again on the
      next call: once it loads, the call succeeds and stays loaded. */
  method ConfigFixedLater(c: Config, s0: DeviceState, info: Info, b: int)
    returns (first: ToolResult, second: ToolResult, loaded: Option<Config>)
    requires WellFormedConfig(c)
    ensures first == ToolResult(ErrorPrefix + ConfigLoadMessage, true)
    ensures second == ToolResult(BrightnessText(b), false)
    ensures loaded == Some(c)
  {
    var dev := new Device(s0, info, map[]);
    var srv := new WledServer(None);
    ToolNamedExactly(ToolName(SetBrightness), SetBrightness);
    first := srv.Dispatch(dev, ToolName(SetBrightness), Some(NoArgs.(brightness := Some(b))));
    srv.source := Some(c);
    second := srv.Dispatch(dev, ToolName(SetBrightness), Some(NoArgs.(brightness := Some(b))));
    loaded := srv.config;
  }

  /** A status request that times out names the configured timeout. */
  method StatusTimeout(c: Config, s0: DeviceState, info: Info)
    returns (res: ToolResult, sent: seq<HttpRequest>)
    requires WellFormedConfig(c)
    ensures res == ToolResult(ErrorPrefix + TimeoutMessage(c), true)
    ensures sent == [Prepared(c, "/json", None)]
  {
    var dev := new Device(s0, info, map[0 := Failure(RequestTimeout, false)]);
    var srv := new WledServer(Some(c));
    ToolNamedExactly(ToolName(GetStatus), GetStatus);
    res := srv.Dispatch(dev, ToolName(GetStatus), None);
    sent := dev.log;
  }

  /** Without a loadable config.json every tool call that reaches a handler
      fails with the load error and nothing is sent to the device. */
  method MissingConfig(s0: DeviceState, info: Info, name: string, args: Option<Args>)
    returns (res: ToolResult, sent: seq<HttpRequest>, after: DeviceState)
    requires Runs(name, args)
    requires args.Some? ==> ArgsFit(ToolNamed(name).value, args.value)
    ensures res == ToolResult(ErrorPrefix + ConfigLoadMessage, true)
    ensures sent == [] && after == s0
  {
    var dev := new Device(s0, info, map[]);
    var srv := new WledServer(None);
    res := srv.Dispatch(dev, name, args);
    sent, after := dev.log, dev.State();
  }

  /** A name that is not one of the four tools is answered with an error
      naming it, before any configuration is loaded or request sent. */
  method UnknownTool(c: Config, s0: DeviceState, info: Info, name: string, args: Option<Args>)
    returns (res: ToolResult, sent: seq<HttpRequest>, loaded: Option<Config>)
    requires WellFormedConfig(c)
    requires ToolNamed(name).None?
    ensures res == ToolResult("Fehler: Unbekanntes Tool: " + name, true)
    ensures sent == [] && loaded == None
  {
    var dev := new Device(s0, info, map[]);
    var srv := new WledServer(Some(c));
    res := srv.Dispatch(dev, name, args);
    UnknownToolText(name);
    sent, loaded := dev.log, srv.config;
  }

  /** After setting the colour by channels, the status summary's colour line
      shows the same RGB text the set-colour answer echoed. */
  method ColourThenStatus(c: Config, s0: DeviceState, info: Info, rgb: Rgb)
    returns (written: ToolResult, status: ToolResult, after: DeviceState)
    requires WellFormedConfig(c)
    ensures written == ToolResult(ColourSetText(RgbText(rgb)), false)
    ensures |after.seg| > 0 && |after.seg[0].col| > 0
    ensures status == ToolResult(JoinWith("\n", StatusLines(after, info)), false)
    ensures StatusLines(after, info)[3] == "- Farbe: " + RgbText(rgb)
  {
    var dev := new Device(s0, info, map[]);
    var srv := new WledServer(Some(c));
    written := ChannelsCall(srv, dev, rgb);
    after := dev.State();
    ColourLine(after, info, rgb);
    ToolNamedExactly(ToolName(GetStatus), GetStatus);
    status := srv.Dispatch(dev, ToolName(GetStatus), None);
  }

  /** A set-colour call by channels on a device that accepts every request. */
  method ChannelsCall(srv: WledServer, dev: Device, rgb: Rgb) returns (written: ToolResult)
    requires srv.Valid() && srv.Pending().Some? && dev.Valid() && dev.script == map[]
    modifies srv, dev
    ensures srv.Valid() && srv.config == old(srv.Pending()) && srv.source == old(srv.source)
    ensures written == ToolResult(ColourSetText(RgbText(rgb)), false)
    ensures dev.State() == Apply(old(dev.State()), JsonBody.Colour(rgb))
  {
    var args := ChannelArgs(rgb);
    ChannelArgsResolve(rgb);
    ToolNamedExactly(ToolName(SetColor), SetColor);
    written := srv.Dispatch(dev, ToolName(SetColor), Some(args));
  }

  /** After setting the brightness, the status summary reports it with the
      percentage the set-brightness answer gave. */
  method BrightnessThenStatus(c: Config, s0: DeviceState, info: Info, b: int)
    returns (written: ToolResult, status: ToolResult, after: DeviceState)
    requires WellFormedConfig(c)
    requires |s0.seg| > 0 && |s0.seg[0].col| > 0
    ensures written == ToolResult(BrightnessText(b), false)
    ensures after == s0.(bri := b)
    ensures status == ToolResult(JoinWith("\n", StatusLines(after, info)), false)
    ensures StatusLines(after, info)[2] == "- Helligkeit: " + IntToString(b) + " (" + IntToString(Percent(b)) + "%)"
  {
    var dev := new Device(s0, info, map[]);
    var srv := new WledServer(Some(c));
    written := BrightnessCall(srv, dev, b);
    after := dev.State();
    ToolNamedExactly(ToolName(GetStatus), GetStatus);
    status := srv.Dispatch(dev, ToolName(GetStatus), None);
    BrightnessLine(after, info);
  }

  /** A set-brightness call on a device that accepts every request. */
  method BrightnessCall(srv: WledServer, dev: Device, b: int) returns (written: ToolResult)
    requires srv.Valid() && srv.Pending().Some? && dev.Valid() && dev.script == map[]
    modifies srv, dev
    ensures srv.Valid() && srv.config == old(srv.Pending()) && srv.source == old(srv.source)
    ensures written == ToolResult(BrightnessText(b), false)
    ensures dev.State() == old(dev.State()).(bri := b)
  {
    ToolNamedExactly(ToolName(SetBrightness), SetBrightness);
    written := srv.Dispatch(dev, ToolName(SetBrightness), Some(NoArgs.(brightness := Some(b))));
  }

  /** The status colour line of a state whose primary colour is rgb. */
  lemma ColourLine(st: DeviceState, info: Info, rgb: Rgb)
    requires |st.seg| > 0 && |st.seg[0].col| > 0 && st.seg[0].col[0] == [rgb.red, rgb.green, rgb.blue]
    ensures StatusLines(st, info)[3] == "- Farbe: " + RgbText(rgb)
  {
    assert RgbText(rgb) == ColourText(st.seg[0].col[0]);
  }

  lemma UnknownToolText(name: string)
    ensures Translate(Err(UnknownToolMessage(name))) == ToolResult("Fehler: Unbekanntes Tool: " + name, true)
  {
    assert ErrorPrefix + "Unbekanntes Tool: " == "Fehler: Unbekanntes Tool: ";
    assert ErrorPrefix + ("Unbekanntes Tool: " + name) == (ErrorPrefix + "Unbekanntes Tool: ") + name;
  }

  /** The status brightness line of a state. */
  lemma BrightnessLine(st: DeviceState, info: Info)
    requires |st.seg| > 0 && |st.seg[0].col| > 0
    ensures StatusLines(st, info)[2] == "- Helligkeit: " + IntToString(st.bri) + " (" + IntToString(Percent(st.bri)) + "%)"
  {
  }
}
