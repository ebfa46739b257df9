/** The tool layer: the four tool names the dispatcher switches on, the
    argument bag, colour resolution for set-colour, and the translation of a
    handler's outcome into the result the caller sees
    (mcp-wled/index.js:164-195, 238-262). */
module Tools {
  import opened Wrappers
  import opened HexColor
  import opened JsonBody
  import opened Rendering

  /** A call's arguments with the types the tool schemas declare; a property
      the caller left out is None. */
  datatype Args = Args(
    state: Option<bool>,
    brightness: Option<int>,
    red: Option<int>, green: Option<int>, blue: Option<int>,
    hex: Option<string>)

  const NoArgs := Args(None, None, None, None, None, None)

  datatype Tool = TogglePower | SetBrightness | SetColor | GetStatus

  function ToolName(t: Tool): string {
    match t
    case TogglePower => "wled_toggle_power"
    case SetBrightness => "wled_set_brightness"
    case SetColor => "wled_set_color"
    case GetStatus => "wled_get_status"
  }

  /** The dispatcher's switch on the tool name (mcp-wled/index.js:168-182):
      a tool it selects has that name (ToolNamedExactly gives the converse). */
  function ToolNamed(name: string): (r: Option<Tool>)
    ensures r.Some? ==> ToolName(r.value) == name
  {
    if name == "wled_toggle_power" then Some(TogglePower)
    else if name == "wled_set_brightness" then Some(SetBrightness)
    else if name == "wled_set_color" then Some(SetColor)
    else if name == "wled_get_status" then Some(GetStatus)
    else None
  }

  /** The switch selects a tool exactly for that tool's own name. */
  lemma ToolNamedExactly(name: string, t: Tool)
    ensures ToolNamed(name) == Some(t) <==> name == ToolName(t)
  {
    assert "wled_toggle_power"[5] == 't' && "wled_set_brightness"[5] == 's';
    assert "wled_set_color"[5] == 's' && "wled_get_status"[5] == 'g';
    assert "wled_set_brightness"[9] == 'b' && "wled_set_color"[9] == 'c';
  }

  /** hex is used when it is a non-empty string (`if (args.hex)`). */
  predicate HexGiven(a: Args) {
    a.hex.Some? && a.hex.value != ""
  }

  /** What handleSetColor needs to compute a colour without NaN or undefined
      channels: a decodable hex code, or else all three channels. */
  predicate ColourArgsFit(a: Args) {
    if HexGiven(a) then HexInput(a.hex.value) else a.red.Some? && a.green.Some? && a.blue.Some?
  }

  /** The schema requirements a handler relies on; toggle and status need none. */
  predicate ArgsFit(t: Tool, a: Args) {
    match t
    case SetBrightness => a.brightness.Some?
    case SetColor => ColourArgsFit(a)
    case _ => true
  }

  /** handleSetColor's `color` (mcp-wled/index.js:239-250): a non-empty hex
      code gives an in-range colour, and for a code of the schema's form
      #RRGGBB it is the colour whose canonical code is that code in upper
      case; without one, the channels are taken as they are. */
  function ResolveColour(a: Args): (c: Rgb)
    requires ColourArgsFit(a)
    ensures HexGiven(a) ==> InRange(c)
    ensures HexGiven(a) && SchemaHex(a.hex.value) ==> EncodeHex(c) == "#" + Upper(a.hex.value[1..])
    ensures !HexGiven(a) ==> c == Rgb(a.red.value, a.green.value, a.blue.value)
  {
    if HexGiven(a) then
      var c := DecodeHex(a.hex.value);
      assert SchemaHex(a.hex.value) ==> EncodeHex(c) == "#" + Upper(a.hex.value[1..]) by {
        if SchemaHex(a.hex.value) {
          EncodeDecode(a.hex.value);
        }
      }
      c
    else Rgb(a.red.value, a.green.value, a.blue.value)
  }

  /** handleSetColor's `colorText` (mcp-wled/index.js:254): the caller's hex
      code verbatim, not normalised; otherwise the colour written, in the
      form the status summary shows it. */
  function ColourEcho(a: Args): (echo: string)
    requires ColourArgsFit(a)
    ensures |echo| > 0
    ensures HexGiven(a) ==> echo == a.hex.value
    ensures !HexGiven(a) ==>
      var c := ResolveColour(a);
      echo == ColourText([c.red, c.green, c.blue])
  {
    if HexGiven(a) then a.hex.value else RgbText(ResolveColour(a))
  }

  function HexArgs(hex: string): Args {
    NoArgs.(hex := Some(hex))
  }

  function ChannelArgs(c: Rgb): Args {
    NoArgs.(red := Some(c.red), green := Some(c.green), blue := Some(c.blue))
  }

  /** Channel arguments alone are used as they are and echoed as RGB(r, g, b). */
  lemma ChannelArgsResolve(c: Rgb)
    ensures ColourArgsFit(ChannelArgs(c)) && !HexGiven(ChannelArgs(c))
    ensures ResolveColour(ChannelArgs(c)) == c && ColourEcho(ChannelArgs(c)) == RgbText(c)
  {
  }

  /** A non-empty hex code wins over the channel arguments: changing the
      channels changes neither the colour written nor the echo. */
  lemma HexTakesPrecedence(a: Args, red: Option<int>, green: Option<int>, blue: Option<int>)
    requires ColourArgsFit(a) && HexGiven(a)
    ensures ColourArgsFit(a.(red := red, green := green, blue := blue))
    ensures ResolveColour(a.(red := red, green := green, blue := blue)) == ResolveColour(a)
    ensures ColourEcho(a.(red := red, green := green, blue := blue)) == a.hex.value
  {
  }

  /** A colour given as its hex code and the same colour given as channels
      produce the identical write body. */
  lemma HexAndChannelsAgree(c: Rgb)
    requires InRange(c)
    ensures ColourArgsFit(HexArgs(EncodeHex(c))) && ColourArgsFit(ChannelArgs(c))
    ensures Serialize(Colour(ResolveColour(HexArgs(EncodeHex(c)))))
            == Serialize(Colour(ResolveColour(ChannelArgs(c))))
  {
    DecodeEncode(c);
  }

  /** The documented case: hex "#FF0000" and red=255, green=0, blue=0 write
      the same body, and the echo repeats what the caller supplied. */
  lemma RedEitherWay()
    ensures ColourArgsFit(HexArgs("#FF0000")) && ColourArgsFit(ChannelArgs(Rgb(255, 0, 0)))
    ensures Serialize(Colour(ResolveColour(HexArgs("#FF0000")))) == "{\"seg\":[{\"col\":[[255,0,0]]}]}"
    ensures Serialize(Colour(ResolveColour(ChannelArgs(Rgb(255, 0, 0))))) == "{\"seg\":[{\"col\":[[255,0,0]]}]}"
    ensures ColourEcho(HexArgs("#FF0000")) == "#FF0000"
    ensures ColourEcho(ChannelArgs(Rgb(255, 0, 0))) == RgbText(Rgb(255, 0, 0))
  {
    DecodeRed();
    RedBody();
  }

  /** What the caller receives: the text, and isError, which the source
      leaves out of successful results (false here). */
  datatype ToolResult = ToolResult(text: string, isError: bool)

  const ErrorPrefix := "Fehler: "

  function UnknownToolMessage(name: string): string {
    "Unbekanntes Tool: " + name
  }

  /** The TypeError destructuring a missing argument bag throws. */
  function DestructureMessage(property: string): string {
    "Cannot destructure property '" + property + "' of 'args' as it is undefined."
  }

  /** The message a handler throws when the call carries no arguments
      object: destructuring fails for the first two, reading `args.hex` for
      set-colour (mcp-wled/index.js:199, 224, 241). Each is a TypeError text
      naming the property the handler reads first; the status handler reads
      no arguments, so it throws none. */
  function MissingArgsMessage(t: Tool): (m: string)
    requires t != GetStatus
    ensures "Cannot " <= m
    ensures t.TogglePower? || t.SetBrightness? <==> "Cannot destructure property '" <= m
  {
    match t
    case TogglePower => DestructureMessage("state")
    case SetBrightness => DestructureMessage("brightness")
    case SetColor =>
      assert UndefinedRead("hex")[7] == 'r';
      UndefinedRead("hex")
  }

  /** The three handlers fail with three different messages. */
  lemma MissingArgsDistinct(t: Tool, u: Tool)
    requires t != GetStatus && u != GetStatus
    ensures MissingArgsMessage(t) == MissingArgsMessage(u) <==> t == u
  {
  }

  /** The dispatcher's single catch: a handler's text passes through, any
      error becomes an error result whose text is "Fehler: " and the message
      (mcp-wled/index.js:184-193). */
  function Translate(r: Result<string, string>): (res: ToolResult)
    ensures res.isError <==> r.Err?
    ensures r.Ok? ==> res.text == r.value
    ensures r.Err? ==> ErrorPrefix <= res.text && res.text[|ErrorPrefix|..] == r.error
  {
    match r
    case Ok(text) => ToolResult(text, false)
    case Err(message) => ToolResult(ErrorPrefix + message, true)
  }

  /** The handler outcome a result reports: the text of a success, or the
      message after "Fehler: " of an error. */
  function Untranslate(res: ToolResult): Result<string, string> {
    if res.isError && ErrorPrefix <= res.text then Err(res.text[|ErrorPrefix|..]) else Ok(res.text)
  }

  /** No outcome is lost in translation: it can be read back from the result. */
  lemma TranslateRoundTrip(r: Result<string, string>)
    ensures Untranslate(Translate(r)) == r
  {
  }

  /** Every result with the error shape is the translation of some outcome. */
  lemma UntranslateRoundTrip(res: ToolResult)
    requires res.isError ==> ErrorPrefix <= res.text
    ensures Translate(Untranslate(res)) == res
  {
  }

  lemma TranslateInjective(r: Result<string, string>, q: Result<string, string>)
    ensures Translate(r) == Translate(q) <==> r == q
  {
    TranslateRoundTrip(r);
    TranslateRoundTrip(q);
  }
}
