/** The texts the handlers answer with: the brightness percentage, the
    power wording, the colour echo and the status summary
    (mcp-wled/index.js:212-217, 232, 254-259, 271-280). */
module Rendering {
  import opened Wrappers
  import opened Decimal
  import opened HexColor
  import opened WledApi

  /** Math.round((b / 255) * 100) in exact integers. Math.round(x) is
      floor(x + 1/2), and floor(20b/51 + 1/2) == floor((40b + 51)/102); the
      result is the integer nearest to the exact percentage. */
  function Percent(b: int): (p: int)
    ensures 102 * p - 51 <= 40 * b < 102 * p + 51
  {
    (40 * b + 51) / 102
  }

  /** The nearest integer is unique, so Percent is the only rounding of the
      exact percentage that rounds to nearest. */
  lemma PercentUnique(b: int, q: int)
    requires 102 * q - 51 <= 40 * b < 102 * q + 51
    ensures q == Percent(b)
  {
  }

  /** b/255*100 is never exactly half-way between two integers, so rounding
      ties up, down or to even all give Percent. */
  lemma PercentNoTie(b: int, k: int)
    ensures 40 * b != 102 * k + 51
  {
    var d := 20 * b - 51 * k;
    assert 40 * b - 102 * k == 2 * d;
  }

  lemma PercentBounds(b: int)
    requires 0 <= b <= 255
    ensures 0 <= Percent(b) <= 100
  {
  }

  lemma PercentMonotone(a: int, b: int)
    requires a <= b
    ensures Percent(a) <= Percent(b)
  {
  }

  /** Rounding cases at and between the ends of the range. */
  lemma PercentExamples()
    ensures Percent(0) == 0 && Percent(255) == 100 && Percent(128) == 50
    ensures Percent(127) == 50 && Percent(64) == 25
  {
  }

  const PowerPrefix := "WLED-Gerät wurde "

  /** `WLED-Gerät wurde ${newState}` (mcp-wled/index.js:212, 217): the text
      says "eingeschaltet" exactly when the power written is on, and
      "ausgeschaltet" exactly when it is off. */
  function PowerText(on: bool): (t: string)
    ensures PowerPrefix <= t
    ensures t[|PowerPrefix|..] == "eingeschaltet" <==> on
    ensures t[|PowerPrefix|..] == "ausgeschaltet" <==> !on
  {
    var word := if on then "eingeschaltet" else "ausgeschaltet";
    assert (PowerPrefix + word)[|PowerPrefix|..] == word;
    assert "ausgeschaltet"[0] != "eingeschaltet"[0];
    PowerPrefix + word
  }

  const BrightnessPrefix := "Helligkeit auf "

  /** `Helligkeit auf ${brightness} gesetzt (${percent}%)`
      (mcp-wled/index.js:232): the brightness reads back from the text, and
      after it come the rounded percentage and "%)". */
  function BrightnessText(b: int): (t: string)
    ensures ReadAfter(BrightnessPrefix, t) == Some((b, " gesetzt (" + IntToString(Percent(b)) + "%)"))
  {
    var rest := " gesetzt (" + IntToString(Percent(b)) + "%)";
    ReadAfterOf(BrightnessPrefix, b, rest);
    BrightnessPrefix + (IntToString(b) + rest)
  }

  /** Distinct brightnesses give distinct texts. */
  lemma BrightnessTextInjective(a: int, b: int)
    ensures BrightnessText(a) == BrightnessText(b) <==> a == b
  {
    assert ReadAfter(BrightnessPrefix, BrightnessText(a)).value.0 == a;
    assert ReadAfter(BrightnessPrefix, BrightnessText(b)).value.0 == b;
  }

  /** `RGB(${r}, ${g}, ${b})` (mcp-wled/index.js:254): the same text the
      status summary writes for a three-channel colour, `RGB(${col.join(', ')})`. */
  function RgbText(c: Rgb): (t: string)
    ensures t == ColourText([c.red, c.green, c.blue])
  {
    JoinChannels(c);
    "RGB(" + IntToString(c.red) + ", " + IntToString(c.green) + ", " + IntToString(c.blue) + ")"
  }

  /** Reads RGB(r, g, b) with integer channels; None for any other text. */
  function ReadRgb(s: string): Option<Rgb> {
    match ReadAfter("RGB(", s)
    case None => None
    case Some((r, s1)) =>
      match ReadAfter(", ", s1)
      case None => None
      case Some((g, s2)) =>
        match ReadAfter(", ", s2)
        case None => None
        case Some((b, s3)) => if s3 == ")" then Some(Rgb(r, g, b)) else None
  }

  /** The channels read back from the text, so distinct colours are echoed
      differently. */
  lemma RgbTextReadsBack(c: Rgb)
    ensures ReadRgb(RgbText(c)) == Some(c)
  {
    var sb := IntToString(c.blue) + ")";
    var sg := IntToString(c.green) + (", " + sb);
    var sr := IntToString(c.red) + (", " + sg);
    assert RgbText(c) == "RGB(" + sr;
    ReadAfterOf("RGB(", c.red, ", " + sg);
    ReadAfterOf(", ", c.green, ", " + sb);
    ReadAfterOf(", ", c.blue, ")");
  }

  /** `Farbe auf ${colorText} gesetzt` (mcp-wled/index.js:259). */
  function ColourSetText(echo: string): string {
    "Farbe auf " + echo + " gesetzt"
  }

  /** xs.join(sep) */
  function JoinWith(sep: string, xs: seq<string>): string {
    if |xs| == 0 then []
    else if |xs| == 1 then xs[0]
    else xs[0] + sep + JoinWith(sep, xs[1..])
  }

  /** A list of numbers joined with ", ", as Array.prototype.join renders them. */
  function JoinInts(xs: seq<int>): string {
    JoinWith(", ", seq(|xs|, i requires 0 <= i < |xs| => IntToString(xs[i])))
  }

  /** `RGB(${col.join(', ')})` of the status summary (mcp-wled/index.js:275). */
  function ColourText(col: seq<int>): string {
    "RGB(" + JoinInts(col) + ")"
  }

  lemma JoinChannels(c: Rgb)
    ensures JoinInts([c.red, c.green, c.blue])
            == IntToString(c.red) + ", " + IntToString(c.green) + ", " + IntToString(c.blue)
  {
    var r, g, b := IntToString(c.red), IntToString(c.green), IntToString(c.blue);
    var channels := [c.red, c.green, c.blue];
    assert seq(3, i requires 0 <= i < 3 => IntToString(channels[i])) == [r, g, b];
    JoinThree(", ", r, g, b);
  }

  lemma JoinThree(sep: string, a: string, b: string, c: string)
    ensures JoinWith(sep, [a, b, c]) == a + sep + b + sep + c
  {
    assert [a, b, c][1..] == [b, c];
    assert [b, c][1..] == [c];
    assert JoinWith(sep, [b, c]) == b + sep + c;
  }

  /** info.fxn || 'Unbekannt': a missing or empty effect name is replaced. */
  function EffectName(fxn: Option<string>): (name: string)
    ensures name == "Unbekannt" <==> fxn.None? || fxn.value == "" || fxn.value == "Unbekannt"
    ensures fxn.Some? && fxn.value != "" ==> name == fxn.value
  {
    if fxn.Some? && fxn.value != "" then fxn.value else "Unbekannt"
  }

  /** The eight lines of the status summary, in their fixed order. */
  function StatusLines(st: DeviceState, info: Info): (lines: seq<string>)
    requires |st.seg| > 0 && |st.seg[0].col| > 0
    ensures |lines| == 8
  {
    [ "WLED-Status:",
      "- Zustand: " + (if st.on then "Ein" else "Aus"),
      "- Helligkeit: " + IntToString(st.bri) + " (" + IntToString(Percent(st.bri)) + "%)",
      "- Farbe: " + ColourText(st.seg[0].col[0]),
      "- Effekt: " + EffectName(info.fxn),
      "- Version: " + info.ver,
      "- LED-Anzahl: " + IntToString(info.ledCount),
      "- Stromverbrauch: " + IntToString(info.pwr) + "mA" ]
  }

  /** What each line of the status summary reports, in order: the power as
      "Ein" exactly when on, the brightness read back with its percentage,
      the first colour of the first segment, the effect name or its
      placeholder, the firmware version, the LED count and the current in
      milliamps, each read back from its line. */
  lemma StatusLinesReport(st: DeviceState, info: Info)
    requires |st.seg| > 0 && |st.seg[0].col| > 0
    ensures var lines := StatusLines(st, info);
      && lines[0] == "WLED-Status:"
      && (lines[1] == "- Zustand: Ein" <==> st.on)
      && (lines[1] == "- Zustand: Aus" <==> !st.on)
      && ReadAfter("- Helligkeit: ", lines[2]) == Some((st.bri, " (" + IntToString(Percent(st.bri)) + "%)"))
      && lines[3] == "- Farbe: " + ColourText(st.seg[0].col[0])
      && lines[4] == "- Effekt: " + EffectName(info.fxn)
      && lines[5] == "- Version: " + info.ver
      && ReadAfter("- LED-Anzahl: ", lines[6]) == Some((info.ledCount, ""))
      && ReadAfter("- Stromverbrauch: ", lines[7]) == Some((info.pwr, "mA"))
  {
    StatusPowerLine(st.on, StatusLines(st, info)[1]);
    StatusTextLines(st, info);
    StatusBrightnessLine(st, info);
    StatusCountLines(st, info);
  }

  /** The header, colour, effect and version lines of the summary. */
  lemma StatusTextLines(st: DeviceState, info: Info)
    requires |st.seg| > 0 && |st.seg[0].col| > 0
    ensures var lines := StatusLines(st, info);
      && lines[0] == "WLED-Status:"
      && lines[3] == "- Farbe: " + ColourText(st.seg[0].col[0])
      && lines[4] == "- Effekt: " + EffectName(info.fxn)
      && lines[5] == "- Version: " + info.ver
  {
  }

  /** The brightness and its percentage read back from their line. */
  lemma StatusBrightnessLine(st: DeviceState, info: Info)
    requires |st.seg| > 0 && |st.seg[0].col| > 0
    ensures ReadAfter("- Helligkeit: ", StatusLines(st, info)[2])
            == Some((st.bri, " (" + IntToString(Percent(st.bri)) + "%)"))
  {
    StatusNumberLine("- Helligkeit: ", st.bri, " (" + IntToString(Percent(st.bri)) + "%)", StatusLines(st, info)[2]);
  }

  /** The LED count and the current read back from their lines. */
  lemma StatusCountLines(st: DeviceState, info: Info)
    requires |st.seg| > 0 && |st.seg[0].col| > 0
    ensures ReadAfter("- LED-Anzahl: ", StatusLines(st, info)[6]) == Some((info.ledCount, ""))
    ensures ReadAfter("- Stromverbrauch: ", StatusLines(st, info)[7]) == Some((info.pwr, "mA"))
  {
    StatusNumberLine("- LED-Anzahl: ", info.ledCount, "", StatusLines(st, info)[6]);
    StatusNumberLine("- Stromverbrauch: ", info.pwr, "mA", StatusLines(st, info)[7]);
  }

  /** The power line says "Ein" exactly when on and "Aus" exactly when off. */
  lemma StatusPowerLine(on: bool, line: string)
    requires line == "- Zustand: " + (if on then "Ein" else "Aus")
    ensures line == "- Zustand: Ein" <==> on
    ensures line == "- Zustand: Aus" <==> !on
  {
    assert ("- Zustand: " + "Aus")[11] == 'A' && ("- Zustand: " + "Ein")[11] == 'E';
  }

  /** A status line made of a label, a number and a unit reads back. */
  lemma StatusNumberLine(caption: string, i: int, unit: string, line: string)
    requires unit == [] || !IsDigit(unit[0])
    requires line == caption + IntToString(i) + unit
    ensures ReadAfter(caption, line) == Some((i, unit))
  {
    assert line == caption + (IntToString(i) + unit);
    ReadAfterOf(caption, i, unit);
  }

  /** The template literal before .trim() (mcp-wled/index.js:271-280): it
      opens with a line break and closes with a line break and the source's
      indentation, and trimmed it is the eight lines joined by line breaks. */
  function StatusTemplate(st: DeviceState, info: Info): (t: string)
    requires |st.seg| > 0 && |st.seg[0].col| > 0
    ensures |t| > 0 && IsJsSpace(t[0]) && IsJsSpace(t[|t| - 1])
    ensures Trim(t) == JoinWith("\n", StatusLines(st, info))
  {
    StatusTextIsLines(st, info);
    "\n" + JoinWith("\n", StatusLines(st, info)) + "\n    "
  }

  /** ECMAScript white space and line terminators, as String.prototype.trim
      removes them. */
  predicate IsJsSpace(c: char) {
    c == ' ' || c == '\t' || c == '\n' || c == '\r' || c == '\U{000B}' || c == '\U{000C}'
    || c == '\U{00A0}' || c == '\U{1680}' || ('\U{2000}' <= c <= '\U{200A}')
    || c == '\U{2028}' || c == '\U{2029}' || c == '\U{202F}' || c == '\U{205F}'
    || c == '\U{3000}' || c == '\U{FEFF}'
  }

  /** Drops the leading white space: r is the suffix of s from its first
      character that is not white space. */
  function TrimStart(s: string): (r: string)
    ensures |r| <= |s| && r == s[|s| - |r|..] && AllSpace(s[..|s| - |r|])
    ensures |r| > 0 ==> !IsJsSpace(r[0])
  {
    if s != [] && IsJsSpace(s[0]) then TrimStart(s[1..]) else s
  }

  /** Drops the trailing white space: r is the prefix of s up to its last
      character that is not white space. */
  function TrimEnd(s: string): (r: string)
    ensures |r| <= |s| && r == s[..|r|] && AllSpace(s[|r|..])
    ensures |r| > 0 ==> !IsJsSpace(r[|r| - 1])
  {
    if s != [] && IsJsSpace(s[|s| - 1]) then TrimEnd(s[..|s| - 1]) else s
  }

  /** String.prototype.trim (mcp-wled/index.js:280): the result neither
      starts nor ends with white space, and it is empty exactly when s is
      all white space. */
  function Trim(s: string): (r: string)
    ensures |r| <= |s|
    ensures |r| > 0 ==> !IsJsSpace(r[0]) && !IsJsSpace(r[|r| - 1])
    ensures r == [] <==> AllSpace(s)
  {
    var t := TrimStart(s);
    assert s == s[..|s| - |t|] + t;
    TrimEnd(t)
  }

  predicate AllSpace(s: string) {
    forall i :: 0 <= i < |s| ==> IsJsSpace(s[i])
  }

  lemma {:induction false} TrimStartPadding(lead: string, x: string)
    requires AllSpace(lead)
    requires |x| > 0 && !IsJsSpace(x[0])
    ensures TrimStart(lead + x) == x
  {
    if lead == [] {
      assert lead + x == x;
    } else {
      assert (lead + x)[1..] == lead[1..] + x;
      TrimStartPadding(lead[1..], x);
    }
  }

  lemma {:induction false} TrimEndPadding(x: string, trail: string)
    requires AllSpace(trail)
    requires |x| > 0 && !IsJsSpace(x[|x| - 1])
    ensures TrimEnd(x + trail) == x
  {
    if trail == [] {
      assert x + trail == x;
    } else {
      var t := trail[..|trail| - 1];
      assert (x + trail)[..|x + trail| - 1] == x + t;
      TrimEndPadding(x, t);
    }
  }

  /** Trim removes exactly the padding around text that neither starts nor
      ends with white space. */
  lemma TrimPadded(lead: string, x: string, trail: string)
    requires AllSpace(lead) && AllSpace(trail)
    requires |x| > 0 && !IsJsSpace(x[0]) && !IsJsSpace(x[|x| - 1])
    ensures Trim(lead + x + trail) == x
  {
    assert lead + x + trail == lead + (x + trail);
    TrimStartPadding(lead, x + trail);
    TrimEndPadding(x, trail);
  }

  lemma {:induction false} JoinEnds(sep: string, xs: seq<string>)
    requires |xs| > 0 && |xs[0]| > 0 && |xs[|xs| - 1]| > 0
    ensures |JoinWith(sep, xs)| > 0
    ensures JoinWith(sep, xs)[0] == xs[0][0]
    ensures JoinWith(sep, xs)[|JoinWith(sep, xs)| - 1] == xs[|xs| - 1][|xs[|xs| - 1]| - 1]
  {
    if |xs| > 1 {
      JoinLast(sep, xs[1..]);
    }
  }

  lemma {:induction false} JoinLast(sep: string, xs: seq<string>)
    requires |xs| > 0 && |xs[|xs| - 1]| > 0
    ensures |JoinWith(sep, xs)| > 0
    ensures JoinWith(sep, xs)[|JoinWith(sep, xs)| - 1] == xs[|xs| - 1][|xs[|xs| - 1]| - 1]
  {
    if |xs| > 1 {
      JoinLast(sep, xs[1..]);
    }
  }

  /** The summary starts with 'W' and ends with the 'A' of "mA". */
  lemma StatusEdges(st: DeviceState, info: Info)
    requires |st.seg| > 0 && |st.seg[0].col| > 0
    ensures var lines := StatusLines(st, info);
      |lines[0]| > 0 && lines[0][0] == 'W' && |lines[7]| > 0 && lines[7][|lines[7]| - 1] == 'A'
  {
    var last := "- Stromverbrauch: " + IntToString(info.pwr) + "mA";
    assert StatusLines(st, info)[7] == last;
    assert last[|last| - 1] == 'A';
  }

  /** The eight status lines joined by line breaks, padded as the template
      pads them, trim back to themselves. */
  lemma StatusTextIsLines(st: DeviceState, info: Info)
    requires |st.seg| > 0 && |st.seg[0].col| > 0
    ensures var body := JoinWith("\n", StatusLines(st, info));
      Trim("\n" + body + "\n    ") == body
  {
    var lines := StatusLines(st, info);
    var body := JoinWith("\n", lines);
    StatusEdges(st, info);
    JoinEnds("\n", lines);
    assert body[0] == 'W' && body[|body| - 1] == 'A';
    assert AllSpace("\n") && AllSpace("\n    ");
    TrimPadded("\n", body, "\n    ");
  }

  /** A TypeError's message for reading property `name` of undefined. */
  function UndefinedRead(name: string): string {
    "Cannot read properties of undefined (reading '" + name + "')"
  }

  /** handleGetStatus after its request: the summary for a {state, info}
      reply; a reply without `state`, an empty segment list or an empty colour
      list makes the template throw the TypeError it names. */
  function RenderStatus(reply: Reply): (r: Result<string, string>)
    ensures r.Ok? <==> reply.FullReply? && |reply.state.seg| > 0 && |reply.state.seg[0].col| > 0
    ensures r.Ok? ==> r.value == JoinWith("\n", StatusLines(reply.state, reply.info))
    ensures !reply.FullReply? ==> r == Err(UndefinedRead("on"))
    ensures reply.FullReply? && |reply.state.seg| == 0 ==> r == Err(UndefinedRead("col"))
    ensures reply.FullReply? && |reply.state.seg| > 0 && |reply.state.seg[0].col| == 0 ==>
      r == Err(UndefinedRead("join"))
  {
    match reply
    case FullReply(st, info) =>
      if |st.seg| == 0 then Err(UndefinedRead("col"))
      else if |st.seg[0].col| == 0 then Err(UndefinedRead("join"))
      else Ok(Trim(StatusTemplate(st, info)))
    case _ => Err(UndefinedRead("on"))
  }
}
