/** The three write bodies the handlers send to /json/state, as
    JSON.stringify writes them, and a reader for exactly those shapes (the
    device side of the exchange). */
module JsonBody {
  import opened Wrappers
  import opened Decimal
  import opened HexColor

  /** {on: b} (mcp-wled/index.js:203, 207), {bri: n} (226) and
      {seg: [{col: [[r, g, b]]}]} (252). */
  datatype Payload = Power(on: bool) | Brightness(bri: int) | Colour(rgb: Rgb)

  const PowerOpen := "{\"on\":"
  const BriOpen := "{\"bri\":"
  const SegOpen := "{\"seg\":[{\"col\":[["
  const SegClose := "]]}]}"

  /** JSON.stringify of the payload; the body reads back as that payload. */
  function Serialize(p: Payload): (s: string)
    ensures ParseBody(s) == Some(p)
  {
    match p
    case Power(on) => PowerOpen + (if on then "true" else "false") + "}"
    case Brightness(b) => BrightnessRoundTrip(b); BriOpen + IntToString(b) + "}"
    case Colour(c) => ColourRoundTrip(c); SegOpen + TripleText(c) + SegClose
  }

  /** The inner array [r,g,b] as JSON.stringify writes it, without brackets. */
  function TripleText(c: Rgb): string {
    IntToString(c.red) + "," + IntToString(c.green) + "," + IntToString(c.blue)
  }

  /** Reads r,g,b off the front of s. */
  function ParseTriple(s: string): Option<(Rgb, string)> {
    match ParseInt(s)
    case None => None
    case Some((r, s1)) =>
      if |s1| == 0 || s1[0] != ',' then None
      else match ParseInt(s1[1..])
        case None => None
        case Some((g, s2)) =>
          if |s2| == 0 || s2[0] != ',' then None
          else match ParseInt(s2[1..])
            case None => None
            case Some((b, s3)) => Some((Rgb(r, g, b), s3))
  }

  /** Reads a write body of one of the three shapes; None for anything else. */
  function ParseBody(s: string): Option<Payload> {
    if s == PowerOpen + "true}" then Some(Power(true))
    else if s == PowerOpen + "false}" then Some(Power(false))
    else if BriOpen <= s then
      match ParseInt(s[|BriOpen|..])
      case Some((b, rest)) => if rest == "}" then Some(Brightness(b)) else None
      case None => None
    else if SegOpen <= s then
      match ParseTriple(s[|SegOpen|..])
      case Some((c, rest)) => if rest == SegClose then Some(Colour(c)) else None
      case None => None
    else None
  }

  lemma TripleRoundTrip(c: Rgb, rest: string)
    requires rest == [] || !IsDigit(rest[0])
    ensures ParseTriple(TripleText(c) + rest) == Some((c, rest))
  {
    var sb := IntToString(c.blue) + rest;
    var sg := IntToString(c.green) + ("," + sb);
    var sr := IntToString(c.red) + ("," + sg);
    assert TripleText(c) + rest == sr;
    IntRoundTrip(c.red, "," + sg);
    IntRoundTrip(c.green, "," + sb);
    IntRoundTrip(c.blue, rest);
    assert ("," + sg)[1..] == sg;
    assert ("," + sb)[1..] == sb;
  }

  lemma BrightnessRoundTrip(b: int)
    ensures ParseBody(BriOpen + IntToString(b) + "}") == Some(Brightness(b))
  {
    var s := BriOpen + IntToString(b) + "}";
    var t := IntToString(b) + "}";
    assert s == BriOpen + t;
    assert s[2] == 'b' && s[..|BriOpen|] == BriOpen && s[|BriOpen|..] == t;
    assert s != PowerOpen + "true}" && s != PowerOpen + "false}" by {
      assert (PowerOpen + "true}")[2] == 'o' && (PowerOpen + "false}")[2] == 'o';
    }
    IntRoundTrip(b, "}");
  }

  lemma ColourRoundTrip(c: Rgb)
    ensures ParseBody(SegOpen + TripleText(c) + SegClose) == Some(Colour(c))
  {
    var s := SegOpen + TripleText(c) + SegClose;
    var t := TripleText(c) + SegClose;
    assert s == SegOpen + t;
    assert s[2] == 's' && s[..|SegOpen|] == SegOpen && s[|SegOpen|..] == t;
    assert s != PowerOpen + "true}" && s != PowerOpen + "false}" by {
      assert (PowerOpen + "true}")[2] == 'o' && (PowerOpen + "false}")[2] == 'o';
    }
    assert !(BriOpen <= s) by {
      assert BriOpen[2] == 'b';
    }
    TripleRoundTrip(c, SegClose);
  }

  /** Two payloads have the same body exactly when they are equal. */
  lemma SerializeInjective(p: Payload, q: Payload)
    ensures Serialize(p) == Serialize(q) <==> p == q
  {
    assert ParseBody(Serialize(p)) == Some(p) && ParseBody(Serialize(q)) == Some(q);
  }

  /** The documented colour body for pure red. */
  lemma RedBody()
    ensures Serialize(Colour(Rgb(255, 0, 0))) == "{\"seg\":[{\"col\":[[255,0,0]]}]}"
  {
    ColourBody(Rgb(255, 0, 0));
    RedTriple();
    RedText();
  }

  lemma RedText()
    ensures SegOpen + "255,0,0" + SegClose == "{\"seg\":[{\"col\":[[255,0,0]]}]}"
  {
  }

  lemma ColourBody(c: Rgb)
    ensures Serialize(Colour(c)) == SegOpen + TripleText(c) + SegClose
  {
  }

  lemma RedTriple()
    ensures TripleText(Rgb(255, 0, 0)) == "255,0,0"
  {
    assert IntToString(255) == "255";
    assert IntToString(0) == "0";
  }
}
