/** Colours as the set-colour tool receives them: either three channel
    integers or a hex code such as "#FF0000", decoded by deleting the first
    '#' and reading three two-digit base-16 pairs in the order red, green,
    blue (mcp-wled/index.js:241-247). */
module HexColor {

  datatype Rgb = Rgb(red: int, green: int, blue: int)

  /** Every channel fits the 0..255 range the tool schema declares. */
  predicate InRange(c: Rgb) {
    0 <= c.red < 256 && 0 <= c.green < 256 && 0 <= c.blue < 256
  }

  predicate IsHexDigit(c: char) {
    '0' <= c <= '9' || 'a' <= c <= 'f' || 'A' <= c <= 'F'
  }

  function HexValue(c: char): (v: nat)
    requires IsHexDigit(c)
    ensures v < 16
  {
    if c <= '9' then c as int - '0' as int
    else if c <= 'F' then c as int - 'A' as int + 10
    else c as int - 'a' as int + 10
  }

  /** parseInt(hi + lo, 16) for two hex digits. */
  function PairValue(hi: char, lo: char): (v: nat)
    requires IsHexDigit(hi) && IsHexDigit(lo)
    ensures v < 256
  {
    16 * HexValue(hi) + HexValue(lo)
  }

  /** s.replace(c, '') with a one-character string pattern: only the first
      occurrence of c is deleted. */
  function RemoveFirst(s: string, c: char): (r: string)
    ensures c !in s ==> r == s
    ensures |r| == if c in s then |s| - 1 else |s|
  {
    if s == [] then []
    else if s[0] == c then s[1..]
    else [s[0]] + RemoveFirst(s[1..], c)
  }

  /** Position of the first occurrence of c in s. */
  function FirstIndex(s: string, c: char): (i: nat)
    requires c in s
    ensures i < |s| && s[i] == c && c !in s[..i]
  {
    if s[0] == c then 0
    else
      assert c in s[1..] by {
        var j :| 0 <= j < |s| && s[j] == c;
        assert s[1..][j - 1] == c;
      }
      var i := 1 + FirstIndex(s[1..], c);
      assert s[..i] == [s[0]] + s[1..][..i - 1];
      i
  }

  /** RemoveFirst deletes exactly the first occurrence of c and keeps every
      other character in order. */
  lemma {:induction false} RemoveFirstDeletesFirst(s: string, c: char)
    requires c in s
    ensures RemoveFirst(s, c) == s[..FirstIndex(s, c)] + s[FirstIndex(s, c) + 1..]
  {
    if s[0] != c {
      var i := FirstIndex(s, c);
      assert c in s[1..] by {
        assert s[1..][i - 1] == c;
      }
      RemoveFirstDeletesFirst(s[1..], c);
      assert s[..i] == [s[0]] + s[1..][..i - 1];
      assert s[i + 1..] == s[1..][i..];
    }
  }

  /** What the handler can decode without parseInt producing NaN or reading a
      shorter pair: after the first '#' is deleted, six hex digits lead. */
  predicate HexInput(s: string) {
    var h := RemoveFirst(s, '#');
    |h| >= 6 && forall i :: 0 <= i < 6 ==> IsHexDigit(h[i])
  }

  /** The tool schema's pattern ^#[0-9A-Fa-f]{6}$. */
  predicate SchemaHex(s: string) {
    |s| == 7 && s[0] == '#' && forall i :: 1 <= i < 7 ==> IsHexDigit(s[i])
  }

  /** handleSetColor's hex branch: the three channels of a hex code. */
  function DecodeHex(s: string): (c: Rgb)
    requires HexInput(s)
    ensures InRange(c)
  {
    var h := RemoveFirst(s, '#');
    Rgb(PairValue(h[0], h[1]), PairValue(h[2], h[3]), PairValue(h[4], h[5]))
  }

  function UpperHexDigit(v: nat): (c: char)
    requires v < 16
    ensures IsHexDigit(c) && HexValue(c) == v
  {
    if v < 10 then (48 + v) as char else (55 + v) as char
  }

  function HexPair(v: nat): (s: string)
    requires v < 256
    ensures |s| == 2 && IsHexDigit(s[0]) && IsHexDigit(s[1]) && PairValue(s[0], s[1]) == v
  {
    [UpperHexDigit(v / 16), UpperHexDigit(v % 16)]
  }

  /** The canonical upper-case hex code of an in-range colour; the system
      itself never produces one. It is the decoder's inverse, so that codes
      can be read back. */
  function EncodeHex(c: Rgb): (s: string)
    requires InRange(c)
    ensures SchemaHex(s)
  {
    "#" + HexPair(c.red) + HexPair(c.green) + HexPair(c.blue)
  }

  /** Upper-case form of a hex digit. */
  function UpperDigit(c: char): char {
    if 'a' <= c <= 'f' then (c as int - 32) as char else c
  }

  function Upper(s: string): (r: string)
    ensures |r| == |s|
    ensures forall i :: 0 <= i < |s| ==> r[i] == UpperDigit(s[i])
  {
    seq(|s|, i requires 0 <= i < |s| => UpperDigit(s[i]))
  }

  lemma SchemaHexIsInput(s: string)
    requires SchemaHex(s)
    ensures RemoveFirst(s, '#') == s[1..]
    ensures HexInput(s)
  {
  }

  /** A schema-conforming code decodes channel by channel from its digit
      pairs, taken in order. */
  lemma DecodeSchemaHex(s: string)
    requires SchemaHex(s)
    ensures HexInput(s)
    ensures DecodeHex(s) == Rgb(PairValue(s[1], s[2]), PairValue(s[3], s[4]), PairValue(s[5], s[6]))
  {
    SchemaHexIsInput(s);
  }

  /** Decoding the hex code of a colour gives back that colour. */
  lemma DecodeEncode(c: Rgb)
    requires InRange(c)
    ensures HexInput(EncodeHex(c))
    ensures DecodeHex(EncodeHex(c)) == c
  {
    var s := EncodeHex(c);
    DecodeSchemaHex(s);
    assert s[1..3] == HexPair(c.red);
    assert s[3..5] == HexPair(c.green);
    assert s[5..7] == HexPair(c.blue);
  }

  /** Re-encoding the value of a digit pair gives the pair in upper case. */
  lemma PairRoundTrip(hi: char, lo: char)
    requires IsHexDigit(hi) && IsHexDigit(lo)
    ensures HexPair(PairValue(hi, lo)) == [UpperDigit(hi), UpperDigit(lo)]
  {
    var v := PairValue(hi, lo);
    assert v / 16 == HexValue(hi) && v % 16 == HexValue(lo);
  }

  /** Decoding then re-encoding a schema-conforming code reproduces it up to
      the case of its letters. */
  lemma EncodeDecode(s: string)
    requires SchemaHex(s)
    ensures HexInput(s)
    ensures EncodeHex(DecodeHex(s)) == "#" + Upper(s[1..])
  {
    DecodeSchemaHex(s);
    PairRoundTrip(s[1], s[2]);
    PairRoundTrip(s[3], s[4]);
    PairRoundTrip(s[5], s[6]);
    var u := Upper(s[1..]);
    assert u == [u[0], u[1]] + [u[2], u[3]] + [u[4], u[5]];
  }

  /** The leading '#' is optional to the decoder: the code with and without
      it decodes alike. */
  lemma HashOptional(s: string)
    requires SchemaHex(s)
    ensures HexInput(s) && HexInput(s[1..])
    ensures DecodeHex(s[1..]) == DecodeHex(s)
  {
    SchemaHexIsInput(s);
    assert '#' !in s[1..] by {
      forall k | 0 <= k < |s[1..]| ensures s[1..][k] != '#' {
        assert IsHexDigit(s[k + 1]);
      }
    }
  }

  /** The documented example: "#FF0000" is pure red. */
  lemma DecodeRed()
    ensures HexInput("#FF0000")
    ensures DecodeHex("#FF0000") == Rgb(255, 0, 0)
  {
    DecodeSchemaHex("#FF0000");
  }
}
