/**
 * Uri.EscapeDataString: percent-encoding of a data string as in section 2.1 and 2.3 of
 * RFC 3986. Unreserved characters (ALPHA / DIGIT / "-" / "." / "_" / "~") are kept; every
 * other character is encoded as the UTF-8 bytes of its scalar value, each written "%XX" with
 * upper-case hexadecimal digits.
 */
module UriEscape {
  import opened Wrappers

  type Byte = b: int | 0 <= b < 256

  /** The unreserved characters of section 2.3 of RFC 3986. */
  predicate IsUnreserved(c: char)
  {
    ('A' <= c <= 'Z') || ('a' <= c <= 'z') || ('0' <= c <= '9') || c == '-' || c == '.' || c == '_' || c == '~'
  }

  predicate AllUnreserved(s: string)
  {
    forall i | 0 <= i < |s| :: IsUnreserved(s[i])
  }

  // ---------------------------------------------------------------- UTF-8

  /** The UTF-8 encoding of one Unicode scalar value (section 3 of RFC 3629). */
  function Utf8(c: char): (u: seq<Byte>)
    ensures 1 <= |u| <= 4
    ensures |u| == LengthFromLead(u[0])
  {
    var cp := c as int;
    if cp < 0x80 then
      [cp]
    else if cp < 0x800 then
      [0xC0 + cp / 64, 0x80 + cp % 64]
    else if cp < 0x1_0000 then
      [0xE0 + cp / 4096, 0x80 + (cp / 64) % 64, 0x80 + cp % 64]
    else
      assert cp < 0x11_0000;
      [0xF0 + cp / 262144, 0x80 + (cp / 4096) % 64, 0x80 + (cp / 64) % 64, 0x80 + cp % 64]
  }

  /** The length of a UTF-8 sequence, read from its first byte. */
  function LengthFromLead(b: Byte): nat
  {
    if b < 0x80 then 1 else if b < 0xE0 then 2 else if b < 0xF0 then 3 else 4
  }

  /** The scalar value a UTF-8 sequence of one to four bytes stands for. */
  function Utf8Value(u: seq<int>): int
  {
    if |u| == 1 then u[0]
    else if |u| == 2 then (u[0] - 0xC0) * 64 + (u[1] - 0x80)
    else if |u| == 3 then ((u[0] - 0xE0) * 64 + (u[1] - 0x80)) * 64 + (u[2] - 0x80)
    else if |u| == 4 then (((u[0] - 0xF0) * 64 + (u[1] - 0x80)) * 64 + (u[2] - 0x80)) * 64 + (u[3] - 0x80)
    else -1
  }

  lemma Utf8Decodes(c: char)
    ensures Utf8Value(Utf8(c)) == c as int
  {
    var cp := c as int;
    assert cp == (cp / 64) * 64 + cp % 64;
    assert cp / 64 == (cp / 4096) * 64 + (cp / 64) % 64;
    assert cp / 4096 == (cp / 262144) * 64 + (cp / 4096) % 64;
  }

  // ---------------------------------------------------------------- hexadecimal

  function HexDigit(d: int): char
    requires 0 <= d < 16
  {
    if d < 10 then ('0' as int + d) as char else ('A' as int + d - 10) as char
  }

  function HexValue(c: char): int
  {
    if '0' <= c <= '9' then c as int - '0' as int
    else if 'A' <= c <= 'F' then c as int - 'A' as int + 10
    else 0
  }

  lemma HexRoundTrip(d: int)
    requires 0 <= d < 16
    ensures HexValue(HexDigit(d)) == d && IsUnreserved(HexDigit(d))
  {
  }

  /** "%XX" for every byte, in order. */
  function PercentEncode(u: seq<Byte>): (r: string)
    ensures |r| == 3 * |u|
    ensures forall i | 0 <= i < |r| :: r[i] == '%' || IsUnreserved(r[i])
    ensures u != [] ==> r[0] == '%' && r[1] == HexDigit(u[0] / 16) && r[2] == HexDigit(u[0] % 16)
  {
    if u == [] then []
    else
      HexRoundTrip(u[0] / 16);
      HexRoundTrip(u[0] % 16);
      ['%', HexDigit(u[0] / 16), HexDigit(u[0] % 16)] + PercentEncode(u[1..])
  }

  /** The bytes a run of "%XX" triples stands for. */
  function PercentDecode(s: string): seq<int>
  {
    if |s| < 3 then [] else [16 * HexValue(s[1]) + HexValue(s[2])] + PercentDecode(s[3..])
  }

  lemma {:induction false} PercentRoundTrip(u: seq<Byte>)
    ensures PercentDecode(PercentEncode(u)) == u
  {
    if u != [] {
      HexRoundTrip(u[0] / 16);
      HexRoundTrip(u[0] % 16);
      var r := PercentEncode(u);
      assert r[3..] == PercentEncode(u[1..]);
      PercentRoundTrip(u[1..]);
    }
  }

  // ---------------------------------------------------------------- EscapeDataString

  function EscapeChar(c: char): (r: string)
    ensures 1 <= |r|
    ensures r[0] == '%' <==> !IsUnreserved(c)
    ensures forall i | 0 <= i < |r| :: r[i] == '%' || IsUnreserved(r[i])
  {
    if IsUnreserved(c) then [c] else PercentEncode(Utf8(c))
  }

  /** Uri.EscapeDataString: every character escaped in turn, so the result is never shorter. */
  function EscapeDataString(s: string): (r: string)
    ensures |r| >= |s|
    ensures r == [] <==> s == []
  {
    if s == [] then [] else EscapeChar(s[0]) + EscapeDataString(s[1..])
  }

  /** The escaped form is made of unreserved characters and '%' only. */
  lemma {:induction false} EscapedCharset(s: string)
    ensures forall i | 0 <= i < |EscapeDataString(s)| :: EscapeDataString(s)[i] == '%' || IsUnreserved(EscapeDataString(s)[i])
  {
    if s != [] {
      EscapedCharset(s[1..]);
      var head, rest := EscapeChar(s[0]), EscapeDataString(s[1..]);
      assert forall i | |head| <= i < |head + rest| :: (head + rest)[i] == rest[i - |head|];
    }
  }

  /** The escaped form never contains the separators a cache key is built from. */
  lemma EscapedHasNoSeparators(s: string)
    ensures ';' !in EscapeDataString(s) && '&' !in EscapeDataString(s) && '=' !in EscapeDataString(s)
            && '?' !in EscapeDataString(s)
  {
    EscapedCharset(s);
  }

  /** A string of unreserved characters is its own escaped form. */
  lemma {:induction false} EscapeUnreservedIdentity(s: string)
    requires AllUnreserved(s)
    ensures EscapeDataString(s) == s
  {
    if s != [] {
      EscapeUnreservedIdentity(s[1..]);
      assert s == [s[0]] + s[1..];
    }
  }

  // ---------------------------------------------------------------- the inverse

  predicate IsScalarValue(v: int)
  {
    (0 <= v < 0xD800) || (0xE000 <= v < 0x11_0000)
  }

  /**
   * Uri.UnescapeDataString on the strings EscapeDataString produces: a "%XX" run is read as
   * one UTF-8 sequence whose length its first byte gives; None where the input is not such a form.
   */
  function UnescapeDataString(s: string): (r: Option<string>)
    decreases |s|
  {
    if s == [] then Some([])
    else if s[0] != '%' then
      match UnescapeDataString(s[1..])
      case None => None
      case Some(t) => Some([s[0]] + t)
    else if |s| < 3 then None
    else
      var lead := 16 * HexValue(s[1]) + HexValue(s[2]);
      if !(0 <= lead < 256) then None
      else
        var n := 3 * LengthFromLead(lead);
        if |s| < n then None
        else
          var v := Utf8Value(PercentDecode(s[..n]));
          if !IsScalarValue(v) then None
          else
            match UnescapeDataString(s[n..])
            case None => None
            case Some(t) => Some([v as char] + t)
  }

  lemma UnescapeEscapeChar(c: char, rest: string)
    ensures UnescapeDataString(EscapeChar(c) + rest)
         == match UnescapeDataString(rest) case None => None case Some(t) => Some([c] + t)
  {
    var s := EscapeChar(c) + rest;
    if IsUnreserved(c) {
      assert s[1..] == rest;
    } else {
      var u := Utf8(c);
      var e := PercentEncode(u);
      HexRoundTrip(u[0] / 16);
      HexRoundTrip(u[0] % 16);
      assert s[1] == e[1] && s[2] == e[2];
      assert 16 * HexValue(s[1]) + HexValue(s[2]) == u[0];
      assert s[..|e|] == e && s[|e|..] == rest;
      PercentRoundTrip(u);
      Utf8Decodes(c);
    }
  }

  /** Unescaping undoes escaping. */
  lemma {:induction false} EscapeRoundTrip(s: string)
    ensures UnescapeDataString(EscapeDataString(s)) == Some(s)
  {
    if s != [] {
      EscapeRoundTrip(s[1..]);
      UnescapeEscapeChar(s[0], EscapeDataString(s[1..]));
      assert s == [s[0]] + s[1..];
    }
  }

  /** Distinct strings escape differently. */
  lemma EscapeInjective(a: string, b: string)
    requires EscapeDataString(a) == EscapeDataString(b)
    ensures a == b
  {
    EscapeRoundTrip(a);
    EscapeRoundTrip(b);
  }
}
