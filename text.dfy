/**
 * The .NET string primitives the core relies on: white-space tests, Trim, Split on one
 * character, ordinal ignore-case comparison (ASCII case folding) and Int32.ToString.
 */
module Text {
  import opened Wrappers

  /** char.IsWhiteSpace: the characters with the Unicode White_Space property. */
  predicate IsWhiteSpace(c: char)
  {
    || ('\t' <= c <= '\r')
    || c == ' '
    || c == '\U{0085}'
    || c == '\U{00A0}'
    || c == '\U{1680}'
    || ('\U{2000}' <= c <= '\U{200A}')
    || c == '\U{2028}'
    || c == '\U{2029}'
    || c == '\U{202F}'
    || c == '\U{205F}'
    || c == '\U{3000}'
  }

  predicate AllWhiteSpace(s: string)
  {
    forall i | 0 <= i < |s| :: IsWhiteSpace(s[i])
  }

  /** string.IsNullOrWhiteSpace: null, empty, or white space only. */
  predicate IsNullOrWhiteSpace(s: Option<string>)
  {
    s.None? || AllWhiteSpace(s.value)
  }

  /** The value a blank string stands for: blank strings and null are the same "not given". */
  function Normalize(s: Option<string>): (r: Option<string>)
    ensures r.None? <==> IsNullOrWhiteSpace(s)
    ensures r.Some? ==> r == s
  {
    if IsNullOrWhiteSpace(s) then None else s
  }

  // ---------------------------------------------------------------- Trim

  function TrimStart(s: string): (r: string)
    ensures |r| <= |s| && r == s[|s| - |r|..]
    ensures AllWhiteSpace(s[..|s| - |r|])
    ensures r == [] || !IsWhiteSpace(r[0])
  {
    if s != [] && IsWhiteSpace(s[0]) then
      var r := TrimStart(s[1..]);
      assert s[..|s| - |r|] == [s[0]] + s[1..][..|s[1..]| - |r|];
      r
    else
      s
  }

  function TrimEnd(s: string): (r: string)
    ensures |r| <= |s| && r == s[..|r|]
    ensures AllWhiteSpace(s[|r|..])
    ensures r == [] || !IsWhiteSpace(r[|r| - 1])
  {
    if s != [] && IsWhiteSpace(s[|s| - 1]) then
      var r := TrimEnd(s[..|s| - 1]);
      assert s[|r|..] == s[..|s| - 1][|r|..] + [s[|s| - 1]];
      r
    else
      s
  }

  /**
   * string.Trim(): the infix of `s` left after removing every leading and every trailing
   * white-space character.
   */
  function Trim(s: string): (r: string)
    ensures |r| <= |s|
  {
    TrimEnd(TrimStart(s))
  }

  /** The trimmed string is the infix starting at `i`, with only white space around it. */
  lemma TrimShape(s: string) returns (i: nat)
    ensures i + |Trim(s)| <= |s| && Trim(s) == s[i..i + |Trim(s)|]
    ensures AllWhiteSpace(s[..i]) && AllWhiteSpace(s[i + |Trim(s)|..])
    ensures Trim(s) == [] || (!IsWhiteSpace(Trim(s)[0]) && !IsWhiteSpace(Trim(s)[|Trim(s)| - 1]))
  {
    var t := TrimStart(s);
    var r := TrimEnd(t);
    i := |s| - |t|;
    assert t == s[i..] && AllWhiteSpace(s[..i]);
    assert r == t[..|r|] && AllWhiteSpace(t[|r|..]);
    SliceOfSuffix(s, i, |r|);
    assert s[i + |r|..] == t[|r|..];
  }

  lemma SliceOfSuffix(s: string, i: nat, n: nat)
    requires i + n <= |s|
    ensures s[i..][..n] == s[i..i + n]
  {
  }

  lemma AllWhiteSpaceConcat(a: string, b: string)
    requires AllWhiteSpace(a) && AllWhiteSpace(b)
    ensures AllWhiteSpace(a + b)
  {
    forall k | 0 <= k < |a + b| ensures IsWhiteSpace((a + b)[k]) {
      if k < |a| { assert (a + b)[k] == a[k]; } else { assert (a + b)[k] == b[k - |a|]; }
    }
  }

  lemma {:induction false} TrimStartBlank(s: string)
    requires AllWhiteSpace(s)
    ensures TrimStart(s) == []
  {
    if s != [] {
      TrimStartBlank(s[1..]);
    }
  }

  /** Trimming removes everything exactly when the string is white space only. */
  lemma TrimBlank(s: string)
    ensures Trim(s) == [] <==> AllWhiteSpace(s)
  {
    if Trim(s) == [] {
      var i := TrimShape(s);
      assert s == s[..i] + s[i..];
      AllWhiteSpaceConcat(s[..i], s[i..]);
    }
    if AllWhiteSpace(s) {
      TrimStartBlank(s);
    }
  }

  // ---------------------------------------------------------------- Split and Join

  /** The index of the first occurrence of `c` in `s`, or None. */
  function IndexOf(s: string, c: char): (r: Option<nat>)
    ensures r.Some? ==> r.value < |s| && s[r.value] == c && c !in s[..r.value]
    ensures r.None? ==> c !in s
  {
    if s == [] then None
    else if s[0] == c then Some(0)
    else
      match IndexOf(s[1..], c)
      case None => None
      case Some(i) =>
        assert s[..i + 1] == [s[0]] + s[1..][..i];
        Some(i + 1)
  }

  /** string.Split(sep) with no options: the pieces between the separators, empty ones included. */
  function Split(s: string, sep: char): (parts: seq<string>)
    ensures |parts| >= 1
    ensures forall i | 0 <= i < |parts| :: sep !in parts[i]
    decreases |s|
  {
    match IndexOf(s, sep)
    case None => [s]
    case Some(i) => [s[..i]] + Split(s[i + 1..], sep)
  }

  /** string.Join(sep, parts). */
  function Join(parts: seq<string>, sep: char): string
    requires |parts| >= 1
  {
    if |parts| == 1 then parts[0] else parts[0] + [sep] + Join(parts[1..], sep)
  }

  /** Joining the pieces of a split gives back the original string. */
  lemma {:induction false} JoinSplit(s: string, sep: char)
    ensures Join(Split(s, sep), sep) == s
    decreases |s|
  {
    match IndexOf(s, sep)
    case None =>
    case Some(i) =>
      var rest := Split(s[i + 1..], sep);
      assert Split(s, sep) == [s[..i]] + rest;
      assert ([s[..i]] + rest)[1..] == rest;
      JoinSplit(s[i + 1..], sep);
      assert s == s[..i] + [sep] + s[i + 1..];
  }

  /** The first separator of `x + [sep] + rest` is the one after `x` when `x` has none. */
  lemma {:induction false} FirstSeparator(x: string, sep: char, rest: string)
    requires sep !in x
    ensures IndexOf(x + [sep] + rest, sep) == Some(|x|)
  {
    if x != [] {
      FirstSeparator(x[1..], sep, rest);
      assert (x + [sep] + rest)[1..] == x[1..] + [sep] + rest;
    }
  }

  /** Splitting a join of separator-free pieces gives back the pieces: the split is unique. */
  lemma {:induction false} SplitJoin(parts: seq<string>, sep: char)
    requires |parts| >= 1
    requires forall i | 0 <= i < |parts| :: sep !in parts[i]
    ensures Split(Join(parts, sep), sep) == parts
  {
    if |parts| == 1 {
      assert IndexOf(parts[0], sep) == None;
    } else {
      var rest := Join(parts[1..], sep);
      FirstSeparator(parts[0], sep, rest);
      var s := parts[0] + [sep] + rest;
      assert s[..|parts[0]|] == parts[0];
      assert s[|parts[0]| + 1..] == rest;
      SplitJoin(parts[1..], sep);
      assert parts == [parts[0]] + parts[1..];
    }
  }

  /** Two strings that agree after a separator-free head and a separator agree on the heads. */
  lemma SeparatorCancel(x: string, r1: string, y: string, r2: string, sep: char)
    requires sep !in x && sep !in y
    requires x + [sep] + r1 == y + [sep] + r2
    ensures x == y && r1 == r2
  {
    var a := x + [sep] + r1;
    FirstSeparator(x, sep, r1);
    FirstSeparator(y, sep, r2);
    assert |x| == |y|;
    assert x == a[..|x|] && r1 == a[|x| + 1..];
  }

  /** StringSplitOptions.RemoveEmptyEntries: drops the zero-length pieces, keeps the order. */
  function RemoveEmpty(parts: seq<string>): (r: seq<string>)
    ensures forall p :: p in r <==> p in parts && p != []
    ensures |r| <= |parts|
  {
    if parts == [] then []
    else (if parts[0] == [] then [] else [parts[0]]) + RemoveEmpty(parts[1..])
  }

  /** `.Select(tag => tag.Trim())`. */
  function TrimAll(parts: seq<string>): (r: seq<string>)
    ensures |r| == |parts|
    ensures forall i | 0 <= i < |parts| :: r[i] == Trim(parts[i])
  {
    if parts == [] then [] else [Trim(parts[0])] + TrimAll(parts[1..])
  }

  // ---------------------------------------------------------------- ignore-case comparison

  /** Case folding of StringComparison.OrdinalIgnoreCase, restricted to ASCII letters. */
  function ToLowerAscii(c: char): char
  {
    if 'A' <= c <= 'Z' then (c as int + 32) as char else c
  }

  function Fold(s: string): string
  {
    seq(|s|, i requires 0 <= i < |s| => ToLowerAscii(s[i]))
  }

  /** string.Equals(a, b, StringComparison.OrdinalIgnoreCase). */
  predicate EqualsIgnoreCase(a: string, b: string)
  {
    Fold(a) == Fold(b)
  }

  /** `p` occurs in `t` starting at index `i`. */
  predicate OccursAt(p: string, t: string, i: nat)
  {
    i + |p| <= |t| && t[i..i + |p|] == p
  }

  /** An ordinal substring search. */
  function IsInfix(p: string, t: string): (r: bool)
    ensures r <==> exists i: nat :: OccursAt(p, t, i)
    decreases |t|
  {
    if p <= t then
      assert OccursAt(p, t, 0);
      true
    else if t == [] then
      assert forall i: nat :: !OccursAt(p, t, i);
      false
    else
      var r := IsInfix(p, t[1..]);
      assert forall i: nat :: OccursAt(p, t[1..], i) <==> OccursAt(p, t, i + 1) by {
        forall i: nat ensures OccursAt(p, t[1..], i) <==> OccursAt(p, t, i + 1) {
          if i + 1 + |p| <= |t| { assert t[1..][i..i + |p|] == t[i + 1..i + 1 + |p|]; }
        }
      }
      assert !OccursAt(p, t, 0);
      assert forall i: nat :: OccursAt(p, t, i) ==> i == 0 || OccursAt(p, t[1..], i - 1);
      r
  }

  /** text.Contains(value, StringComparison.OrdinalIgnoreCase). */
  predicate ContainsIgnoreCase(text: string, value: string)
  {
    IsInfix(Fold(value), Fold(text))
  }

  /** Every text contains the empty string, whatever the comparison. */
  lemma ContainsEmpty(text: string)
    ensures ContainsIgnoreCase(text, "")
  {
    assert OccursAt(Fold(""), Fold(text), 0);
  }

  // ---------------------------------------------------------------- Int32.ToString()

  /** The character of a decimal digit: '0' to '9'. */
  function DigitChar(d: nat): char
    requires d < 10
  {
    ('0' as int + d) as char
  }

  /** The decimal digits of `n`, most significant first, without leading zeros. */
  function NatToString(n: nat): (r: string)
    ensures |r| >= 1
    ensures forall i | 0 <= i < |r| :: '0' <= r[i] <= '9'
    ensures (|r| == 1) <==> n < 10
  {
    if n < 10 then [DigitChar(n)] else NatToString(n / 10) + [DigitChar(n % 10)]
  }

  /** Int32.ToString() with the invariant culture's "-" as negative sign. */
  function IntToString(n: int): (r: string)
    ensures |r| >= 1
    ensures r[0] == '-' <==> n < 0
  {
    if n < 0 then "-" + NatToString(-n) else NatToString(n)
  }

  /** A number in decimal is made of digits and at most a leading minus sign, so it is never blank. */
  lemma IntToStringCharset(n: int)
    ensures forall i | 0 <= i < |IntToString(n)| :: IntToString(n)[i] == '-' || '0' <= IntToString(n)[i] <= '9'
    ensures !IsNullOrWhiteSpace(Some(IntToString(n)))
  {
    assert !IsWhiteSpace(IntToString(n)[0]);
  }

  /** Distinct numbers have distinct decimal forms. */
  lemma {:induction false} NatToStringInjective(m: nat, n: nat)
    requires NatToString(m) == NatToString(n)
    ensures m == n
  {
    if 10 <= m && 10 <= n {
      var a, b := NatToString(m), NatToString(n);
      assert a[|a| - 1] == DigitChar(m % 10) && b[|b| - 1] == DigitChar(n % 10);
      assert a[..|a| - 1] == NatToString(m / 10) && b[..|b| - 1] == NatToString(n / 10);
      NatToStringInjective(m / 10, n / 10);
    }
  }

  lemma IntToStringInjective(m: int, n: int)
    requires IntToString(m) == IntToString(n)
    ensures m == n
  {
    var a, b := IntToString(m), IntToString(n);
    if m < 0 {
      assert a[1..] == NatToString(-m) && b[1..] == NatToString(-n);
      NatToStringInjective(-m, -n);
    } else {
      NatToStringInjective(m, n);
    }
  }
}
