/**
 * What the three cache-key formats have in common: the request parameters that are not
 * blank, each rendered as `name=Uri.EscapeDataString(value)`, joined by a separator character
 * that neither the names nor the escaped values contain. Reading such a key back (splitting
 * on the separator, then on '=') recovers every parameter, which is why two requests share a
 * key only when they agree on every non-blank parameter.
 */
module KeyParts {
  import opened Wrappers
  import opened Text
  import opened UriEscape

  /** A present parameter: its name and its raw (unescaped) value. */
  type Pair = (string, string)

  /** A parameter is rendered only when its value is not null, empty or white space. */
  function Present(name: string, value: Option<string>): (r: seq<Pair>)
    ensures IsNullOrWhiteSpace(value) ==> r == []
    ensures !IsNullOrWhiteSpace(value) ==> r == [(name, value.value)]
  {
    if IsNullOrWhiteSpace(value) then [] else [(name, value.value)]
  }

  /** `{name}={Uri.EscapeDataString(value)}`. */
  function Body(p: Pair): string
  {
    p.0 + "=" + EscapeDataString(p.1)
  }

  function Bodies(ps: seq<Pair>): (bs: seq<string>)
    ensures |bs| == |ps|
    ensures forall i | 0 <= i < |ps| :: bs[i] == Body(ps[i])
  {
    if ps == [] then [] else [Body(ps[0])] + Bodies(ps[1..])
  }

  /** A name that cannot be confused with the punctuation of a key. */
  predicate PlainName(n: string)
  {
    ';' !in n && '&' !in n && '=' !in n && '?' !in n
  }

  /** A name spelled with ASCII letters and '_' only. */
  predicate Identifier(n: string)
  {
    forall i | 0 <= i < |n| :: 'a' <= n[i] <= 'z' || 'A' <= n[i] <= 'Z' || n[i] == '_'
  }

  lemma IdentifierPlain(n: string)
    requires Identifier(n)
    ensures PlainName(n)
  {
  }

  predicate PlainNames(ps: seq<Pair>)
  {
    forall i | 0 <= i < |ps| :: PlainName(ps[i].0)
  }

  lemma PlainNamesConcat(ps: seq<Pair>, qs: seq<Pair>)
    requires PlainNames(ps) && PlainNames(qs)
    ensures PlainNames(ps + qs)
  {
    assert forall i | |ps| <= i < |ps + qs| :: (ps + qs)[i] == qs[i - |ps|];
  }

  /** A rendered parameter never contains the segment separators ';' and '&'. */
  lemma BodyHasNoSeparators(p: Pair)
    requires PlainName(p.0)
    ensures ';' !in Body(p) && '&' !in Body(p)
  {
    EscapedHasNoSeparators(p.1);
  }

  lemma BodiesHaveNoSeparators(ps: seq<Pair>)
    requires PlainNames(ps)
    ensures forall i | 0 <= i < |ps| :: ';' !in Bodies(ps)[i] && '&' !in Bodies(ps)[i]
  {
    forall i | 0 <= i < |ps| ensures ';' !in Bodies(ps)[i] && '&' !in Bodies(ps)[i] {
      BodyHasNoSeparators(ps[i]);
    }
  }

  /** A rendered parameter determines its name and its raw value. */
  lemma BodyInjective(p: Pair, q: Pair)
    requires PlainName(p.0) && PlainName(q.0) && Body(p) == Body(q)
    ensures p == q
  {
    SeparatorCancel(p.0, EscapeDataString(p.1), q.0, EscapeDataString(q.1), '=');
    EscapeInjective(p.1, q.1);
  }

  lemma {:induction false} BodiesInjective(ps: seq<Pair>, qs: seq<Pair>)
    requires PlainNames(ps) && PlainNames(qs) && Bodies(ps) == Bodies(qs)
    ensures ps == qs
  {
    if ps != [] {
      BodyInjective(ps[0], qs[0]);
      assert Bodies(ps[1..]) == Bodies(ps)[1..] && Bodies(qs[1..]) == Bodies(qs)[1..];
      BodiesInjective(ps[1..], qs[1..]);
      assert ps == [ps[0]] + ps[1..] && qs == [qs[0]] + qs[1..];
    }
  }

  /** A joined key made of separator-free pieces gives its pieces back, head and tail alike. */
  lemma JoinDetermines(h1: seq<string>, b1: seq<string>, h2: seq<string>, b2: seq<string>, sep: char)
    requires 1 <= |h1| == |h2|
    requires forall i | 0 <= i < |h1| :: sep !in h1[i]
    requires forall i | 0 <= i < |h2| :: sep !in h2[i]
    requires forall i | 0 <= i < |b1| :: sep !in b1[i]
    requires forall i | 0 <= i < |b2| :: sep !in b2[i]
    requires Join(h1 + b1, sep) == Join(h2 + b2, sep)
    ensures h1 == h2 && b1 == b2
  {
    assert forall i | 0 <= i < |h1 + b1| :: sep !in (h1 + b1)[i] by {
      assert forall i | |h1| <= i < |h1 + b1| :: (h1 + b1)[i] == b1[i - |h1|];
    }
    assert forall i | 0 <= i < |h2 + b2| :: sep !in (h2 + b2)[i] by {
      assert forall i | |h2| <= i < |h2 + b2| :: (h2 + b2)[i] == b2[i - |h2|];
    }
    SplitJoin(h1 + b1, sep);
    SplitJoin(h2 + b2, sep);
    assert h1 == (h1 + b1)[..|h1|] && h2 == (h2 + b2)[..|h2|];
    assert b1 == (h1 + b1)[|h1|..] && b2 == (h2 + b2)[|h2|..];
  }

  /** Each piece followed by the separator: the shape `a;b;c;` of a StringBuilder loop. */
  function Terminated(bs: seq<string>, sep: char): string
  {
    if bs == [] then [] else bs[0] + [sep] + Terminated(bs[1..], sep)
  }

  lemma {:induction false} TerminatedIsJoin(bs: seq<string>, sep: char)
    ensures Terminated(bs, sep) == Join(bs + [""], sep)
  {
    if bs != [] {
      TerminatedIsJoin(bs[1..], sep);
      assert (bs + [""])[1..] == bs[1..] + [""];
    }
  }

  /** Each piece preceded by the separator: the shape `&a&b` of conditional appends. */
  function Prefixed(bs: seq<string>, sep: char): string
  {
    if bs == [] then [] else [sep] + bs[0] + Prefixed(bs[1..], sep)
  }

  lemma {:induction false} PrefixedIsJoin(head: string, bs: seq<string>, sep: char)
    ensures head + Prefixed(bs, sep) == Join([head] + bs, sep)
    decreases |bs|
  {
    if bs != [] {
      PrefixedIsJoin(bs[0], bs[1..], sep);
      assert ([head] + bs)[1..] == [bs[0]] + bs[1..] == bs;
    }
  }

  /** The value of the first present parameter with this name. */
  function ValueOf(ps: seq<Pair>, name: string): Option<string>
  {
    if ps == [] then None else if ps[0].0 == name then Some(ps[0].1) else ValueOf(ps[1..], name)
  }

  lemma {:induction false} ValueOfConcat(a: seq<Pair>, b: seq<Pair>, name: string)
    ensures ValueOf(a + b, name) == if ValueOf(a, name).Some? then ValueOf(a, name) else ValueOf(b, name)
  {
    if a == [] {
      assert a + b == b;
    } else {
      assert (a + b)[1..] == a[1..] + b;
      ValueOfConcat(a[1..], b, name);
    }
  }

  /** The value a query parameter has once null and blank are identified. */
  lemma PresentValue(n: string, v: Option<string>, name: string)
    ensures ValueOf(Present(n, v), name) == if n == name then Normalize(v) else None
  {
  }

  /** Four optional filters, in a fixed order, under four distinct names. */
  function Filters(n1: string, v1: Option<string>, n2: string, v2: Option<string>,
                   n3: string, v3: Option<string>, n4: string, v4: Option<string>): seq<Pair>
  {
    Present(n1, v1) + Present(n2, v2) + Present(n3, v3) + Present(n4, v4)
  }

  /** The rendered filters give back each filter's non-blank value, and nothing for other names. */
  lemma FiltersValues(n1: string, v1: Option<string>, n2: string, v2: Option<string>,
                      n3: string, v3: Option<string>, n4: string, v4: Option<string>, name: string)
    requires n1 != n2 && n1 != n3 && n1 != n4 && n2 != n3 && n2 != n4 && n3 != n4
    ensures var fs := Filters(n1, v1, n2, v2, n3, v3, n4, v4);
            ValueOf(fs, name) ==
              if name == n1 then Normalize(v1)
              else if name == n2 then Normalize(v2)
              else if name == n3 then Normalize(v3)
              else if name == n4 then Normalize(v4)
              else None
  {
    var p1, p2, p3, p4 := Present(n1, v1), Present(n2, v2), Present(n3, v3), Present(n4, v4);
    ValueOfConcat(p1 + p2 + p3, p4, name);
    ValueOfConcat(p1 + p2, p3, name);
    ValueOfConcat(p1, p2, name);
    PresentValue(n1, v1, name);
    PresentValue(n2, v2, name);
    PresentValue(n3, v3, name);
    PresentValue(n4, v4, name);
  }

  lemma FiltersPlain(n1: string, v1: Option<string>, n2: string, v2: Option<string>,
                     n3: string, v3: Option<string>, n4: string, v4: Option<string>)
    requires PlainName(n1) && PlainName(n2) && PlainName(n3) && PlainName(n4)
    ensures PlainNames(Filters(n1, v1, n2, v2, n3, v3, n4, v4))
  {
  }
}
