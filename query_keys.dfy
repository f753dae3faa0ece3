/**
 * The key shape shared by the two earlier catalogue decorators (GameHubApi/Providers/CachedRawgApi.cs
 * and Providers/CachedRawgApi.cs): a head holding the paging, then `&name=escaped` for every
 * filter that is not blank, in the fixed order genres, parent_platforms, ordering, search.
 * Read as '&'-separated pieces, such a key gives back its head pieces and its filters.
 */
module QueryKeys {
  import opened Wrappers
  import opened Text
  import opened UriEscape
  import opened KeyParts
  import opened Rawg

  /** The text an append puts before the escaped value: `&name=`. */
  function Label(name: string): string
  {
    "&" + name + "="
  }

  /** The four labels, spelled out as the appends write them. */
  lemma Labels()
    ensures Label("genres") == "&genres=" && Label("parent_platforms") == "&parent_platforms="
    ensures Label("ordering") == "&ordering=" && Label("search") == "&search="
  {
  }

  /** What one conditional append adds: `&name=escaped`, or nothing for a blank value. */
  function Amp(name: string, value: Option<string>): string
  {
    if IsNullOrWhiteSpace(value) then "" else Label(name) + EscapeDataString(value.value)
  }

  /** The present filters of a query, under the names the key uses. */
  function FilterPairs(q: GamesQuery): seq<Pair>
  {
    Filters("genres", q.genres, "parent_platforms", q.parentPlatforms, "ordering", q.ordering, "search", q.search)
  }

  /** The four conditional appends, in order. */
  function FilterSuffix(q: GamesQuery): string
  {
    Amp("genres", q.genres) + Amp("parent_platforms", q.parentPlatforms) + Amp("ordering", q.ordering)
    + Amp("search", q.search)
  }

  lemma {:induction false} PrefixedConcat(a: seq<string>, b: seq<string>, sep: char)
    ensures Prefixed(a + b, sep) == Prefixed(a, sep) + Prefixed(b, sep)
  {
    if a == [] {
      assert a + b == b;
    } else {
      assert (a + b)[1..] == a[1..] + b;
      PrefixedConcat(a[1..], b, sep);
    }
  }

  lemma {:induction false} BodiesConcat(a: seq<Pair>, b: seq<Pair>)
    ensures Bodies(a + b) == Bodies(a) + Bodies(b)
  {
  }

  lemma AmpIsPrefixed(name: string, value: Option<string>)
    ensures Amp(name, value) == Prefixed(Bodies(Present(name, value)), '&')
  {
    if !IsNullOrWhiteSpace(value) {
      var b := Body((name, value.value));
      assert Bodies(Present(name, value)) == [b];
      assert [b][1..] == [];
      assert Prefixed([b], '&') == ['&'] + b + "";
    }
  }

  /** The appends render exactly the present filters, each preceded by '&'. */
  lemma FilterSuffixIsPrefixed(q: GamesQuery)
    ensures FilterSuffix(q) == Prefixed(Bodies(FilterPairs(q)), '&')
  {
    var p1, p2 := Present("genres", q.genres), Present("parent_platforms", q.parentPlatforms);
    var p3, p4 := Present("ordering", q.ordering), Present("search", q.search);
    AmpIsPrefixed("genres", q.genres);
    AmpIsPrefixed("parent_platforms", q.parentPlatforms);
    AmpIsPrefixed("ordering", q.ordering);
    AmpIsPrefixed("search", q.search);
    BodiesConcat(p1 + p2 + p3, p4);
    BodiesConcat(p1 + p2, p3);
    BodiesConcat(p1, p2);
    PrefixedConcat(Bodies(p1 + p2 + p3), Bodies(p4), '&');
    PrefixedConcat(Bodies(p1 + p2), Bodies(p3), '&');
    PrefixedConcat(Bodies(p1), Bodies(p2), '&');
  }

  /** A key with head pieces `head` and the filters of `q`, as '&'-separated pieces. */
  lemma KeyIsJoin(first: string, rest: seq<string>, q: GamesQuery)
    ensures first + Prefixed(rest, '&') + FilterSuffix(q) == Join([first] + rest + Bodies(FilterPairs(q)), '&')
  {
    FilterSuffixIsPrefixed(q);
    PrefixedConcat(rest, Bodies(FilterPairs(q)), '&');
    PrefixedIsJoin(first, rest + Bodies(FilterPairs(q)), '&');
    assert [first] + rest + Bodies(FilterPairs(q)) == [first] + (rest + Bodies(FilterPairs(q)));
  }

  lemma Assoc5(h: string, a: string, b: string, c: string, d: string)
    ensures h + a + b + c + d == h + (a + b + c + d)
  {
  }

  lemma NoAmpersandInNumber(n: int)
    ensures '&' !in IntToString(n)
  {
    IntToStringCharset(n);
  }

  lemma PrefixCancel(a: string, x: string, y: string)
    requires a + x == a + y
    ensures x == y
  {
    assert x == (a + x)[|a|..] && y == (a + y)[|a|..];
  }

  /** Queries with the same filters render the same appends. */
  lemma SameFiltersSameSuffix(q1: GamesQuery, q2: GamesQuery)
    requires SameFilters(q1, q2)
    ensures FilterSuffix(q1) == FilterSuffix(q2)
  {
  }

  /**
   * Keys made of head pieces free of '&' followed by filter appends determine both: equal
   * keys with equally many head pieces have equal heads and the same filters.
   */
  lemma PiecesDetermine(h1: seq<string>, h2: seq<string>, q1: GamesQuery, q2: GamesQuery)
    requires 1 <= |h1| == |h2|
    requires forall i | 0 <= i < |h1| :: '&' !in h1[i]
    requires forall i | 0 <= i < |h2| :: '&' !in h2[i]
    requires Join(h1 + Bodies(FilterPairs(q1)), '&') == Join(h2 + Bodies(FilterPairs(q2)), '&')
    ensures h1 == h2 && SameFilters(q1, q2)
  {
    var f1, f2 := FilterPairs(q1), FilterPairs(q2);
    FilterBodiesPlain(q1);
    FilterBodiesPlain(q2);
    JoinDetermines(h1, Bodies(f1), h2, Bodies(f2), '&');
    BodiesInjective(f1, f2);
    FilterValues(q1, q2);
  }

  /** The filter names are plain, so no rendered filter contains '&'. */
  lemma FilterBodiesPlain(q: GamesQuery)
    ensures PlainNames(FilterPairs(q))
    ensures forall i | 0 <= i < |Bodies(FilterPairs(q))| :: '&' !in Bodies(FilterPairs(q))[i]
  {
    IdentifierPlain("genres");
    IdentifierPlain("parent_platforms");
    IdentifierPlain("ordering");
    IdentifierPlain("search");
    FiltersPlain("genres", q.genres, "parent_platforms", q.parentPlatforms, "ordering", q.ordering, "search", q.search);
    BodiesHaveNoSeparators(FilterPairs(q));
  }

  /** Equal filter pairs mean the same filters. */
  lemma FilterValues(q1: GamesQuery, q2: GamesQuery)
    requires FilterPairs(q1) == FilterPairs(q2)
    ensures SameFilters(q1, q2)
  {
    FiltersValues("genres", q1.genres, "parent_platforms", q1.parentPlatforms, "ordering", q1.ordering, "search", q1.search, "genres");
    FiltersValues("genres", q2.genres, "parent_platforms", q2.parentPlatforms, "ordering", q2.ordering, "search", q2.search, "genres");
    FiltersValues("genres", q1.genres, "parent_platforms", q1.parentPlatforms, "ordering", q1.ordering, "search", q1.search, "parent_platforms");
    FiltersValues("genres", q2.genres, "parent_platforms", q2.parentPlatforms, "ordering", q2.ordering, "search", q2.search, "parent_platforms");
    FiltersValues("genres", q1.genres, "parent_platforms", q1.parentPlatforms, "ordering", q1.ordering, "search", q1.search, "ordering");
    FiltersValues("genres", q2.genres, "parent_platforms", q2.parentPlatforms, "ordering", q2.ordering, "search", q2.search, "ordering");
    FiltersValues("genres", q1.genres, "parent_platforms", q1.parentPlatforms, "ordering", q1.ordering, "search", q1.search, "search");
    FiltersValues("genres", q2.genres, "parent_platforms", q2.parentPlatforms, "ordering", q2.ordering, "search", q2.search, "search");
  }
}
