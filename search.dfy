/** The search page (Soundwave/src/pages/Search.tsx): the service's search,
    narrowed to one field when a type is chosen, then sorted by title,
    artist or upload date in either direction. String collation is modelled
    as code-unit order and dates as millisecond timestamps. */
module Search {
  import opened Base
  import opened Text
  import opened Types
  import opened AudioService

  datatype FilterType = All | TitleField | ArtistField | AlbumField
  datatype SortKey = ByTitle | ByArtist | ByUploadDate
  datatype Order = Asc | Desc
  datatype SearchFilters = SearchFilters(kind: FilterType, sortBy: SortKey, order: Order)

  // ------------------------------------------------------------ comparator

  /** a.localeCompare(b), as code-unit lexicographic order: negative, zero
      or positive, and zero only for equal strings. */
  function LexCompare(a: string, b: string): (r: int)
    ensures -1 <= r <= 1
    ensures r == 0 <==> a == b
  {
    if a == [] then (if b == [] then 0 else -1)
    else if b == [] then 1
    else if a[0] < b[0] then -1
    else if a[0] > b[0] then 1
    else
      var r := LexCompare(a[1..], b[1..]);
      assert a == [a[0]] + a[1..] && b == [b[0]] + b[1..];
      r
  }

  lemma {:induction false} LexAntisymmetric(a: string, b: string)
    ensures LexCompare(a, b) == -LexCompare(b, a)
  {
    if a != [] && b != [] && a[0] == b[0] {
      LexAntisymmetric(a[1..], b[1..]);
    }
  }

  lemma {:induction false} LexTransitive(a: string, b: string, c: string)
    requires LexCompare(a, b) <= 0 && LexCompare(b, c) <= 0
    ensures LexCompare(a, c) <= 0
  {
    if a != [] && b != [] && c != [] && a[0] == b[0] == c[0] {
      LexTransitive(a[1..], b[1..], c[1..]);
    }
  }

  /** new Date(s.uploadDate || 0).getTime(): a missing date counts as 0. */
  function DateOf(s: Song): int {
    s.uploadDate.GetOr(0)
  }

  /** The sort comparator: the field comparison times +1 for ascending and
      -1 for descending; for dates the ascending comparison is b - a. */
  function Compare(f: SearchFilters, a: Song, b: Song): int {
    var factor := if f.order == Asc then 1 else -1;
    match f.sortBy
    case ByTitle => factor * LexCompare(a.title, b.title)
    case ByArtist => factor * LexCompare(a.artist, b.artist)
    case ByUploadDate => factor * (DateOf(b) - DateOf(a))
  }

  lemma CompareAntisymmetric(f: SearchFilters, a: Song, b: Song)
    ensures Compare(f, a, b) == -Compare(f, b, a)
  {
    LexAntisymmetric(a.title, b.title);
    LexAntisymmetric(a.artist, b.artist);
  }

  lemma CompareTransitive(f: SearchFilters, a: Song, b: Song, c: Song)
    requires Compare(f, a, b) <= 0 && Compare(f, b, c) <= 0
    ensures Compare(f, a, c) <= 0
  {
    match f.sortBy
    case ByTitle =>
      if f.order == Asc {
        LexTransitive(a.title, b.title, c.title);
      } else {
        LexAntisymmetric(a.title, b.title);
        LexAntisymmetric(b.title, c.title);
        LexAntisymmetric(a.title, c.title);
        LexTransitive(c.title, b.title, a.title);
      }
    case ByArtist =>
      if f.order == Asc {
        LexTransitive(a.artist, b.artist, c.artist);
      } else {
        LexAntisymmetric(a.artist, b.artist);
        LexAntisymmetric(b.artist, c.artist);
        LexAntisymmetric(a.artist, c.artist);
        LexTransitive(c.artist, b.artist, a.artist);
      }
    case ByUploadDate =>
  }

  /** Descending order compares a with b as ascending order compares b
      with a. */
  lemma DescendingReversesAscending(f: SearchFilters, a: Song, b: Song)
    ensures Compare(f.(order := Desc), a, b) == Compare(f.(order := Asc), b, a)
  {
    CompareAntisymmetric(f.(order := Asc), a, b);
  }

  /** Sorting by upload date "ascending" puts the newer song first. */
  lemma AscendingDatePutsNewerFirst(f: SearchFilters, a: Song, b: Song)
    requires f.sortBy == ByUploadDate && f.order == Asc
    requires DateOf(a) > DateOf(b)
    ensures Compare(f, a, b) < 0
  {
  }

  // ------------------------------------------------------------------ sort

  /** Sorted with respect to the comparator: no later element comes strictly
      before an earlier one. */
  ghost predicate SortedBy(f: SearchFilters, s: seq<Song>) {
    forall i, j :: 0 <= i < j < |s| ==> Compare(f, s[i], s[j]) <= 0
  }

  /** Inserts x after every element that does not compare greater. */
  function Insert(f: SearchFilters, s: seq<Song>, x: Song): (r: seq<Song>)
    ensures multiset(r) == multiset(s) + multiset{x}
  {
    if s == [] then [x]
    else if Compare(f, x, s[0]) < 0 then [x] + s
    else
      assert s == [s[0]] + s[1..];
      [s[0]] + Insert(f, s[1..], x)
  }

  lemma PrependKeepsSorted(f: SearchFilters, y: Song, t: seq<Song>)
    requires SortedBy(f, t)
    requires forall z :: z in t ==> Compare(f, y, z) <= 0
    ensures SortedBy(f, [y] + t)
  {
    var r := [y] + t;
    forall i, j | 0 <= i < j < |r| ensures Compare(f, r[i], r[j]) <= 0 {
      assert r[j] == t[j - 1];
      if i > 0 {
        assert r[i] == t[i - 1];
      }
    }
  }

  lemma {:induction false} InsertKeepsSorted(f: SearchFilters, s: seq<Song>, x: Song)
    requires SortedBy(f, s)
    ensures SortedBy(f, Insert(f, s, x))
  {
    if s == [] {
    } else if Compare(f, x, s[0]) < 0 {
      forall z | z in s ensures Compare(f, x, z) <= 0 {
        var j :| 0 <= j < |s| && s[j] == z;
        if j > 0 {
          CompareTransitive(f, x, s[0], s[j]);
        }
      }
      PrependKeepsSorted(f, x, s);
    } else {
      var tail := Insert(f, s[1..], x);
      InsertKeepsSorted(f, s[1..], x);
      CompareAntisymmetric(f, x, s[0]);
      forall y | y in tail ensures Compare(f, s[0], y) <= 0 {
        assert y in multiset(tail);
        if y != x {
          assert y in s[1..];
        }
      }
      PrependKeepsSorted(f, s[0], tail);
    }
  }

  /** filteredResults.sort(comparator): a sorted permutation of the input. */
  method SortResults(f: SearchFilters, xs: seq<Song>) returns (r: seq<Song>)
    ensures multiset(r) == multiset(xs)
    ensures SortedBy(f, r)
  {
    r := [];
    var i := 0;
    while i < |xs|
      invariant 0 <= i <= |xs|
      invariant multiset(r) == multiset(xs[..i])
      invariant SortedBy(f, r)
    {
      InsertKeepsSorted(f, r, xs[i]);
      r := Insert(f, r, xs[i]);
      assert xs[..i + 1] == xs[..i] + [xs[i]];
      i := i + 1;
    }
    assert xs[..i] == xs;
  }

  // ---------------------------------------------------------------- filter

  /** The lower-cased field chosen by the type contains the lower-cased
      query; type All accepts every song. */
  predicate FieldMatches(kind: FilterType, s: Song, query: string) {
    match kind
    case All => true
    case TitleField => Includes(ToLower(s.title), ToLower(query))
    case ArtistField => Includes(ToLower(s.artist), ToLower(query))
    case AlbumField => Includes(ToLower(s.album), ToLower(query))
  }

  /** The type filter applied to the service's results. */
  function ByType(results: seq<Song>, kind: FilterType, query: string): (r: seq<Song>)
    ensures IsSubseq(r, results)
    ensures forall s :: s in r <==> s in results && FieldMatches(kind, s, query)
    ensures forall s :: multiset(r)[s] == if FieldMatches(kind, s, query) then multiset(results)[s] else 0
  {
    var keep := (s: Song) => FieldMatches(kind, s, query);
    FilterIsSubseq(results, keep);
    FilterCounts(results, keep);
    Filter(results, keep)
  }

  /** A field match is also a match of the service's search. */
  lemma FieldMatchIsSearchMatch(kind: FilterType, s: Song, query: string)
    requires kind != All && FieldMatches(kind, s, query)
    ensures MatchesQuery(s, ToLower(query))
  {
  }

  /** The search effect: no query, no results; otherwise the service's
      matches, narrowed to the chosen field, in comparator order. */
  method RunSearch(songs: seq<Song>, query: string, f: SearchFilters) returns (results: seq<Song>)
    ensures query == [] ==> results == []
    ensures SortedBy(f, results)
    ensures multiset(results) <= multiset(SearchSongs(songs, query))
    ensures |results| <= |SearchSongs(songs, query)|
    ensures query != [] ==> multiset(results) == multiset(ByType(SearchSongs(songs, query), f.kind, query))
    ensures query != [] && f.kind == All ==> multiset(results) == multiset(SearchSongs(songs, query))
    ensures forall s :: s in results ==> s in songs && FieldMatches(f.kind, s, query)
    ensures query != [] && f.kind != All ==> forall s :: s in songs && FieldMatches(f.kind, s, query) ==> s in results
    ensures query != [] && f.kind == All ==> forall s :: s in songs && MatchesQuery(s, ToLower(query)) ==> s in results
  {
    if query == [] {
      return [];
    }
    var found := SearchSongs(songs, query);
    var filtered := found;
    if f.kind != All {
      filtered := ByType(found, f.kind, query);
    } else {
      FilterKeepsAll(found, (s: Song) => FieldMatches(All, s, query));
    }
    assert filtered == ByType(found, f.kind, query);
    results := SortResults(f, filtered);
    assert multiset(results) <= multiset(found);
    assert |multiset(results)| <= |multiset(found)|;
    forall s | s in results ensures s in songs && FieldMatches(f.kind, s, query) {
      assert s in multiset(results);
      assert s in filtered;
    }
    forall s | s in songs && FieldMatches(f.kind, s, query) && (f.kind == All ==> MatchesQuery(s, ToLower(query)))
      ensures s in results
    {
      if f.kind != All {
        FieldMatchIsSearchMatch(f.kind, s, query);
      }
      assert s in filtered;
      assert s in multiset(results);
    }
  }
}
