/** The ranked airport lookup (app/providers/mock.py) against the plain substring filter, and
    the validation of airport codes built on it (app/services/search.py). */
module Locations {
  import opened Text

  datatype Location = Location(code: string, name: string, city: string, country: string)

  /** IATA codes: three upper-case letters, each used once. */
  ghost predicate ValidDataset(data: seq<Location>) {
    && (forall i :: 0 <= i < |data| ==> |data[i].code| == 3 && forall k :: 0 <= k < 3 ==> IsUpper(data[i].code[k]))
    && DistinctCodes(data)
  }

  /** The query reads like the beginning of a code. */
  predicate CodeLike(q: string) {
    |q| <= 3 && forall k :: 0 <= k < |q| ==> IsUpper(q[k])
  }

  function Haystack(l: Location): string {
    l.code + " " + l.name + " " + l.city + " " + l.country
  }

  predicate Matches(lower: string -> string, l: Location, q: string) {
    Contains(lower(Haystack(l)), lower(q))
  }

  /** How the lookup ranks a match: the exact code, then code prefixes, then the rest. */
  function RankOf(l: Location, q: string): nat {
    if !CodeLike(q) || !(q <= l.code) then 2 else if l.code == q then 0 else 1
  }

  /** The plain filter: the matches in the order of the dataset. */
  function Filter(lower: string -> string, data: seq<Location>, q: string): seq<Location> {
    if data == [] then []
    else
      var rest := Filter(lower, data[..|data| - 1], q);
      if Matches(lower, data[|data| - 1], q) then rest + [data[|data| - 1]] else rest
  }

  /** The matches of one rank, in the order of the dataset. */
  function OfRank(lower: string -> string, data: seq<Location>, q: string, rank: nat): seq<Location> {
    if data == [] then []
    else
      var last, rest := data[|data| - 1], OfRank(lower, data[..|data| - 1], q, rank);
      if Matches(lower, last, q) && RankOf(last, q) == rank then rest + [last] else rest
  }

  /** All matches, best rank first. */
  function Ranked(lower: string -> string, data: seq<Location>, q: string): seq<Location> {
    OfRank(lower, data, q, 0) + OfRank(lower, data, q, 1) + OfRank(lower, data, q, 2)
  }

  // ---------------------------------------------------------------- the ranking reorders the filter

  /** A location whose code starts with the query is found by the substring filter too. */
  lemma CodePrefixMatches(lower: string -> string, l: Location, q: string)
    requires LowerLike(lower) && CodeLike(q) && q <= l.code
    ensures Matches(lower, l, q)
  {
    var hay := Haystack(l);
    assert hay == q + hay[|q|..];
    assert lower(q) <= lower(hay)[0..];
  }

  lemma {:induction false} RankedIsFilter(lower: string -> string, data: seq<Location>, q: string)
    ensures multiset(Ranked(lower, data, q)) == multiset(Filter(lower, data, q))
  {
    if data == [] {
    } else {
      RankedIsFilter(lower, data[..|data| - 1], q);
    }
  }

  lemma {:induction false} OfRankMembers(lower: string -> string, data: seq<Location>, q: string, rank: nat)
    ensures forall l :: l in OfRank(lower, data, q, rank) <==> l in data && Matches(lower, l, q) && RankOf(l, q) == rank
  {
    if data == [] {
    } else {
      OfRankMembers(lower, data[..|data| - 1], q, rank);
    }
  }

  lemma {:induction false} FilterMembers(lower: string -> string, data: seq<Location>, q: string)
    requires ValidDataset(data)
    ensures forall l :: l in Filter(lower, data, q) <==> l in data && Matches(lower, l, q)
    ensures DistinctCodes(Filter(lower, data, q))
  {
    if data == [] {
    } else {
      var init, last := data[..|data| - 1], data[|data| - 1];
      FilterMembers(lower, init, q);
      forall l | l in init ensures l.code != last.code {
        var k :| 0 <= k < |init| && init[k] == l;
        assert data[k] == l;
      }
      AppendDistinct(Filter(lower, init, q), last);
    }
  }

  predicate DistinctCodes(s: seq<Location>) {
    forall i, j :: 0 <= i < j < |s| ==> s[i].code != s[j].code
  }

  lemma AppendDistinct(s: seq<Location>, last: Location)
    requires DistinctCodes(s) && forall l :: l in s ==> l.code != last.code
    ensures DistinctCodes(s + [last])
  {
    forall i | 0 <= i < |s| ensures s[i].code != last.code {
      assert s[i] in s;
    }
  }

  lemma {:induction false} OfRankAt(lower: string -> string, data: seq<Location>, q: string, rank: nat, i: nat)
    requires i < |OfRank(lower, data, q, rank)|
    ensures RankOf(OfRank(lower, data, q, rank)[i], q) == rank
  {
    var rest := OfRank(lower, data[..|data| - 1], q, rank);
    if i < |rest| {
      OfRankAt(lower, data[..|data| - 1], q, rank, i);
    }
  }

  lemma IndexOfThree<T>(a: seq<T>, b: seq<T>, c: seq<T>, i: nat)
    requires i < |a| + |b| + |c|
    ensures (a + b + c)[i] == if i < |a| then a[i] else if i < |a| + |b| then b[i - |a|] else c[i - |a| - |b|]
  {
  }

  /** The rank of every position of the ranking. */
  lemma RankAt(lower: string -> string, data: seq<Location>, q: string, i: nat)
    requires i < |Ranked(lower, data, q)|
    ensures var zero, one := |OfRank(lower, data, q, 0)|, |OfRank(lower, data, q, 1)|;
            RankOf(Ranked(lower, data, q)[i], q) == if i < zero then 0 else if i < zero + one then 1 else 2
  {
    var zero, one := |OfRank(lower, data, q, 0)|, |OfRank(lower, data, q, 1)|;
    IndexOfThree(OfRank(lower, data, q, 0), OfRank(lower, data, q, 1), OfRank(lower, data, q, 2), i);
    if i < zero {
      OfRankAt(lower, data, q, 0, i);
    } else if i < zero + one {
      OfRankAt(lower, data, q, 1, i - zero);
    } else {
      OfRankAt(lower, data, q, 2, i - zero - one);
    }
  }

  lemma ExactCodeFirst(lower: string -> string, data: seq<Location>, q: string, l: Location)
    requires LowerLike(lower) && ValidDataset(data) && l in data && CodeLike(q) && l.code == q
    ensures Ranked(lower, data, q) != [] && Ranked(lower, data, q)[0] == l
  {
    CodePrefixMatches(lower, l, q);
    OfRankMembers(lower, data, q, 0);
    var first := OfRank(lower, data, q, 0)[0];
    assert first in OfRank(lower, data, q, 0);
    SameCodeSameLocation(data, first, l);
  }

  lemma SameCodeSameLocation(data: seq<Location>, a: Location, b: Location)
    requires ValidDataset(data) && a in data && b in data && a.code == b.code
    ensures a == b
  {
    var i, j :| 0 <= i < |data| && data[i] == a && 0 <= j < |data| && data[j] == b;
  }

  lemma RankedMembers(lower: string -> string, data: seq<Location>, q: string, l: Location)
    ensures l in Ranked(lower, data, q) <==> l in data && Matches(lower, l, q)
  {
    OfRankMembers(lower, data, q, 0);
    OfRankMembers(lower, data, q, 1);
    OfRankMembers(lower, data, q, 2);
    assert RankOf(l, q) == 0 || RankOf(l, q) == 1 || RankOf(l, q) == 2;
  }

  /** The ranking is a permutation of the plain filter; an exact code comes first, then the
      code prefixes, then everything else. */
  lemma RankedLookup(lower: string -> string, data: seq<Location>, q: string)
    requires LowerLike(lower) && ValidDataset(data)
    ensures multiset(Ranked(lower, data, q)) == multiset(Filter(lower, data, q))
    ensures forall i, j :: 0 <= i < j < |Ranked(lower, data, q)| ==>
        RankOf(Ranked(lower, data, q)[i], q) <= RankOf(Ranked(lower, data, q)[j], q)
    ensures forall l :: l in data && CodeLike(q) && l.code == q ==>
        Ranked(lower, data, q) != [] && Ranked(lower, data, q)[0] == l
  {
    RankedIsFilter(lower, data, q);
    forall i, j | 0 <= i < j < |Ranked(lower, data, q)|
      ensures RankOf(Ranked(lower, data, q)[i], q) <= RankOf(Ranked(lower, data, q)[j], q)
    {
      RankAt(lower, data, q, i);
      RankAt(lower, data, q, j);
    }
    forall l | l in data && CodeLike(q) && l.code == q
      ensures Ranked(lower, data, q) != [] && Ranked(lower, data, q)[0] == l
    {
      ExactCodeFirst(lower, data, q, l);
    }
  }

  /** Without repetition: as many elements as the filter, and each location once. */
  lemma {:induction false} DistinctCount(s: seq<Location>, l: Location)
    requires DistinctCodes(s)
    ensures multiset(s)[l] <= 1
  {
    if s == [] {
    } else {
      DistinctCount(s[..|s| - 1], l);
      assert s == s[..|s| - 1] + [s[|s| - 1]];
      if s[|s| - 1] == l {
        assert l !in s[..|s| - 1];
      }
    }
  }

  lemma RankedHasNoDuplicates(lower: string -> string, data: seq<Location>, q: string)
    requires ValidDataset(data)
    ensures forall i, j :: 0 <= i < j < |Ranked(lower, data, q)| ==>
        Ranked(lower, data, q)[i] != Ranked(lower, data, q)[j]
  {
    FilterMembers(lower, data, q);
    RankedIsFilter(lower, data, q);
    var r := Ranked(lower, data, q);
    forall i, j | 0 <= i < j < |r| ensures r[i] != r[j] {
      DistinctCount(Filter(lower, data, q), r[i]);
      assert r == r[..j] + [r[j]] + r[j + 1..];
      assert multiset(r) == multiset(r[..j]) + multiset{r[j]} + multiset(r[j + 1..]);
      assert r[..j][i] == r[i];
      assert multiset(r[..j])[r[i]] >= 1;
    }
  }

  // ---------------------------------------------------------------- the lookup as it runs

  function Truncated(s: seq<Location>, limit: int): seq<Location> {
    if limit <= 0 then [] else if limit < |s| then s[..limit] else s
  }

  /** The query occurs in code, name, city and country, written one after the other, in lower case. */
  ghost predicate FoundBy(lower: string -> string, l: Location, q: string) {
    exists before, after ::
      lower(l.code + " " + l.name + " " + l.city + " " + l.country) == before + lower(q) + after
  }

  /** For a query of one to three upper-case letters, the location with that very code is the
      first, and the locations whose code starts with it come before the others. */
  predicate CodesFirst(r: seq<Location>, q: string) {
    1 <= |q| <= 3 && (forall k :: 0 <= k < |q| ==> 'A' <= q[k] <= 'Z') ==>
      && (forall j :: 1 <= j < |r| ==> r[j].code != q)
      && (forall i, j :: 0 <= i < j < |r| && q <= r[j].code ==> q <= r[i].code)
  }

  lemma ContainsIff(text: string, needle: string)
    ensures Contains(text, needle) <==> exists before, after :: text == before + needle + after
  {
    if Contains(text, needle) {
      var i :| 0 <= i <= |text| && needle <= text[i..];
      assert text == text[..i] + needle + text[i + |needle|..];
    }
    if before, after :| text == before + needle + after {
      assert needle <= text[|before|..];
    }
  }

  lemma {:induction false} RankedSize(lower: string -> string, data: seq<Location>, q: string)
    ensures |Ranked(lower, data, q)| <= |data|
  {
    if data == [] {
    } else {
      RankedSize(lower, data[..|data| - 1], q);
    }
  }

  lemma ExactIsFirst(lower: string -> string, data: seq<Location>, q: string, j: nat)
    requires LowerLike(lower) && ValidDataset(data) && CodeLike(q)
    requires j < |Ranked(lower, data, q)| && Ranked(lower, data, q)[j].code == q
    ensures j == 0
  {
    var l := Ranked(lower, data, q)[j];
    assert l in Ranked(lower, data, q);
    RankedMembers(lower, data, q, l);
    ExactCodeFirst(lower, data, q, l);
    RankedHasNoDuplicates(lower, data, q);
  }

  /** The ranking in figures: which locations it has, and which come first. */
  lemma RankedInFigures(lower: string -> string, data: seq<Location>, q: string)
    requires LowerLike(lower) && ValidDataset(data)
    ensures |Ranked(lower, data, q)| <= |data| && CodesFirst(Ranked(lower, data, q), q)
    ensures forall l :: l in Ranked(lower, data, q) <==> l in data && FoundBy(lower, l, q)
  {
    var r := Ranked(lower, data, q);
    RankedSize(lower, data, q);
    forall l ensures l in r <==> l in data && FoundBy(lower, l, q) {
      RankedMembers(lower, data, q, l);
      ContainsIff(lower(Haystack(l)), lower(q));
    }
    if CodeLike(q) {
      RankedLookup(lower, data, q);
      forall j | 0 <= j < |r| && r[j].code == q ensures j == 0 {
        ExactIsFirst(lower, data, q, j);
      }
    }
  }

  /** Within each group, the locations come in the order of the dataset. */
  lemma {:induction false} OfRankInOrder(
    lower: string -> string, data: seq<Location>, q: string, rank: nat, i: nat, j: nat) returns (a: nat, b: nat)
    requires i < j < |OfRank(lower, data, q, rank)|
    ensures a < b < |data| && data[a] == OfRank(lower, data, q, rank)[i] && data[b] == OfRank(lower, data, q, rank)[j]
  {
    var init, last := data[..|data| - 1], data[|data| - 1];
    var rest := OfRank(lower, init, q, rank);
    if j < |rest| {
      a, b := OfRankInOrder(lower, init, q, rank, i, j);
    } else {
      OfRankMembers(lower, init, q, rank);
      assert rest[i] in rest;
      a :| 0 <= a < |init| && init[a] == rest[i];
      b := |data| - 1;
    }
  }

  /** A case mapping that goes letter by letter finds the airports of a country by its name. */
  lemma CountryIsFound(lower: string -> string, l: Location)
    requires forall a, b :: lower(a + b) == lower(a) + lower(b)
    ensures FoundBy(lower, l, l.country)
  {
    var before := l.code + " " + l.name + " " + l.city + " ";
    assert lower(before + l.country) == lower(before) + lower(l.country) + "";
  }

  /** search_locations: the exact code, the code prefixes, then a scan of the dataset that skips
      what is listed already. */
  method SearchLocations(lower: string -> string, data: seq<Location>, query: string, limit: int)
    returns (r: seq<Location>)
    requires LowerLike(lower) && ValidDataset(data)
    ensures r == if Strip(query) == "" then [] else Truncated(Ranked(lower, data, Strip(query)), limit)
    ensures Strip(query) == "" || limit <= 0 ==> r == []
    ensures limit >= 0 ==> |r| <= limit
    ensures Strip(query) != "" && limit >= |data| ==>
              forall l :: l in r <==> l in data && FoundBy(lower, l, Strip(query))
    ensures CodesFirst(r, Strip(query))
  {
    RankedInFigures(lower, data, Strip(query));
    var q := Strip(query);
    if q == "" || limit <= 0 {
      return [];
    }
    var ordered := [];
    if CodeLike(q) {
      var exact := ExactCode(lower, data, q);
      var prefixed := CodePrefixes(lower, data, q);
      ordered := exact + prefixed;
    } else {
      NoCodeRanks(lower, data, q);
    }
    var others := Unlisted(lower, data, q, ordered);
    ordered := ordered + others;
    r := if limit < |ordered| then ordered[..limit] else ordered;
  }

  method CodePrefixes(lower: string -> string, data: seq<Location>, q: string) returns (r: seq<Location>)
    requires LowerLike(lower) && ValidDataset(data) && CodeLike(q)
    ensures r == OfRank(lower, data, q, 1)
  {
    r := [];
    for i := 0 to |data|
      invariant r == OfRank(lower, data[..i], q, 1)
    {
      assert data[..i + 1][..i] == data[..i];
      if q <= data[i].code && data[i].code != q {
        CodePrefixMatches(lower, data[i], q);
        r := r + [data[i]];
      }
    }
    assert data[..|data|] == data;
  }

  /** In a dataset, the codes listed so far are those of exactly the listed locations. */
  lemma CodeIdentifies(data: seq<Location>, listed: seq<Location>, l: Location)
    requires ValidDataset(data) && l in data && forall k :: k in listed ==> k in data
    ensures l.code in (set k | k in listed :: k.code) <==> l in listed
  {
    if l.code in (set k | k in listed :: k.code) {
      var k :| k in listed && k.code == l.code;
      SameCodeSameLocation(data, k, l);
    }
  }

  method Unlisted(lower: string -> string, data: seq<Location>, q: string, listed: seq<Location>)
    returns (r: seq<Location>)
    requires ValidDataset(data) && listed == OfRank(lower, data, q, 0) + OfRank(lower, data, q, 1)
    ensures r == OfRank(lower, data, q, 2)
  {
    OfRankMembers(lower, data, q, 0);
    OfRankMembers(lower, data, q, 1);
    var seen := set k | k in listed :: k.code;
    r := [];
    for i := 0 to |data|
      invariant r == OfRank(lower, data[..i], q, 2)
    {
      assert data[..i + 1][..i] == data[..i];
      CodeIdentifies(data, listed, data[i]);
      if data[i].code !in seen && Matches(lower, data[i], q) {
        r := r + [data[i]];
      }
    }
    assert data[..|data|] == data;
  }

  lemma {:induction false} NoCodeRanks(lower: string -> string, data: seq<Location>, q: string)
    requires !CodeLike(q)
    ensures OfRank(lower, data, q, 0) == [] && OfRank(lower, data, q, 1) == []
  {
    if data == [] {
    } else {
      NoCodeRanks(lower, data[..|data| - 1], q);
    }
  }

  /** The lookup by code: the one location that has it, if any. */
  method ExactCode(lower: string -> string, data: seq<Location>, q: string) returns (r: seq<Location>)
    requires LowerLike(lower) && ValidDataset(data) && CodeLike(q)
    ensures r == OfRank(lower, data, q, 0)
  {
    r := [];
    for i := 0 to |data|
      invariant r == OfRank(lower, data[..i], q, 0)
    {
      assert data[..i + 1][..i] == data[..i];
      if data[i].code == q {
        CodePrefixMatches(lower, data[i], q);
        r := r + [data[i]];
      }
    }
    assert data[..|data|] == data;
  }

  /** What _validated_params asks of an airport code: the best match has that very code. */
  predicate AcceptsCode(lower: string -> string, data: seq<Location>, code: string) {
    var matches := if Strip(code) == "" then [] else Truncated(Ranked(lower, data, Strip(code)), 1);
    matches != [] && matches[0].code == code
  }

  lemma StripKeepsCode(code: string)
    requires |code| == 3 && forall k :: 0 <= k < 3 ==> IsUpper(code[k])
    ensures Strip(code) == code
  {
  }

  /** An airport code is accepted if and only if it is in the dataset. */
  lemma AcceptsExactlyTheDataset(lower: string -> string, data: seq<Location>, code: string)
    requires LowerLike(lower) && ValidDataset(data)
    ensures AcceptsCode(lower, data, code) <==> exists l :: l in data && l.code == code
  {
    RankedLookup(lower, data, Strip(code));
    if l :| l in data && l.code == code {
      StripKeepsCode(code);
    }
    if AcceptsCode(lower, data, code) {
      RankedMembers(lower, data, Strip(code), Ranked(lower, data, Strip(code))[0]);
    }
  }
}
