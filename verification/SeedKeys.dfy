/** The search parameters, the key text that is hashed into a seed, and the offer ids that
    embed the seed (app/providers/mock.py). Dates are their ISO texts. */
module SeedKeys {
  import opened Digits
  import opened Sorting
  import opened Text
  import opened Wrappers

  datatype Params = Params(
    origin: string,
    destination: string,
    departure: string,
    return_: Option<string>,
    passengers: seq<string>,
    serviceClass: string)

  function ReturnText(p: Params): string {
    if p.return_.Some? then p.return_.value else ""
  }

  function KeyFields(p: Params): seq<string> {
    [p.origin, p.destination, p.departure, ReturnText(p), Join(',', Sort(p.passengers)), p.serviceClass]
  }

  /** The text hashed by _seed_for. */
  function SeedKey(p: Params): string {
    Join('|', KeyFields(p))
  }

  /** The text, spelled out: the passenger types in ascending order between commas, and the
      fields between bars, with nothing for a missing return date. */
  lemma SeedKeyText(p: Params)
    ensures SeedKey(p) == p.origin + "|" + p.destination + "|" + p.departure + "|"
                          + (if p.return_ == None then "" else p.return_.value) + "|"
                          + Join(',', Sort(p.passengers)) + "|" + p.serviceClass
    ensures Sorted(Sort(p.passengers)) && multiset(Sort(p.passengers)) == multiset(p.passengers)
  {
    SortSorts(p.passengers);
    var types := Join(',', Sort(p.passengers));
    JoinAppend('|', [p.origin], p.destination);
    JoinAppend('|', [p.origin, p.destination], p.departure);
    JoinAppend('|', [p.origin, p.destination, p.departure], ReturnText(p));
    JoinAppend('|', [p.origin, p.destination, p.departure, ReturnText(p)], types);
    JoinAppend('|', [p.origin, p.destination, p.departure, ReturnText(p), types], p.serviceClass);
    assert [p.origin] + [p.destination] == [p.origin, p.destination];
    assert [p.origin, p.destination] + [p.departure] == [p.origin, p.destination, p.departure];
    assert [p.origin, p.destination, p.departure] + [ReturnText(p)]
        == [p.origin, p.destination, p.departure, ReturnText(p)];
    assert [p.origin, p.destination, p.departure, ReturnText(p)] + [types]
        == [p.origin, p.destination, p.departure, ReturnText(p), types];
    assert [p.origin, p.destination, p.departure, ReturnText(p), types] + [p.serviceClass] == KeyFields(p);
    assert ['|'] == "|" && (p.return_ == None ==> ReturnText(p) == "");
  }

  /** No field contains a separator; a passenger type and a return date are not empty texts. */
  predicate Clean(p: Params) {
    && '|' !in p.origin && '|' !in p.destination && '|' !in p.departure && '|' !in p.serviceClass
    && (p.return_.Some? ==> p.return_.value != "" && '|' !in p.return_.value)
    && Free('|', p.passengers) && Free(',', p.passengers) && "" !in p.passengers
  }

  /** What the offers of a search depend on: everything but the passengers. */
  datatype Itinerary = Itinerary(
    origin: string, destination: string, departure: string, return_: Option<string>, serviceClass: string)

  function ItineraryOf(p: Params): Itinerary {
    Itinerary(p.origin, p.destination, p.departure, p.return_, p.serviceClass)
  }

  lemma {:induction false} JoinKeepsFree(c: char, separator: char, parts: seq<string>)
    requires Free(c, parts) && c != separator
    ensures c !in Join(separator, parts)
  {
    if |parts| < 2 {
    } else {
      JoinKeepsFree(c, separator, parts[..|parts| - 1]);
    }
  }

  lemma SortedPassengers(p: Params)
    requires Clean(p)
    ensures Free(',', Sort(p.passengers)) && "" !in Sort(p.passengers)
    ensures '|' !in Join(',', Sort(p.passengers))
  {
    SortSorts(p.passengers);
    var sorted := Sort(p.passengers);
    forall i | 0 <= i < |sorted| ensures sorted[i] in p.passengers {
      assert sorted[i] in multiset(sorted);
    }
    JoinKeepsFree('|', ',', sorted);
  }

  /** Two searches hash the same text exactly when they agree on the route, the dates, the
      class, and on how many passengers of each type they have, in whatever order. */
  lemma SeedKeyInjective(p: Params, q: Params)
    requires Clean(p) && Clean(q)
    ensures SeedKey(p) == SeedKey(q) <==>
              ItineraryOf(p) == ItineraryOf(q) && multiset(p.passengers) == multiset(q.passengers)
  {
    SortedPassengers(p);
    SortedPassengers(q);
    JoinInjective('|', KeyFields(p), KeyFields(q));
    JoinInjective(',', Sort(p.passengers), Sort(q.passengers));
    SortEqualIffSameElements(p.passengers, q.passengers);
    assert KeyFields(p) == KeyFields(q) <==>
           p.origin == q.origin && p.destination == q.destination && p.departure == q.departure
           && ReturnText(p) == ReturnText(q) && Join(',', Sort(p.passengers)) == Join(',', Sort(q.passengers))
           && p.serviceClass == q.serviceClass by {
      if KeyFields(p) == KeyFields(q) {
        assert forall i :: 0 <= i < 6 ==> KeyFields(p)[i] == KeyFields(q)[i];
        assert KeyFields(p)[0] == p.origin && KeyFields(p)[1] == p.destination && KeyFields(p)[2] == p.departure;
        assert KeyFields(p)[3] == ReturnText(p) && KeyFields(p)[4] == Join(',', Sort(p.passengers));
        assert KeyFields(p)[5] == p.serviceClass;
      }
    }
  }

  // ---------------------------------------------------------------- offer ids

  predicate IsSeed(seed: string) {
    |seed| == 12 && forall i :: 0 <= i < 12 ==> '0' <= seed[i] <= '9' || 'a' <= seed[i] <= 'f'
  }

  /** A seed is twelve of the sixteen hexadecimal digits, in lower case. */
  lemma SeedExactly(seed: string)
    ensures IsSeed(seed) <==> |seed| == 12 && forall c :: c in seed ==> c in "0123456789abcdef"
  {
    forall c: char ensures '0' <= c <= '9' || 'a' <= c <= 'f' <==> c in "0123456789abcdef" {
      HexDigit(c);
    }
    if IsSeed(seed) {
      forall c | c in seed ensures c in "0123456789abcdef" {
        var i :| 0 <= i < |seed| && seed[i] == c;
      }
    }
    if |seed| == 12 && forall c :: c in seed ==> c in "0123456789abcdef" {
      forall i | 0 <= i < 12 ensures '0' <= seed[i] <= '9' || 'a' <= seed[i] <= 'f' {
        assert seed[i] in seed;
      }
    }
  }

  lemma HexDigit(c: char)
    ensures '0' <= c <= '9' || 'a' <= c <= 'f' <==> c in "0123456789abcdef"
  {
    var digits := "0123456789abcdef";
    if '0' <= c <= '9' {
      assert digits[c as int - '0' as int] == c;
    } else if 'a' <= c <= 'f' {
      assert digits[c as int - 'a' as int + 10] == c;
    }
  }

  function OfferId(seed: string, index: nat): string {
    "of_" + seed + Padded(index, 2)
  }

  /** The regular expression of an offer id, matched against the whole text. Its last two
      characters are decimal digits of any script. */
  function ParseOfferId(id: string): Option<(string, nat)> {
    if |id| == 17 && id[..3] == "of_" && IsSeed(id[3..15]) && IsNumeral(id[15..])
    then Some((id[3..15], Value(id[15..])))
    else None
  }

  /** Parsing undoes printing for every index that two digits can print. */
  lemma ParsePrint(seed: string, index: nat)
    requires IsSeed(seed) && index < 100
    ensures ParseOfferId(OfferId(seed, index)) == Some((seed, index))
  {
    var id := OfferId(seed, index);
    assert Pow10(2) == 100;
    ValueOfPadded(index, 2);
    assert id[..3] == "of_" && id[3..15] == seed && id[15..] == Padded(index, 2);
  }

  /** Printing undoes parsing exactly when the two digits are ASCII: a text with other digits
      is matched too, and parsed to the same number, but is not the id of that offer. */
  lemma PrintParse(id: string)
    requires ParseOfferId(id).Some?
    ensures IsSeed(ParseOfferId(id).value.0) && ParseOfferId(id).value.1 < 100
    ensures OfferId(ParseOfferId(id).value.0, ParseOfferId(id).value.1) == id <==> AllAscii(id[15..])
  {
    var digits, seed := id[15..], id[3..15];
    PaddedOfValue(digits);
    assert Pow10(2) == 100;
    assert id == "of_" + seed + digits;
    var printed := OfferId(seed, Value(digits));
    assert printed[15..] == Padded(Value(digits), 2);
  }

  /** Such a text: the first offer but one of any search, asked for in Arabic-Indic digits. */
  lemma ForeignDigitsParse(seed: string)
    requires IsSeed(seed)
    ensures var id := "of_" + seed + "\U{0660}\U{0661}";
            ParseOfferId(id) == Some((seed, 1)) && OfferId(seed, 1) != id
  {
    var id := "of_" + seed + "\U{0660}\U{0661}";
    ArabicIndicDigits('\U{0660}');
    ArabicIndicDigits('\U{0661}');
    var digits := id[15..];
    assert digits == ['\U{0660}', '\U{0661}'] && id[3..15] == seed && id[..3] == "of_";
    var first := digits[..1];
    assert first == ['\U{0660}'] && first[..0] == "" && IsNumeral(first);
    assert Value(first) == Value("") * 10 + 0;
    assert DigitValue(digits[1]) == Some(1) && Value(digits) == Value(first) * 10 + 1;
    PrintParse(id);
    assert !IsDigit(digits[0]);
  }
}
