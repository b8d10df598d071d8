/** The mock provider (app/providers/mock.py): offers are rebuilt from a seed and remembered
    parameters, never stored. The hash and the random draws are arbitrary functions. */
module Provider {
  import opened Digits
  import opened SeedKeys
  import opened Text
  import opened Wrappers

  const MAX_REMEMBERED_SEEDS := 1024

  /** One offer as drawn from the generator, before it is ranked and numbered. Prices are in cents. */
  datatype Drawn = Drawn(price: int, seats: nat, details: string)

  datatype Allowance = Allowance(kg: nat, pieces: nat)

  datatype Offer = Offer(id: string, itinerary: Itinerary, price: int, seats: nat, checked: Allowance, details: string)

  datatype FareFamily = FareFamily(
    name: string,
    price: int,
    refundable: bool,
    exchangeable: bool,
    checked: Allowance,
    seats: nat,
    rules: seq<string>)

  datatype Detail = Detail(offer: Offer, families: seq<FareFamily>, rules: seq<string>, expires: int)

  const NO_CHECKED_BAGGAGE_BELOW := 250_00

  /** Cheaper fares carry no checked bag. */
  function CheckedBag(price: int): Allowance {
    if price < NO_CHECKED_BAGGAGE_BELOW then Allowance(0, 0) else Allowance(20, 1)
  }

  function AtLeastOne(seats: int): nat {
    if seats > 1 then seats else 1
  }

  /** The one allowance is at least the other. */
  predicate NoLess(a: Allowance, b: Allowance) {
    a.kg <= b.kg && a.pieces <= b.pieces
  }

  function InsertByPrice(s: seq<Drawn>, x: Drawn): seq<Drawn> {
    if s == [] || s[|s| - 1].price <= x.price then s + [x]
    else InsertByPrice(s[..|s| - 1], x) + [s[|s| - 1]]
  }

  /** offers.sort by price: stable. */
  function SortByPrice(s: seq<Drawn>): seq<Drawn> {
    if s == [] then [] else InsertByPrice(SortByPrice(s[..|s| - 1]), s[|s| - 1])
  }

  predicate Ascending(s: seq<Drawn>) {
    forall i, j :: 0 <= i < j < |s| ==> s[i].price <= s[j].price
  }

  lemma {:induction false} InsertByPriceBounded(s: seq<Drawn>, x: Drawn, bound: int)
    requires x.price <= bound && forall i :: 0 <= i < |s| ==> s[i].price <= bound
    ensures forall i :: 0 <= i < |InsertByPrice(s, x)| ==> InsertByPrice(s, x)[i].price <= bound
  {
    if s == [] {
    } else {
      InsertByPriceBounded(s[..|s| - 1], x, bound);
    }
  }

  lemma AppendGreatest(s: seq<Drawn>, x: Drawn)
    requires Ascending(s) && forall i :: 0 <= i < |s| ==> s[i].price <= x.price
    ensures Ascending(s + [x]) && multiset(s + [x]) == multiset(s) + multiset{x}
  {
  }

  lemma {:induction false} InsertByPriceSorts(s: seq<Drawn>, x: Drawn)
    requires Ascending(s)
    ensures Ascending(InsertByPrice(s, x)) && |InsertByPrice(s, x)| == |s| + 1
    ensures multiset(InsertByPrice(s, x)) == multiset(s) + multiset{x}
  {
    if s == [] || s[|s| - 1].price <= x.price {
      AppendGreatest(s, x);
    } else {
      var init, last := s[..|s| - 1], s[|s| - 1];
      assert s == init + [last];
      InsertByPriceSorts(init, x);
      InsertByPriceBounded(init, x, last.price);
      AppendGreatest(InsertByPrice(init, x), last);
    }
  }

  /** Offers come in ascending price, and none is lost or made up. */
  lemma {:induction false} SortByPriceSorts(s: seq<Drawn>)
    ensures Ascending(SortByPrice(s)) && |SortByPrice(s)| == |s| && multiset(SortByPrice(s)) == multiset(s)
  {
    if s == [] {
    } else {
      var init, last := s[..|s| - 1], s[|s| - 1];
      SortByPriceSorts(init);
      InsertByPriceSorts(SortByPrice(init), last);
      LastSplitsOff(s);
    }
  }

  lemma LastSplitsOff(s: seq<Drawn>)
    requires s != []
    ensures multiset(s) == multiset(s[..|s| - 1]) + multiset{s[|s| - 1]}
  {
    assert s == s[..|s| - 1] + [s[|s| - 1]];
  }

  /** The offers at this price, in order. */
  function OfPrice(s: seq<Drawn>, price: int): seq<Drawn> {
    if s == [] then []
    else
      var last, rest := s[|s| - 1], OfPrice(s[..|s| - 1], price);
      if last.price == price then rest + [last] else rest
  }

  lemma OfPriceAppend(s: seq<Drawn>, x: Drawn, price: int)
    ensures OfPrice(s + [x], price) == if x.price == price then OfPrice(s, price) + [x] else OfPrice(s, price)
  {
    assert (s + [x])[..|s|] == s;
  }

  lemma {:induction false} InsertIsStable(s: seq<Drawn>, x: Drawn, price: int)
    ensures OfPrice(InsertByPrice(s, x), price) == OfPrice(s + [x], price)
  {
    if s == [] || s[|s| - 1].price <= x.price {
    } else {
      var init, last := s[..|s| - 1], s[|s| - 1];
      assert s == init + [last] && InsertByPrice(s, x) == InsertByPrice(init, x) + [last];
      InsertIsStable(init, x, price);
      OfPriceAppend(InsertByPrice(init, x), last, price);
      OfPriceAppend(init, x, price);
      OfPriceAppend(s, x, price);
      OfPriceAppend(init, last, price);
    }
  }

  /** The sort is stable: offers at one price stay in the order in which they were drawn. */
  lemma {:induction false} SortIsStable(s: seq<Drawn>, price: int)
    ensures OfPrice(SortByPrice(s), price) == OfPrice(s, price)
  {
    if s == [] {
    } else {
      var init, last := s[..|s| - 1], s[|s| - 1];
      SortIsStable(init, price);
      InsertIsStable(SortByPrice(init), last, price);
      OfPriceAppend(SortByPrice(init), last, price);
    }
  }

  /** The same offers, ascending in price, and in the order drawn where prices are equal. */
  ghost predicate RankedFrom(ranked: seq<Drawn>, drawn: seq<Drawn>) {
    && multiset(ranked) == multiset(drawn)
    && (forall price :: OfPrice(ranked, price) == OfPrice(drawn, price))
    && (forall i, j :: 0 <= i < j < |ranked| ==> ranked[i].price <= ranked[j].price)
  }

  lemma SortRanks(drawn: seq<Drawn>)
    ensures RankedFrom(SortByPrice(drawn), drawn)
  {
    SortByPriceSorts(drawn);
    forall price ensures OfPrice(SortByPrice(drawn), price) == OfPrice(drawn, price) {
      SortIsStable(drawn, price);
    }
  }

  class MockProvider {
    const hash: string -> string
    const draw: (string, Itinerary) -> seq<Drawn>
    const upper: string -> string           // str.upper
    const extras: string -> (int, int)      // what STANDARD and FLEX cost more, per seed
    const rulesOf: string -> seq<string>    // _fare_rules
    const ttl: nat                          // search_session_ttl_seconds, in microseconds
    var seeds: map<string, Params>

    /** The normalized parameters of every search so far. */
    ghost var searched: set<Params>

    /** search_offers strips the codes and maps them to upper case. */
    function Normalized(p: Params): Params {
      p.(origin := upper(Strip(p.origin)), destination := upper(Strip(p.destination)))
    }

    function ToOffer(id: string, itinerary: Itinerary, drawn: Drawn): Offer {
      Offer(id, itinerary, drawn.price, drawn.seats, CheckedBag(drawn.price), drawn.details)
    }

    /** _enrich */
    function Enrich(offer: Offer, seed: string, now: int): Detail {
      var (standard, flex) := extras(seed);
      var class_ := offer.itinerary.serviceClass;
      var families := [
        FareFamily(class_ + " LITE", offer.price, false, false, offer.checked, offer.seats, rulesOf(seed + ":lite")),
        FareFamily(class_ + " STANDARD", offer.price + standard, true, true, Allowance(20, 1),
                   AtLeastOne(offer.seats - 1), rulesOf(seed + ":standard")),
        FareFamily(class_ + " FLEX", offer.price + flex, true, true, Allowance(23, 2),
                   AtLeastOne(offer.seats - 2), rulesOf(seed + ":flex"))];
      Detail(offer, families, families[1].rules, now + ttl)
    }

    /** Fare families go up: each costs more than the one before it and allows no less baggage,
        all of them have seats, and the cheapest is the offer itself. */
    predicate GoUp(d: Detail) {
      && |d.families| == 3 && d.families[0].price == d.offer.price && d.rules == d.families[1].rules
      && (forall i :: 1 <= i < 3 ==>
            d.families[i - 1].price < d.families[i].price && NoLess(d.families[i - 1].checked, d.families[i].checked)
            && d.families[i].seats <= d.families[i - 1].seats)
      && (forall i :: 0 <= i < 3 ==> d.families[i].seats >= 1)
    }

    /** The three fare families, one by one. */
    predicate FamiliesOf(d: Detail, standard: int, flex: int) {
      && |d.families| == 3
      && d.families[0] == FareFamily(d.offer.itinerary.serviceClass + " LITE", d.offer.price, false, false,
                                     d.offer.checked, d.offer.seats, d.families[0].rules)
      && d.families[1] == FareFamily(d.offer.itinerary.serviceClass + " STANDARD", d.offer.price + standard, true, true,
                                     Allowance(20, 1), if d.offer.seats >= 2 then d.offer.seats - 1 else 1, d.rules)
      && d.families[2] == FareFamily(d.offer.itinerary.serviceClass + " FLEX", d.offer.price + flex, true, true,
                                     Allowance(23, 2), if d.offer.seats >= 3 then d.offer.seats - 2 else 1,
                                     d.families[2].rules)
    }

    lemma EnrichedFamilies(offer: Offer, seed: string, now: int)
      ensures FamiliesOf(Enrich(offer, seed, now), extras(seed).0, extras(seed).1)
      ensures var d := Enrich(offer, seed, now);
              d.families[0].rules == rulesOf(seed + ":lite") && d.rules == rulesOf(seed + ":standard")
              && d.families[2].rules == rulesOf(seed + ":flex")
    {
    }

    /** What _enrich adds, for any offer of a search; only the expiry depends on the time. */
    lemma EnrichedGoesUp(p: Params, offer: Offer, seed: string, now: int, later: int)
      requires WellFormed() && offer in OffersOf(p)
      ensures Enrich(offer, seed, now).offer == offer && GoUp(Enrich(offer, seed, now))
      ensures Enrich(offer, seed, later) == Enrich(offer, seed, now).(expires := later + ttl)
    {
      var drawn := SortByPrice(draw(hash(SeedKey(p)), ItineraryOf(p)));
      SortByPriceSorts(draw(hash(SeedKey(p)), ItineraryOf(p)));
      var i :| 0 <= i < |drawn| && offer == OffersOf(p)[i];
      assert drawn[i] in multiset(drawn);
      assert drawn[i] in draw(hash(SeedKey(p)), ItineraryOf(p));
    }

    /** _build_offers */
    function Build(seed: string, itinerary: Itinerary): (offers: seq<Offer>)
      ensures |offers| == |SortByPrice(draw(seed, itinerary))|
      ensures forall i :: 0 <= i < |offers| ==> offers[i].id == OfferId(seed, i) && offers[i].itinerary == itinerary
    {
      var drawn := SortByPrice(draw(seed, itinerary));
      seq(|drawn|, i requires 0 <= i < |drawn| => ToOffer(OfferId(seed, i), itinerary, drawn[i]))
    }

    /** The offers as they were drawn. */
    function Bare(offers: seq<Offer>): seq<Drawn> {
      seq(|offers|, i requires 0 <= i < |offers| => Drawn(offers[i].price, offers[i].seats, offers[i].details))
    }

    /** What a search for normalized parameters returns. */
    function OffersOf(p: Params): seq<Offer> {
      Build(hash(SeedKey(p)), ItineraryOf(p))
    }

    /** The digest prints seeds, a search draws five to twelve offers with seats left, and fare
        families cost more by amounts from disjoint ranges. */
    ghost predicate WellFormed() {
      && (forall text :: IsSeed(hash(text)))
      && (forall seed, itinerary :: 5 <= |draw(seed, itinerary)| <= 12)
      && (forall seed, itinerary, d :: d in draw(seed, itinerary) ==> 1 <= d.seats <= 9)
      && (forall seed :: 45_00 <= extras(seed).0 <= 80_00 && 110_00 <= extras(seed).1 <= 180_00)
    }

    /** Searches with one seed were for one itinerary. */
    ghost predicate Coherent(searches: set<Params>) {
      forall p, q :: p in searches && q in searches && hash(SeedKey(p)) == hash(SeedKey(q)) ==>
        ItineraryOf(p) == ItineraryOf(q)
    }

    /** Some search has returned the offer. */
    ghost predicate Returned(searches: set<Params>, o: Offer) {
      exists p :: p in searches && o in OffersOf(p)
    }

    /** No two offers ever returned share an id. */
    ghost predicate OneOfferPerId(searches: set<Params>) {
      forall a, b :: Returned(searches, a) && Returned(searches, b) && a.id == b.id ==> a == b
    }

    /** The memory after one more search. */
    function Remember(memory: map<string, Params>, seed: string, p: Params): map<string, Params> {
      if |memory| >= MAX_REMEMBERED_SEEDS then map[seed := p] else memory[seed := p]
    }

    /** Every remembered search was made, and hashes to its seed. */
    ghost predicate Remembered(memory: map<string, Params>, searches: set<Params>) {
      forall seed :: seed in memory ==> memory[seed] in searches && hash(SeedKey(memory[seed])) == seed
    }

    ghost predicate Valid()
      reads this
    {
      WellFormed() && |seeds| <= MAX_REMEMBERED_SEEDS && Remembered(seeds, searched)
    }

    constructor (hash: string -> string, draw: (string, Itinerary) -> seq<Drawn>, upper: string -> string,
                 extras: string -> (int, int), rulesOf: string -> seq<string>, ttl: nat)
      requires forall text :: IsSeed(hash(text))
      requires forall seed, itinerary :: 5 <= |draw(seed, itinerary)| <= 12
      requires forall seed, itinerary, d :: d in draw(seed, itinerary) ==> 1 <= d.seats <= 9
      requires forall seed :: 45_00 <= extras(seed).0 <= 80_00 && 110_00 <= extras(seed).1 <= 180_00
      ensures Valid() && seeds == map[] && searched == {}
      ensures this.hash == hash && this.draw == draw && this.upper == upper
      ensures this.extras == extras && this.rulesOf == rulesOf && this.ttl == ttl
    {
      this.hash, this.draw, this.upper := hash, draw, upper;
      this.extras, this.rulesOf, this.ttl := extras, rulesOf, ttl;
      seeds, searched := map[], {};
    }

    /** search_offers */
    method SearchOffers(params: Params) returns (offers: seq<Offer>)
      requires Valid()
      modifies this
      ensures Valid() && searched == old(searched) + {Normalized(params)}
      ensures offers == OffersOf(Normalized(params)) && forall o :: o in offers ==> Returned(searched, o)
      ensures DrawnFor(offers, SeedOf(params),
                       Itinerary(upper(Strip(params.origin)), upper(Strip(params.destination)),
                                 params.departure, params.return_, params.serviceClass))
      ensures seeds == Remember(old(seeds), hash(SeedKey(Normalized(params))), Normalized(params))
    {
      var p := Normalized(params);
      var seed := hash(SeedKey(p));
      searched := searched + {p};
      RememberSeed(seed, p);
      offers := Build(seed, ItineraryOf(p));
      OffersAreDrawn(seed, ItineraryOf(p));
    }

    /** The seed of a search: the digest of its key text, with the codes stripped and in upper case. */
    function SeedOf(params: Params): string {
      hash(SeedKey(params.(origin := upper(Strip(params.origin)), destination := upper(Strip(params.destination)))))
    }

    /** The offers are those drawn for the itinerary under the seed, ascending in price and in the
        order drawn where prices are equal, numbered from zero, the cheaper ones without a bag. */
    ghost predicate DrawnFor(offers: seq<Offer>, seed: string, itinerary: Itinerary) {
      RankedFrom(Bare(offers), draw(seed, itinerary)) && Numbered(offers, seed, itinerary)
    }

    /** Each offer has the number of its place in its id, the itinerary, and its bag. */
    predicate Numbered(offers: seq<Offer>, seed: string, itinerary: Itinerary) {
      forall i :: 0 <= i < |offers| ==>
        && i < 100 && ParseOfferId(offers[i].id) == Some((seed, i))
        && offers[i].itinerary == itinerary
        && offers[i].checked == if offers[i].price < 250_00 then Allowance(0, 0) else Allowance(20, 1)
    }

    lemma BareOffersAreSorted(seed: string, itinerary: Itinerary)
      ensures Bare(Build(seed, itinerary)) == SortByPrice(draw(seed, itinerary))
    {
    }

    lemma OffersAreDrawn(seed: string, itinerary: Itinerary)
      requires WellFormed() && IsSeed(seed)
      ensures DrawnFor(Build(seed, itinerary), seed, itinerary)
    {
      BareOffersAreSorted(seed, itinerary);
      SortRanks(draw(seed, itinerary));
      OffersAreNumbered(seed, itinerary);
    }

    lemma OffersAreNumbered(seed: string, itinerary: Itinerary)
      requires WellFormed() && IsSeed(seed)
      ensures Numbered(Build(seed, itinerary), seed, itinerary)
    {
      var offers := Build(seed, itinerary);
      SortByPriceSorts(draw(seed, itinerary));
      forall i | 0 <= i < |offers| ensures i < 100 && ParseOfferId(offers[i].id) == Some((seed, i)) {
        ParsePrint(seed, i);
      }
    }

    /** _remember_seed: the memory is bounded by forgetting everything when it is full. */
    method RememberSeed(seed: string, p: Params)
      requires |seeds| <= MAX_REMEMBERED_SEEDS
      modifies this`seeds
      ensures |seeds| <= 1024 && seed in seeds && seeds[seed] == p
      ensures seeds == if |old(seeds)| >= 1024 then map[seed := p] else old(seeds)[seed := p]
      ensures seeds == Remember(old(seeds), seed, p)
    {
      if |seeds| >= MAX_REMEMBERED_SEEDS {
        seeds := map[];
      }
      assert seeds.Keys + {seed} == seeds[seed := p].Keys;
      seeds := seeds[seed := p];
      assert |seeds| == |seeds.Keys|;
    }

    /** get_offer_detail: none when the seed is forgotten, and otherwise an offer that some search
        has returned, the only one under its id if the searches are coherent, with fare families
        that go up and an expiry counted from now. The id asked for is the id of that offer exactly
        when its last two digits are ASCII. */
    method GetOfferDetail(id: string, now: int) returns (r: Option<Detail>)
      requires Valid()
      ensures r.Some? ==> Returned(searched, r.value.offer) && GoUp(r.value) && r.value.expires == now + ttl
      ensures r.Some? && Coherent(searched) ==>
                forall o :: Returned(searched, o) && o.id == r.value.offer.id ==> o == r.value.offer
      ensures r.Some? ==> |id| == 17 && (r.value.offer.id == id <==> AllAscii(id[15..]))
      ensures match ParseOfferId(id)
              case None => r.None?
              case Some((seed, index)) =>
                if seed in seeds && index < |draw(seed, ItineraryOf(seeds[seed]))|
                then r.Some? && r.value.offer.id == OfferId(seed, index)
                     && r.value == Enrich(r.value.offer, seed, now)
                     && FamiliesOf(r.value, extras(seed).0, extras(seed).1)
                     && r.value.offer.itinerary == ItineraryOf(seeds[seed])
                else r.None?
    {
      var parsed := ParseOfferId(id);
      if parsed.None? {
        return None;
      }
      var (seed, index) := parsed.value;
      if seed !in seeds {
        return None;
      }
      var offers := Build(seed, ItineraryOf(seeds[seed]));
      SortByPriceSorts(draw(seed, ItineraryOf(seeds[seed])));
      if index >= |offers| {
        return None;
      }
      PrintParse(id);
      assert offers[index] in OffersOf(seeds[seed]);
      EnrichedGoesUp(seeds[seed], offers[index], seed, now, now);
      EnrichedFamilies(offers[index], seed, now);
      r := Some(Enrich(offers[index], seed, now));
      if Coherent(searched) {
        CoherentMeansOneOfferPerId(searched);
      }
    }

    lemma SameIdSameOffer(searches: set<Params>, p: Params, q: Params, i: nat, j: nat)
      requires WellFormed() && Coherent(searches) && p in searches && q in searches
      requires i < |OffersOf(p)| && j < |OffersOf(q)| && OffersOf(p)[i].id == OffersOf(q)[j].id
      ensures OffersOf(p)[i] == OffersOf(q)[j]
    {
      SortByPriceSorts(draw(hash(SeedKey(p)), ItineraryOf(p)));
      SortByPriceSorts(draw(hash(SeedKey(q)), ItineraryOf(q)));
      ParsePrint(hash(SeedKey(p)), i);
      ParsePrint(hash(SeedKey(q)), j);
    }

    lemma CoherentMeansOneOfferPerId(searches: set<Params>)
      requires WellFormed() && Coherent(searches)
      ensures OneOfferPerId(searches)
    {
      forall a, b | Returned(searches, a) && Returned(searches, b) && a.id == b.id ensures a == b {
        var p :| p in searches && a in OffersOf(p);
        var q :| q in searches && b in OffersOf(q);
        var i :| 0 <= i < |OffersOf(p)| && OffersOf(p)[i] == a;
        var j :| 0 <= j < |OffersOf(q)| && OffersOf(q)[j] == b;
        SameIdSameOffer(searches, p, q, i, j);
      }
    }

    /** Ids identify the offers of a run exactly when no two of its itineraries share a seed. */
    lemma OneOfferPerIdIffCoherent(searches: set<Params>)
      requires WellFormed()
      ensures OneOfferPerId(searches) <==> Coherent(searches)
    {
      if Coherent(searches) {
        CoherentMeansOneOfferPerId(searches);
      } else {
        var p, q :| p in searches && q in searches && hash(SeedKey(p)) == hash(SeedKey(q))
                    && ItineraryOf(p) != ItineraryOf(q);
        SortByPriceSorts(draw(hash(SeedKey(p)), ItineraryOf(p)));
        SortByPriceSorts(draw(hash(SeedKey(q)), ItineraryOf(q)));
        var a, b := OffersOf(p)[0], OffersOf(q)[0];
        assert a in OffersOf(p) && b in OffersOf(q);
        assert Returned(searches, a) && Returned(searches, b) && a.id == b.id && a != b;
      }
    }

    /** Searches are coherent when their fields are free of separators and their key texts do
        not collide in the digits of the digest that a seed keeps. */
    lemma CleanSearchesAreCoherent(searches: set<Params>)
      requires forall p :: p in searches ==> Clean(p)
      requires forall p, q :: p in searches && q in searches && hash(SeedKey(p)) == hash(SeedKey(q)) ==>
                 SeedKey(p) == SeedKey(q)
      ensures Coherent(searches)
    {
      forall p, q | p in searches && q in searches && hash(SeedKey(p)) == hash(SeedKey(q))
        ensures ItineraryOf(p) == ItineraryOf(q)
      {
        SeedKeyInjective(p, q);
      }
    }
  }
}
