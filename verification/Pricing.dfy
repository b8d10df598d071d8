/** Per-passenger pricing (app/services/booking.py). Amounts in major currency units are
    exact reals, as Decimal is; a quantized amount is an integer number of cents. */
module Pricing {
  import opened Enums

  /** quantize(0.01, ROUND_HALF_UP), in cents: ties go away from zero. */
  function HalfUpCents(amount: real): int {
    if amount >= 0.0 then (amount * 100.0 + 0.5).Floor else -((-amount * 100.0 + 0.5).Floor)
  }

  function Multiplier(kind: PassengerType): real {
    match kind
    case Adult => 1.0
    case Child => 0.75
    case Infant => 0.1
  }

  function PaxFare(base: real, kind: PassengerType): int {
    HalfUpCents(base * Multiplier(kind))
  }

  function SumFares(base: real, pax: seq<PassengerType>): int {
    if pax == [] then 0 else SumFares(base, pax[..|pax| - 1]) + PaxFare(base, pax[|pax| - 1])
  }

  /** The order total: the fares summed, then quantized once more. */
  function OrderTotal(base: real, pax: seq<PassengerType>): int {
    HalfUpCents(SumFares(base, pax) as real / 100.0)
  }

  /** What the passengers cost before any rounding, in cents. */
  function ExactCents(base: real, pax: seq<PassengerType>): real {
    if pax == [] then 0.0
    else ExactCents(base, pax[..|pax| - 1]) + base * Multiplier(pax[|pax| - 1]) * 100.0
  }

  /** How many passengers travel on a discounted, hence possibly rounded, fare. */
  function Discounted(pax: seq<PassengerType>): nat {
    if pax == [] then 0
    else Discounted(pax[..|pax| - 1]) + if pax[|pax| - 1] == Adult then 0 else 1
  }

  predicate WholeCents(base: real) {
    (base * 100.0).Floor as real == base * 100.0
  }

  lemma HalfUpNearest(amount: real)
    ensures -0.5 <= HalfUpCents(amount) as real - amount * 100.0 <= 0.5
  {
  }

  lemma HalfUpMonotone(a: real, b: real)
    requires a <= b
    ensures HalfUpCents(a) <= HalfUpCents(b)
  {
    if 0.0 <= a {
      assert a * 100.0 <= b * 100.0;
    } else if b < 0.0 {
      assert -b * 100.0 <= -a * 100.0;
    }
  }

  lemma HalfUpExact(cents: int)
    ensures HalfUpCents(cents as real / 100.0) == cents
  {
    var amount := cents as real / 100.0;
    assert amount * 100.0 == cents as real;
    assert -amount * 100.0 == (-cents) as real;
  }

  /** The final quantize never changes the sum of quantized fares. */
  lemma TotalNeedsNoRounding(base: real, pax: seq<PassengerType>)
    ensures OrderTotal(base, pax) == SumFares(base, pax)
  {
    HalfUpExact(SumFares(base, pax));
  }

  /** The fare of each passenger type times how many passengers have it. */
  function ByCount(counts: multiset<PassengerType>, adult: int, child: int, infant: int): int {
    counts[Adult] * adult + counts[Child] * child + counts[Infant] * infant
  }

  lemma ByCountAdd(counts: multiset<PassengerType>, kind: PassengerType, adult: int, child: int, infant: int)
    ensures ByCount(counts + multiset{kind}, adult, child, infant)
            == ByCount(counts, adult, child, infant)
               + match kind case Adult => adult case Child => child case Infant => infant
  {
    var fare := match kind case Adult => adult case Child => child case Infant => infant;
    assert (counts + multiset{kind})[kind] * fare == counts[kind] * fare + fare;
    assert forall other | other != kind :: (counts + multiset{kind})[other] == counts[other];
  }

  lemma {:induction false} SumFaresByCount(base: real, pax: seq<PassengerType>)
    ensures SumFares(base, pax)
            == ByCount(multiset(pax), PaxFare(base, Adult), PaxFare(base, Child), PaxFare(base, Infant))
  {
    if pax == [] {
    } else {
      var init, last := pax[..|pax| - 1], pax[|pax| - 1];
      SumFaresByCount(base, init);
      ByCountAdd(multiset(init), last, PaxFare(base, Adult), PaxFare(base, Child), PaxFare(base, Infant));
      assert pax == init + [last];
      assert multiset(pax) == multiset(init) + multiset{last};
    }
  }

  /** The total depends only on how many passengers of each type there are, not on their order. */
  lemma TotalByCount(base: real, pax: seq<PassengerType>)
    ensures OrderTotal(base, pax)
            == ByCount(multiset(pax), PaxFare(base, Adult), PaxFare(base, Child), PaxFare(base, Infant))
  {
    TotalNeedsNoRounding(base, pax);
    SumFaresByCount(base, pax);
  }

  lemma {:induction false} TotalNearExactRec(base: real, pax: seq<PassengerType>)
    requires WholeCents(base)
    ensures -0.5 * Discounted(pax) as real <= SumFares(base, pax) as real - ExactCents(base, pax)
    ensures SumFares(base, pax) as real - ExactCents(base, pax) <= 0.5 * Discounted(pax) as real
  {
    if pax == [] {
    } else {
      var init, last := pax[..|pax| - 1], pax[|pax| - 1];
      TotalNearExactRec(base, init);
      HalfUpNearest(base * Multiplier(last));
      if last == Adult {
        HalfUpExact((base * 100.0).Floor);
        assert base == (base * 100.0).Floor as real / 100.0;
        assert PaxFare(base, last) as real == base * 100.0;
      }
    }
  }

  /** A base fare in whole cents is off the exact product sum by at most half a cent for
      every child or infant. */
  lemma TotalNearExact(base: real, pax: seq<PassengerType>)
    requires WholeCents(base)
    ensures -0.5 * Discounted(pax) as real <= OrderTotal(base, pax) as real - ExactCents(base, pax)
    ensures OrderTotal(base, pax) as real - ExactCents(base, pax) <= 0.5 * Discounted(pax) as real
  {
    TotalNeedsNoRounding(base, pax);
    TotalNearExactRec(base, pax);
  }

  lemma {:induction false} TotalWithinHalfCents(base: real, pax: seq<PassengerType>)
    ensures -0.5 * |pax| as real <= SumFares(base, pax) as real - ExactCents(base, pax) <= 0.5 * |pax| as real
  {
    if pax == [] {
    } else {
      TotalWithinHalfCents(base, pax[..|pax| - 1]);
      HalfUpNearest(base * Multiplier(pax[|pax| - 1]));
    }
  }

  /** The total is off the exact product sum by at most this much, in cents. */
  predicate Near(base: real, pax: seq<PassengerType>, bound: real) {
    -bound <= OrderTotal(base, pax) as real - ExactCents(base, pax) <= bound
  }

  lemma OneAdult(base: real)
    ensures OrderTotal(base, [Adult]) == HalfUpCents(base)
    ensures ExactCents(base, [Adult]) == base * 100.0 && Discounted([Adult]) == 0
  {
    TotalNeedsNoRounding(base, [Adult]);
    assert [Adult][..0] == [];
    assert SumFares(base, [Adult]) == PaxFare(base, Adult);
  }

  /** Whatever the base fare is, the total is within half a cent per passenger of the exact
      sum. Adults cost nothing in precision, and only children and infants count, exactly when
      the base fare is in whole cents. */
  lemma RoundingError(base: real)
    ensures forall pax: seq<PassengerType> :: Near(base, pax, 0.5 * |pax| as real)
    ensures (forall pax: seq<PassengerType> :: Near(base, pax, 0.5 * Discounted(pax) as real)) <==> WholeCents(base)
  {
    forall pax: seq<PassengerType> ensures Near(base, pax, 0.5 * |pax| as real) {
      TotalNeedsNoRounding(base, pax);
      TotalWithinHalfCents(base, pax);
    }
    if WholeCents(base) {
      forall pax: seq<PassengerType> ensures Near(base, pax, 0.5 * Discounted(pax) as real) {
        TotalNearExact(base, pax);
      }
    } else {
      OneAdult(base);
      assert !Near(base, [Adult], 0.5 * Discounted([Adult]) as real);
    }
  }

  /** The nearest number of cents, a tie going away from zero. */
  predicate RoundsTo(cents: real, rounded: int) {
    if cents >= 0.0 then cents - 0.5 < rounded as real <= cents + 0.5
    else cents - 0.5 <= (rounded as real) < cents + 0.5
  }

  /** An adult pays the base price, a child three quarters of it, an infant a tenth, each rounded
      to the nearest cent, halves up. */
  lemma FaresInCents(base: real)
    ensures RoundsTo(base * 100.0, PaxFare(base, Adult))
    ensures RoundsTo(base * 75.0, PaxFare(base, Child))
    ensures RoundsTo(base * 10.0, PaxFare(base, Infant))
  {
    HalfUpRounds(base);
    HalfUpRounds(base * 0.75);
    HalfUpRounds(base * 0.1);
  }

  lemma HalfUpRounds(amount: real)
    ensures RoundsTo(amount * 100.0, HalfUpCents(amount))
  {
  }

  lemma RoundsToOne(cents: real, a: int, b: int)
    requires RoundsTo(cents, a) && RoundsTo(cents, b)
    ensures a == b
  {
  }

  /** The total of these passengers in cents, for this base price. */
  ghost predicate PricedAt(base: real, pax: seq<PassengerType>, total: int) {
    forall adult: int, child: int, infant: int ::
      RoundsTo(base * 100.0, adult) && RoundsTo(base * 75.0, child) && RoundsTo(base * 10.0, infant) ==>
        total == multiset(pax)[Adult] * adult + multiset(pax)[Child] * child + multiset(pax)[Infant] * infant
  }

  lemma TotalIsPriced(base: real, pax: seq<PassengerType>)
    ensures PricedAt(base, pax, OrderTotal(base, pax))
  {
    forall adult: int, child: int, infant: int
      | RoundsTo(base * 100.0, adult) && RoundsTo(base * 75.0, child) && RoundsTo(base * 10.0, infant)
      ensures OrderTotal(base, pax)
              == multiset(pax)[Adult] * adult + multiset(pax)[Child] * child + multiset(pax)[Infant] * infant
    {
      TotalInCents(base, pax, adult, child, infant);
    }
  }

  /** The total in figures: what the fares of the three types round to, times their counts. */
  lemma TotalInCents(base: real, pax: seq<PassengerType>, adult: int, child: int, infant: int)
    requires RoundsTo(base * 100.0, adult) && RoundsTo(base * 75.0, child) && RoundsTo(base * 10.0, infant)
    ensures var count := multiset(pax);
            OrderTotal(base, pax) == count[Adult] * adult + count[Child] * child + count[Infant] * infant
  {
    FaresInCents(base);
    RoundsToOne(base * 100.0, adult, PaxFare(base, Adult));
    RoundsToOne(base * 75.0, child, PaxFare(base, Child));
    RoundsToOne(base * 10.0, infant, PaxFare(base, Infant));
    TotalByCount(base, pax);
  }

  /** The passengers in hundredths of an adult. */
  function Hundredths(pax: seq<PassengerType>): int {
    if pax == [] then 0
    else
      Hundredths(pax[..|pax| - 1]) + match pax[|pax| - 1] case Adult => 100 case Child => 75 case Infant => 10
  }

  lemma {:induction false} HundredthsByCount(pax: seq<PassengerType>)
    ensures Hundredths(pax) == ByCount(multiset(pax), 100, 75, 10)
  {
    if pax == [] {
    } else {
      var init, last := pax[..|pax| - 1], pax[|pax| - 1];
      HundredthsByCount(init);
      ByCountAdd(multiset(init), last, 100, 75, 10);
      assert pax == init + [last];
      assert multiset(pax) == multiset(init) + multiset{last};
    }
  }

  lemma {:induction false} ExactInHundredths(base: real, pax: seq<PassengerType>)
    ensures ExactCents(base, pax) == base * Hundredths(pax) as real
  {
    if pax == [] {
    } else {
      var init, last := pax[..|pax| - 1], pax[|pax| - 1];
      ExactInHundredths(base, init);
      var weight := Hundredths(pax) - Hundredths(init);
      assert base * Multiplier(last) * 100.0 == base * weight as real;
      assert base * Hundredths(init) as real + base * weight as real == base * (Hundredths(init) + weight) as real;
    }
  }

  /** The number is within half a cent per passenger of the base times these hundredths. */
  predicate NearHundredths(total: int, base: real, hundredths: int, passengers: nat) {
    -0.5 * passengers as real <= total as real - base * hundredths as real <= 0.5 * passengers as real
  }

  lemma TotalNearHundredths(base: real, pax: seq<PassengerType>, hundredths: int)
    requires hundredths == Hundredths(pax)
    ensures NearHundredths(OrderTotal(base, pax), base, hundredths, |pax|)
  {
    TotalNeedsNoRounding(base, pax);
    TotalWithinHalfCents(base, pax);
    ExactInHundredths(base, pax);
  }

  /** The total is within half a cent per passenger of the base times 100 for every adult, 75
      for every child and 10 for every infant. */
  lemma TotalNearFigures(base: real, pax: seq<PassengerType>)
    ensures NearHundredths(
              OrderTotal(base, pax), base,
              100 * multiset(pax)[Adult] + 75 * multiset(pax)[Child] + 10 * multiset(pax)[Infant], |pax|)
  {
    HundredthsByCount(pax);
    TotalNearHundredths(
      base, pax, 100 * multiset(pax)[Adult] + 75 * multiset(pax)[Child] + 10 * multiset(pax)[Infant]);
  }

  lemma {:induction false} TotalMonotone(low: real, high: real, pax: seq<PassengerType>)
    requires low <= high
    ensures OrderTotal(low, pax) <= OrderTotal(high, pax)
  {
    TotalNeedsNoRounding(low, pax);
    TotalNeedsNoRounding(high, pax);
    if pax == [] {
    } else {
      var init, last := pax[..|pax| - 1], pax[|pax| - 1];
      TotalMonotone(low, high, init);
      TotalNeedsNoRounding(low, init);
      TotalNeedsNoRounding(high, init);
      HalfUpMonotone(low * Multiplier(last), high * Multiplier(last));
    }
  }

  lemma {:induction false} TotalPositive(base: real, pax: seq<PassengerType>)
    requires base >= 0.05
    ensures SumFares(base, pax) >= |pax|
  {
    if pax == [] {
    } else {
      TotalPositive(base, pax[..|pax| - 1]);
      HalfUpMonotone(0.005, base * Multiplier(pax[|pax| - 1]));
      assert HalfUpCents(0.005) == 1;
    }
  }

  /** Five cents is the exact threshold from which every non-empty booking has a positive
      total, the one the table constraint on orders demands. */
  lemma PositiveExactlyFromFiveCents(base: real)
    ensures (forall pax: seq<PassengerType> | pax != [] :: OrderTotal(base, pax) > 0) <==> base >= 0.05
  {
    if base >= 0.05 {
      forall pax: seq<PassengerType> | pax != [] ensures OrderTotal(base, pax) > 0 {
        TotalNeedsNoRounding(base, pax);
        TotalPositive(base, pax);
      }
    } else {
      TotalNeedsNoRounding(base, [Infant]);
      assert [Infant][..0] == [];
      assert SumFares(base, [Infant]) == PaxFare(base, Infant);
      if base >= 0.0 { assert base * 0.1 * 100.0 + 0.5 < 1.0; }
      assert PaxFare(base, Infant) <= 0;
      assert !(OrderTotal(base, [Infant]) > 0);
    }
  }
}
