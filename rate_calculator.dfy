/** The rate matrix builder of the Next.js client, src/lib/rate-calculator.ts.

    The builder reads four quotes and fills a dictionary key by key.  Its
    guards are JavaScript truthiness tests, so a quote of 0 counts as missing,
    and a pair whose quotes are missing is simply absent from the dictionary.
    Rates are modelled over `real`, not IEEE doubles. */
module RateCalculator {
  import opened Wrappers
  import opened Types

  const DiscountRateWldClp: real := 0.14
  const DiscountRateClpVes: real := 0.08
  const MarginRateUsdtClp: real := 0.004

  /** JavaScript truthiness of a number (NaN is not represented). */
  predicate Truthy(x: real) { x != 0.0 }

  /** The forward WLD -> CLP rate: spot times the CLP P2P quote, less 14%. */
  function WldToClp(lr: ExchangeRates): (r: real)
    ensures Truthy(lr.wldToUsdt) && Truthy(lr.usdtToClpP2PWld) ==> r != 0.0
    ensures lr.wldToUsdt > 0.0 && lr.usdtToClpP2PWld > 0.0 ==> r > 0.0
  {
    var base := lr.wldToUsdt * lr.usdtToClpP2PWld;
    base * (1.0 - DiscountRateWldClp)
  }

  /** The forward CLP -> VES rate: one CLP in USDT, times the VES quote, less 8%. */
  function ClpToVes(lr: ExchangeRates): (r: real)
    requires Truthy(lr.clpToUsdtP2P)
    ensures Truthy(lr.vesToUsdtP2P) ==> r != 0.0
    ensures lr.clpToUsdtP2P > 0.0 && lr.vesToUsdtP2P > 0.0 ==> r > 0.0
  {
    var clpToBaseUsdt := 1.0 / lr.clpToUsdtP2P;
    var base := clpToBaseUsdt * lr.vesToUsdtP2P;
    base * (1.0 - DiscountRateClpVes)
  }

  /** The forward USDT -> CLP rate: the CLP P2P quote plus a 0.4% margin. */
  function UsdtToClp(lr: ExchangeRates): (r: real)
    ensures Truthy(lr.clpToUsdtP2P) ==> r != 0.0
    ensures lr.clpToUsdtP2P > 0.0 ==> r > 0.0
  {
    lr.clpToUsdtP2P * (1.0 + MarginRateUsdtClp)
  }

  /** The six derived (non-identity) keys the builder can produce. */
  const DerivedPairs: set<Pair> := {
    Pair(WLD, CLP), Pair(CLP, WLD), Pair(CLP, VES),
    Pair(VES, CLP), Pair(CLP, USDT), Pair(USDT, CLP)}

  /** Step 1 (WLD <-> CLP): both entries are written only when both quotes are truthy. */
  function WithWldClp(lr: ExchangeRates, m: map<Pair, real>): map<Pair, real>
  {
    if Truthy(lr.wldToUsdt) && Truthy(lr.usdtToClpP2PWld)
    then m[Pair(WLD, CLP) := WldToClp(lr)][Pair(CLP, WLD) := 1.0 / WldToClp(lr)]
    else m
  }

  /** Step 2 (CLP <-> VES): both entries are written only when both quotes are truthy. */
  function WithClpVes(lr: ExchangeRates, m: map<Pair, real>): map<Pair, real>
  {
    if Truthy(lr.clpToUsdtP2P) && Truthy(lr.vesToUsdtP2P)
    then m[Pair(CLP, VES) := ClpToVes(lr)][Pair(VES, CLP) := 1.0 / ClpToVes(lr)]
    else m
  }

  /** Step 3 (CLP <-> USDT): both entries are written only when the CLP quote is truthy. */
  function WithClpUsdt(lr: ExchangeRates, m: map<Pair, real>): map<Pair, real>
  {
    if Truthy(lr.clpToUsdtP2P)
    then m[Pair(CLP, USDT) := 1.0 / UsdtToClp(lr)][Pair(USDT, CLP) := UsdtToClp(lr)]
    else m
  }

  /** Step 4: the four identity entries, written for every non-null input. */
  function WithIdentities(m: map<Pair, real>): map<Pair, real>
  {
    m[Pair(CLP, CLP) := 1.0][Pair(VES, VES) := 1.0][Pair(WLD, WLD) := 1.0][Pair(USDT, USDT) := 1.0]
  }

  /** The dictionary `calculateFullRates(liveRates).rates`: the four steps in
      order, starting from an empty dictionary. */
  function FullRates(liveRates: Option<ExchangeRates>): map<Pair, real>
  {
    match liveRates
    case None => map[]
    case Some(lr) => WithIdentities(WithClpUsdt(lr, WithClpVes(lr, WithWldClp(lr, map[]))))
  }

  /** `derived.usdtToClpMargin` of `calculateFullRates(liveRates)`. */
  function UsdtToClpMargin(liveRates: Option<ExchangeRates>): Option<real>
  {
    match liveRates
    case None => None
    case Some(lr) => if Truthy(lr.clpToUsdtP2P) then Some(UsdtToClp(lr)) else None
  }

  /** `calculateFullRates`: fills the dictionary key by key. */
  method CalculateFullRates(liveRates: Option<ExchangeRates>)
    returns (rates: map<Pair, real>, usdtToClpMargin: Option<real>)
    ensures rates == FullRates(liveRates)
    ensures usdtToClpMargin == UsdtToClpMargin(liveRates)
    ensures usdtToClpMargin.Some? ==> Pair(USDT, CLP) in rates && rates[Pair(USDT, CLP)] == usdtToClpMargin.value
  {
    rates := map[];
    usdtToClpMargin := None;
    if liveRates.None? {
      return;
    }
    var lr := liveRates.value;

    // WLD <-> CLP
    if Truthy(lr.wldToUsdt) && Truthy(lr.usdtToClpP2PWld) {
      var baseWldToClp := lr.wldToUsdt * lr.usdtToClpP2PWld;
      var finalWldToClp := baseWldToClp * (1.0 - DiscountRateWldClp);
      assert finalWldToClp == WldToClp(lr);
      rates := rates[Pair(WLD, CLP) := finalWldToClp];
      rates := rates[Pair(CLP, WLD) := 1.0 / finalWldToClp];
    }
    assert rates == WithWldClp(lr, map[]);

    // CLP <-> VES
    if Truthy(lr.clpToUsdtP2P) && Truthy(lr.vesToUsdtP2P) {
      var clpToBaseUsdtRate := 1.0 / lr.clpToUsdtP2P;
      var baseClpToVesRate := clpToBaseUsdtRate * lr.vesToUsdtP2P;
      var finalClpToVesRate := baseClpToVesRate * (1.0 - DiscountRateClpVes);
      assert finalClpToVesRate == ClpToVes(lr);
      rates := rates[Pair(CLP, VES) := finalClpToVesRate];
      rates := rates[Pair(VES, CLP) := 1.0 / finalClpToVesRate];
    }
    assert rates == WithClpVes(lr, WithWldClp(lr, map[]));

    // CLP <-> USDT
    if Truthy(lr.clpToUsdtP2P) {
      var finalUsdtToClp := lr.clpToUsdtP2P * (1.0 + MarginRateUsdtClp);
      var finalClpToUsdt := 1.0 / finalUsdtToClp;
      rates := rates[Pair(CLP, USDT) := finalClpToUsdt];
      rates := rates[Pair(USDT, CLP) := finalUsdtToClp];
      usdtToClpMargin := Some(finalUsdtToClp);
    }
    assert rates == WithClpUsdt(lr, WithClpVes(lr, WithWldClp(lr, map[])));

    // Identity
    rates := rates[Pair(CLP, CLP) := 1.0];
    rates := rates[Pair(VES, VES) := 1.0];
    rates := rates[Pair(WLD, WLD) := 1.0];
    rates := rates[Pair(USDT, USDT) := 1.0];
  }

  /** `rates[key]`: the entry for a pair, `None` for an absent key (`undefined`). */
  function Lookup(rates: map<Pair, real>, p: Pair): Option<real>
  {
    if p in rates then Some(rates[p]) else None
  }

  /** A null input yields an empty dictionary and a null margin. */
  lemma NullInputIsEmpty()
    ensures FullRates(None) == map[]
    ensures UsdtToClpMargin(None) == None
  {
  }

  /** The four identity rates are 1.0 for every non-null input. */
  lemma IdentitiesAreOne(lr: ExchangeRates)
    ensures forall p | p in Identities :: p in FullRates(Some(lr)) && FullRates(Some(lr))[p] == 1.0
  {
  }

  /** WLD <-> CLP: present exactly when both quotes are truthy, with the 14% discount. */
  lemma WldClpEntries(lr: ExchangeRates)
    ensures Pair(WLD, CLP) in FullRates(Some(lr)) <==> Truthy(lr.wldToUsdt) && Truthy(lr.usdtToClpP2PWld)
    ensures Pair(CLP, WLD) in FullRates(Some(lr)) <==> Pair(WLD, CLP) in FullRates(Some(lr))
    ensures Pair(WLD, CLP) in FullRates(Some(lr)) ==>
      FullRates(Some(lr))[Pair(WLD, CLP)] == lr.wldToUsdt * lr.usdtToClpP2PWld * 0.86 &&
      FullRates(Some(lr))[Pair(CLP, WLD)] == 1.0 / FullRates(Some(lr))[Pair(WLD, CLP)]
  {
  }

  /** CLP <-> VES: present exactly when both quotes are truthy; the CLP quote is
      the denominator and the discount is 8%. */
  lemma ClpVesEntries(lr: ExchangeRates)
    ensures Pair(CLP, VES) in FullRates(Some(lr)) <==> Truthy(lr.clpToUsdtP2P) && Truthy(lr.vesToUsdtP2P)
    ensures Pair(VES, CLP) in FullRates(Some(lr)) <==> Pair(CLP, VES) in FullRates(Some(lr))
    ensures Pair(CLP, VES) in FullRates(Some(lr)) ==>
      FullRates(Some(lr))[Pair(CLP, VES)] == lr.vesToUsdtP2P / lr.clpToUsdtP2P * 0.92 &&
      FullRates(Some(lr))[Pair(VES, CLP)] == 1.0 / FullRates(Some(lr))[Pair(CLP, VES)]
  {
  }

  /** CLP <-> USDT: present exactly when the CLP quote is truthy, with the 0.4%
      margin; `derived.usdtToClpMargin` is the USDT -> CLP entry. */
  lemma ClpUsdtEntries(lr: ExchangeRates)
    ensures Pair(USDT, CLP) in FullRates(Some(lr)) <==> Truthy(lr.clpToUsdtP2P)
    ensures Pair(CLP, USDT) in FullRates(Some(lr)) <==> Truthy(lr.clpToUsdtP2P)
    ensures UsdtToClpMargin(Some(lr)) == Lookup(FullRates(Some(lr)), Pair(USDT, CLP))
    ensures Pair(USDT, CLP) in FullRates(Some(lr)) ==>
      FullRates(Some(lr))[Pair(USDT, CLP)] == lr.clpToUsdtP2P * 1.004 &&
      FullRates(Some(lr))[Pair(CLP, USDT)] == 1.0 / FullRates(Some(lr))[Pair(USDT, CLP)]
  {
  }

  /** The key set of a non-null input's dictionary: the identities, plus each
      pair whose guard holds. */
  lemma FullRatesKeys(lr: ExchangeRates)
    ensures FullRates(Some(lr)).Keys ==
      Identities
      + (if Truthy(lr.wldToUsdt) && Truthy(lr.usdtToClpP2PWld) then {Pair(WLD, CLP), Pair(CLP, WLD)} else {})
      + (if Truthy(lr.clpToUsdtP2P) && Truthy(lr.vesToUsdtP2P) then {Pair(CLP, VES), Pair(VES, CLP)} else {})
      + (if Truthy(lr.clpToUsdtP2P) then {Pair(CLP, USDT), Pair(USDT, CLP)} else {})
  {
    var m1 := WithWldClp(lr, map[]);
    var m2 := WithClpVes(lr, m1);
    var m3 := WithClpUsdt(lr, m2);
    assert m1.Keys == if Truthy(lr.wldToUsdt) && Truthy(lr.usdtToClpP2PWld) then {Pair(WLD, CLP), Pair(CLP, WLD)} else {};
    assert m2.Keys == m1.Keys + if Truthy(lr.clpToUsdtP2P) && Truthy(lr.vesToUsdtP2P) then {Pair(CLP, VES), Pair(VES, CLP)} else {};
    assert m3.Keys == m2.Keys + if Truthy(lr.clpToUsdtP2P) then {Pair(CLP, USDT), Pair(USDT, CLP)} else {};
    assert WithIdentities(m3).Keys == m3.Keys + Identities;
  }

  /** The key set never leaves the six derived keys and the four identities:
      in particular no USDT <-> VES, WLD <-> VES or WLD <-> USDT key. */
  lemma KeysBounded(liveRates: Option<ExchangeRates>)
    ensures FullRates(liveRates).Keys <= DerivedPairs + Identities
    ensures Pair(USDT, VES) !in FullRates(liveRates) && Pair(VES, USDT) !in FullRates(liveRates)
    ensures Pair(WLD, VES) !in FullRates(liveRates) && Pair(VES, WLD) !in FullRates(liveRates)
    ensures Pair(WLD, USDT) !in FullRates(liveRates) && Pair(USDT, WLD) !in FullRates(liveRates)
  {
    if liveRates.Some? {
      FullRatesKeys(liveRates.value);
    }
  }

  /** A zero (falsy) quote removes every pair that depends on it. */
  lemma ZeroQuoteDropsDependents(lr: ExchangeRates)
    ensures !Truthy(lr.clpToUsdtP2P) ==>
      FullRates(Some(lr)).Keys <= Identities + {Pair(WLD, CLP), Pair(CLP, WLD)} && UsdtToClpMargin(Some(lr)).None?
    ensures !Truthy(lr.vesToUsdtP2P) ==>
      Pair(CLP, VES) !in FullRates(Some(lr)) && Pair(VES, CLP) !in FullRates(Some(lr))
    ensures !Truthy(lr.wldToUsdt) || !Truthy(lr.usdtToClpP2PWld) ==>
      Pair(WLD, CLP) !in FullRates(Some(lr)) && Pair(CLP, WLD) !in FullRates(Some(lr))
  {
    FullRatesKeys(lr);
  }

  /** Every entry of `m` is non-zero and its reverse pair holds its reciprocal. */
  ghost predicate InverseClosed(m: map<Pair, real>)
  {
    forall p | p in m :: p.Flip() in m && m[p] != 0.0 && m[p.Flip()] == 1.0 / m[p]
  }

  /** Every entry of `m` has its reverse pair, and the two multiply to exactly 1. */
  ghost predicate Reciprocal(m: map<Pair, real>)
  {
    forall p | p in m :: p.Flip() in m && m[p] * m[p.Flip()] == 1.0
  }

  lemma InverseClosedIsReciprocal(m: map<Pair, real>)
    requires InverseClosed(m)
    ensures Reciprocal(m)
  {
    forall p | p in m
      ensures p.Flip() in m && m[p] * m[p.Flip()] == 1.0
    {
      InverseProduct(m[p]);
    }
  }

  /** Every entry's reverse entry is its reciprocal (the inverse is computed
      as `1 / forward`, and identities are their own inverse). */
  lemma Reciprocity(liveRates: Option<ExchangeRates>)
    ensures InverseClosed(FullRates(liveRates))
    ensures Reciprocal(FullRates(liveRates))
  {
    var m := FullRates(liveRates);
    if liveRates.Some? {
      forall p | p in m
        ensures p.Flip() in m && m[p] != 0.0 && m[p.Flip()] == 1.0 / m[p]
      {
        EntryReciprocal(liveRates.value, p);
      }
    }
    InverseClosedIsReciprocal(m);
  }

  lemma EntryReciprocal(lr: ExchangeRates, p: Pair)
    requires p in FullRates(Some(lr))
    ensures p.Flip() in FullRates(Some(lr)) && FullRates(Some(lr))[p] != 0.0
    ensures FullRates(Some(lr))[p.Flip()] == 1.0 / FullRates(Some(lr))[p]
  {
    var m := FullRates(Some(lr));
    FullRatesKeys(lr);
    var fwd: Pair;
    if p == Pair(WLD, CLP) || p == Pair(CLP, WLD) {
      fwd := Pair(WLD, CLP);
      ForwardEntry(lr, fwd, WldToClp(lr));
    } else if p == Pair(CLP, VES) || p == Pair(VES, CLP) {
      fwd := Pair(CLP, VES);
      ForwardEntry(lr, fwd, ClpToVes(lr));
    } else if p == Pair(USDT, CLP) || p == Pair(CLP, USDT) {
      fwd := Pair(USDT, CLP);
      ForwardEntry(lr, fwd, UsdtToClp(lr));
    } else {
      assert p in Identities;
      IdentitiesAreOne(lr);
      return;
    }
    var x, y := m[fwd], m[fwd.Flip()];
    assert x != 0.0 && y == 1.0 / x;
    InverseProduct(x);
    assert y != 0.0 && x == 1.0 / y;
  }

  /** A forward entry is non-zero and its reverse entry is its reciprocal. */
  lemma ForwardEntry(lr: ExchangeRates, fwd: Pair, x: real)
    requires fwd in FullRates(Some(lr))
    requires fwd == Pair(WLD, CLP) ==> x == WldToClp(lr)
    requires fwd == Pair(CLP, VES) ==> Truthy(lr.clpToUsdtP2P) && x == ClpToVes(lr)
    requires fwd == Pair(USDT, CLP) ==> x == UsdtToClp(lr)
    requires fwd in {Pair(WLD, CLP), Pair(CLP, VES), Pair(USDT, CLP)}
    ensures fwd.Flip() in FullRates(Some(lr))
    ensures FullRates(Some(lr))[fwd] == x != 0.0
    ensures FullRates(Some(lr))[fwd.Flip()] == 1.0 / x
  {
    FullRatesKeys(lr);
  }


  /** With all four quotes positive, all ten keys are present and every rate
      is positive. */
  lemma PositiveQuotesGivePositiveRates(lr: ExchangeRates)
    requires lr.wldToUsdt > 0.0 && lr.usdtToClpP2PWld > 0.0
    requires lr.clpToUsdtP2P > 0.0 && lr.vesToUsdtP2P > 0.0
    ensures FullRates(Some(lr)).Keys == DerivedPairs + Identities
    ensures forall p | p in FullRates(Some(lr)) :: FullRates(Some(lr))[p] > 0.0
  {
    var m := FullRates(Some(lr));
    assert WldToClp(lr) > 0.0 && ClpToVes(lr) > 0.0 && UsdtToClp(lr) > 0.0;
    forall p | p in m
      ensures m[p] > 0.0
    {
    }
  }
}
