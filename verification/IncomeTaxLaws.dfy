/** What the surcharge rules promise a taxpayer, for every rule that is in order. */
module IncomeTaxLaws {
  import opened Options
  import opened IncomeTaxRules

  function RebateThreshold(rule: Rule, regime: Regime): int {
    if regime.New? then rule.newRebateThreshold else rule.oldRebateThreshold
  }

  function RebateMax(rule: Rule, regime: Regime): int {
    if regime.New? then rule.newRebateMax else rule.oldRebateMax
  }

  /** Surcharge rates do not fall from band to band, and nobody gets both rebate and surcharge. */
  ghost predicate InOrderRule(rule: Rule, regime: Regime) {
    && ValidRule(rule)
    && (forall i :: 0 <= i < |rule.bands| ==> 0 <= rule.bands[i].rate && RebateThreshold(rule, regime) <= rule.bands[i].limit)
    && (forall i, j :: 0 <= i < j < |rule.bands| ==> rule.bands[i].rate <= rule.bands[j].rate)
    && (rule.newCap.Some? ==> 0 <= rule.newCap.value)
    && 0 <= RebateMax(rule, regime)
  }

  /** Slab tax less rebate, without special-rate income. */
  function Tax(t: int, rule: Rule, regime: Regime, resident: bool): int {
    var tax := SlabTax(t, 0, Slabs(rule, regime));
    tax - Rebate(tax, t, rule, regime, resident)
  }

  /** Tax and surcharge on a taxable income of t. */
  function Total(t: int, rule: Rule, regime: Regime, resident: bool): int {
    var tax := Tax(t, rule, regime, resident);
    tax + Surcharge(t, tax, rule, regime)
  }

  lemma ChosenAt(t: int, bands: seq<Band>) returns (i: int)
    ensures -1 <= i < |bands|
    ensures Chosen(t, bands) == if i < 0 then None else Some(bands[i])
    ensures i >= 0 ==> t > bands[i].limit
    ensures forall j :: i < j < |bands| ==> t <= bands[j].limit
  {
    if bands == [] {
      i := -1;
    } else if t > bands[|bands| - 1].limit {
      i := |bands| - 1;
    } else {
      i := ChosenAt(t, bands[..|bands| - 1]);
    }
  }

  lemma {:induction false} PriorIsHighest(limit: int, bands: seq<Band>)
    requires forall k :: 0 <= k < |bands| ==> 0 <= bands[k].rate
    ensures PriorRate(limit, bands) >= 0
    ensures forall k :: 0 <= k < |bands| && bands[k].limit < limit ==> bands[k].rate <= PriorRate(limit, bands)
    ensures PriorRate(limit, bands) == 0 || exists k :: 0 <= k < |bands| && bands[k].limit < limit && bands[k].rate == PriorRate(limit, bands)
  {
    if bands != [] {
      var n := |bands| - 1;
      var rest := bands[..n];
      PriorIsHighest(limit, rest);
      assert forall k :: 0 <= k < n ==> rest[k] == bands[k];
    }
  }

  lemma SurchargeRateNonNegative(t: int, rule: Rule, regime: Regime)
    requires InOrderRule(rule, regime)
    ensures SurchargeRate(t, rule, regime) >= 0
  {
    var i := ChosenAt(t, rule.bands);
  }

  /** A higher income never has a lower surcharge rate. */
  lemma SurchargeRateGrows(x: int, y: int, rule: Rule, regime: Regime)
    requires InOrderRule(rule, regime) && x <= y
    ensures SurchargeRate(x, rule, regime) <= SurchargeRate(y, rule, regime)
  {
    var i := ChosenAt(x, rule.bands);
    var j := ChosenAt(y, rule.bands);
  }

  /** Below the threshold of y's band, x owes no more than the rate allowed at that threshold. */
  lemma RateBelowThreshold(x: int, y: int, rule: Rule, regime: Regime)
    requires InOrderRule(rule, regime) && Chosen(y, rule.bands).Some? && x <= Threshold(y, rule)
    ensures SurchargeRate(x, rule, regime) <= Capped(rule, regime, PriorRate(Threshold(y, rule), rule.bands))
  {
    var i := ChosenAt(x, rule.bands);
    PriorIsHighest(Threshold(y, rule), rule.bands);
  }

  lemma PriorNonNegative(limit: int, rule: Rule, regime: Regime)
    requires InOrderRule(rule, regime)
    ensures Capped(rule, regime, PriorRate(limit, rule.bands)) >= 0
  {
    PriorIsHighest(limit, rule.bands);
  }

  lemma SlabsValid(rule: Rule, regime: Regime)
    requires ValidRule(rule)
    ensures ValidSlabs(Slabs(rule, regime))
  {
  }

  lemma NoRebateInBand(t: int, rule: Rule, regime: Regime, resident: bool)
    requires InOrderRule(rule, regime) && Chosen(t, rule.bands).Some?
    ensures Tax(t, rule, regime, resident) == SlabTax(t, 0, Slabs(rule, regime))
  {
    var i := ChosenAt(t, rule.bands);
  }

  /** What is permitted above a threshold is at least the slab tax: the floors cannot eat it up. */
  lemma PermittedCoversTax(t: int, rule: Rule, regime: Regime)
    requires InOrderRule(rule, regime) && Chosen(t, rule.bands).Some?
    ensures SlabTax(t, 0, Slabs(rule, regime)) <= Permitted(t, Threshold(t, rule), rule, regime)
  {
    var limit := Threshold(t, rule);
    var i := ChosenAt(t, rule.bands);
    SlabsValid(rule, regime);
    SlabTaxIsLipschitz(limit, t, 0, Slabs(rule, regime));
    SlabTaxNonNegative(limit, 0, Slabs(rule, regime));
    PriorNonNegative(limit, rule, regime);
    PercentNonNegative(SlabTax(limit, 0, Slabs(rule, regime)), Capped(rule, regime, PriorRate(limit, rule.bands)));
  }

  lemma TaxNonNegative(t: int, rule: Rule, regime: Regime, resident: bool)
    requires InOrderRule(rule, regime)
    ensures 0 <= Tax(t, rule, regime, resident) <= SlabTax(t, 0, Slabs(rule, regime))
  {
    SlabsValid(rule, regime);
    SlabTaxNonNegative(t, 0, Slabs(rule, regime));
  }

  /** Marginal relief never turns the surcharge negative. */
  lemma SurchargeIsNeverNegative(t: int, rule: Rule, regime: Regime, resident: bool)
    requires InOrderRule(rule, regime)
    ensures Surcharge(t, Tax(t, rule, regime, resident), rule, regime) >= 0
  {
    TaxNonNegative(t, rule, regime, resident);
    SurchargeRateNonNegative(t, rule, regime);
    PercentNonNegative(Tax(t, rule, regime, resident), SurchargeRate(t, rule, regime));
    if Chosen(t, rule.bands).Some? {
      NoRebateInBand(t, rule, regime, resident);
      PermittedCoversTax(t, rule, regime);
    }
  }

  // ---- the tax just above a threshold -----------------------------------------------------------------------

  /** The rate at a threshold is the highest one below it. */
  lemma RateAtThreshold(t: int, rule: Rule, regime: Regime)
    requires InOrderRule(rule, regime) && Chosen(t, rule.bands).Some?
    ensures SurchargeRate(Threshold(t, rule), rule, regime) == Capped(rule, regime, PriorRate(Threshold(t, rule), rule.bands))
  {
    var limit := Threshold(t, rule);
    var i := ChosenAt(limit, rule.bands);
    PriorIsHighest(limit, rule.bands);
    if PriorRate(limit, rule.bands) != 0 {
      var k :| 0 <= k < |rule.bands| && rule.bands[k].limit < limit && rule.bands[k].rate == PriorRate(limit, rule.bands);
      assert k <= i;
    }
  }

  /** Income above a threshold costs at most itself, on top of slab tax and surcharge as they stand at the
      threshold before relief. */
  lemma TotalAboveThreshold(t: int, rule: Rule, regime: Regime, resident: bool)
    requires InOrderRule(rule, regime) && Chosen(t, rule.bands).Some?
    requires Threshold(t, rule) != 0 && SurchargeRate(t, rule, regime) != 0
    ensures var limit := Threshold(t, rule);
      var tax := SlabTax(limit, 0, Slabs(rule, regime));
      Total(t, rule, regime, resident) <= tax + Percent(tax, SurchargeRate(limit, rule, regime)) + (t - limit)
  {
    RateAtThreshold(t, rule, regime);
  }

  function Unrelieved(t: int, rule: Rule, regime: Regime, resident: bool): int {
    var tax := Tax(t, rule, regime, resident);
    tax + Percent(tax, SurchargeRate(t, rule, regime))
  }

  function ReliefAt(t: int, rule: Rule, regime: Regime, resident: bool): int {
    Relief(t, Tax(t, rule, regime, resident), rule, regime)
  }

  /** Slab tax and surcharge before rebate and relief. */
  function Before(t: int, rule: Rule, regime: Regime): int {
    var tax := SlabTax(t, 0, Slabs(rule, regime));
    tax + Percent(tax, SurchargeRate(t, rule, regime))
  }

  /** What rebate and relief take off. */
  function TakenOff(t: int, rule: Rule, regime: Regime, resident: bool): int {
    Before(t, rule, regime) - Total(t, rule, regime, resident)
  }

  /** Without a rebate that is the relief alone. */
  lemma TakenOffIsRelief(t: int, rule: Rule, regime: Regime, resident: bool)
    requires !resident || RebateThreshold(rule, regime) < t
    ensures TakenOff(t, rule, regime, resident) == ReliefAt(t, rule, regime, resident)
  {
  }

  /** Against what is actually due at the threshold that bound holds exactly when nothing is taken off there,
      or the extra surcharge makes up for it. */
  lemma ThresholdPromise(t: int, rule: Rule, regime: Regime, resident: bool)
    requires InOrderRule(rule, regime) && Chosen(t, rule.bands).Some?
    requires Threshold(t, rule) != 0 && SurchargeRate(t, rule, regime) != 0
    ensures var limit := Threshold(t, rule);
      Total(t, rule, regime, resident) <= Total(limit, rule, regime, resident) + (t - limit)
      <==> TakenOff(limit, rule, regime, resident) == 0
           || Unrelieved(t, rule, regime, resident) + TakenOff(limit, rule, regime, resident)
              <= Permitted(t, limit, rule, regime)
  {
    RateAtThreshold(t, rule, regime);
    TotalForm(t, rule, regime, resident);
    TakenOffNonNegative(Threshold(t, rule), rule, regime, resident);
  }

  lemma TakenOffNonNegative(t: int, rule: Rule, regime: Regime, resident: bool)
    requires InOrderRule(rule, regime)
    ensures TakenOff(t, rule, regime, resident) >= 0
  {
    TaxNonNegative(t, rule, regime, resident);
    SurchargeRateNonNegative(t, rule, regime);
    SharesGrow(Tax(t, rule, regime, resident), SlabTax(t, 0, Slabs(rule, regime)),
               SurchargeRate(t, rule, regime), SurchargeRate(t, rule, regime));
  }

  // ---- the promise over a whole band ------------------------------------------------------------------------

  /** t is taxed in the band that starts at `limit`. */
  predicate Above(t: int, limit: int, rule: Rule) {
    Chosen(t, rule.bands).Some? && Threshold(t, rule) == limit
  }

  /** Against the threshold, the excess costs at most itself. */
  predicate Kept(t: int, limit: int, rule: Rule, regime: Regime, resident: bool) {
    Total(t, rule, regime, resident) <= Total(limit, rule, regime, resident) + (t - limit)
  }

  /** Without any relief, the excess would cost less than itself. */
  predicate Slower(t: int, limit: int, rule: Rule, regime: Regime, resident: bool) {
    Unrelieved(t, rule, regime, resident) - Before(limit, rule, regime) < t - limit
  }

  ghost predicate KeptInBand(limit: int, rule: Rule, regime: Regime, resident: bool) {
    forall t :: Above(t, limit, rule) ==> Kept(t, limit, rule, regime, resident)
  }

  ghost predicate SlowerInBand(limit: int, rule: Rule, regime: Regime, resident: bool) {
    forall t :: Above(t, limit, rule) ==> Slower(t, limit, rule, regime, resident)
  }

  /** Some income is taxed in the band of `limit`, at a surcharge. */
  ghost predicate SurchargedBand(limit: int, rule: Rule, regime: Regime) {
    && InOrderRule(rule, regime) && limit != 0
    && exists t :: Above(t, limit, rule) && SurchargeRate(t, rule, regime) != 0
  }

  lemma AboveIsAbove(t: int, limit: int, rule: Rule)
    requires Above(t, limit, rule)
    ensures limit < t
  {
    var i := ChosenAt(t, rule.bands);
  }

  /** One band, one rate; and it starts just above its limit. */
  lemma BandIsUniform(limit: int, rule: Rule, regime: Regime)
    requires SurchargedBand(limit, rule, regime)
    ensures Above(limit + 1, limit, rule)
    ensures forall t :: Above(t, limit, rule) ==> SurchargeRate(t, rule, regime) == SurchargeRate(limit + 1, rule, regime) != 0
  {
    forall t | Above(t, limit, rule)
      ensures Above(limit + 1, limit, rule) && SurchargeRate(t, rule, regime) == SurchargeRate(limit + 1, rule, regime)
    {
      AboveIsAbove(t, limit, rule);
      SameBandOrBelow(limit + 1, t, rule);
    }
  }

  lemma UnrelievedAbove(t: int, limit: int, rule: Rule, regime: Regime, resident: bool)
    requires InOrderRule(rule, regime) && Above(t, limit, rule)
    ensures Before(limit, rule, regime) <= Unrelieved(t, rule, regime, resident)
  {
    AboveIsAbove(t, limit, rule);
    NoRebateInBand(t, rule, regime, resident);
    SlabsValid(rule, regime);
    SlabTaxNonNegative(limit, 0, Slabs(rule, regime));
    SlabTaxIsLipschitz(limit, t, 0, Slabs(rule, regime));
    SurchargeRateNonNegative(limit, rule, regime);
    SurchargeRateGrows(limit, t, rule, regime);
    SharesGrow(SlabTax(limit, 0, Slabs(rule, regime)), SlabTax(t, 0, Slabs(rule, regime)),
               SurchargeRate(limit, rule, regime), SurchargeRate(t, rule, regime));
  }

  /** One income of the band: the promise holds when nothing is taken off at the threshold, or when the
      unrelieved total climbs more slowly than income by at least what is. */
  lemma KeptForm(t: int, limit: int, rule: Rule, regime: Regime, resident: bool)
    requires SurchargedBand(limit, rule, regime) && Above(t, limit, rule)
    ensures Kept(t, limit, rule, regime, resident) <==>
      TakenOff(limit, rule, regime, resident) == 0
      || Unrelieved(t, rule, regime, resident) - Before(limit, rule, regime)
         <= t - limit - TakenOff(limit, rule, regime, resident)
  {
    BandIsUniform(limit, rule, regime);
    ThresholdPromise(t, rule, regime, resident);
    TotalForm(t, rule, regime, resident);
    RateAtThreshold(t, rule, regime);
    TakenOffNonNegative(limit, rule, regime, resident);
  }

  /** One paisa above a threshold, what is taken off there decides: nothing is fine, two paise or more break the
      promise, and a single paisa is fine when the unrelieved total does not move. */
  lemma FirstPaisaDecides(limit: int, rule: Rule, regime: Regime, resident: bool)
    requires SurchargedBand(limit, rule, regime)
    ensures var off := TakenOff(limit, rule, regime, resident);
      Kept(limit + 1, limit, rule, regime, resident) <==>
        off == 0
        || (off == 1 && Unrelieved(limit + 1, rule, regime, resident) == Before(limit, rule, regime))
  {
    BandIsUniform(limit, rule, regime);
    KeptForm(limit + 1, limit, rule, regime, resident);
    TakenOffNonNegative(limit, rule, regime, resident);
    UnrelievedAbove(limit + 1, limit, rule, regime, resident);
  }

  /** The whole band keeps the promise exactly when nothing is taken off at its threshold, or a single paisa under an
      unrelieved total that stays below the excess. */
  lemma BandKeepsPromise(limit: int, rule: Rule, regime: Regime, resident: bool)
    requires SurchargedBand(limit, rule, regime)
    ensures var off := TakenOff(limit, rule, regime, resident);
      KeptInBand(limit, rule, regime, resident) <==>
        off == 0 || (off == 1 && SlowerInBand(limit, rule, regime, resident))
  {
    BandIsUniform(limit, rule, regime);
    FirstPaisaDecides(limit, rule, regime, resident);
    TakenOffNonNegative(limit, rule, regime, resident);
    forall t | Above(t, limit, rule)
      ensures var off := TakenOff(limit, rule, regime, resident);
        && (off == 0 ==> Kept(t, limit, rule, regime, resident))
        && (off == 1 ==> (Kept(t, limit, rule, regime, resident) <==> Slower(t, limit, rule, regime, resident)))
    {
      KeptForm(t, limit, rule, regime, resident);
    }
  }

  // ---- checking a band in a hundred rupees --------------------------------------------------------------------

  /** x lies above every limit of the slabs. */
  ghost predicate InOpenSlab(x: int, slabs: seq<Slab>) {
    forall i :: 0 <= i < |slabs| - 1 ==> slabs[i].upper.Some? && slabs[i].upper.value < x
  }

  function OpenRate(slabs: seq<Slab>): int
    requires slabs != []
  {
    slabs[|slabs| - 1].rate
  }

  lemma RupeeStep(d: int, rate: int)
    ensures Percent(d + 100, rate) == Percent(d, rate) + rate
  {
    assert (d + 100) * rate == d * rate + 100 * rate;
  }

  /** In the open slab a rupee of income costs its rate in paise. */
  lemma {:induction false} OpenSlabStep(x: int, lower: int, slabs: seq<Slab>)
    requires ValidSlabs(slabs) && lower <= x && InOpenSlab(x, slabs)
    ensures SlabTax(x + 100, lower, slabs) == SlabTax(x, lower, slabs) + OpenRate(slabs)
    decreases |slabs|
  {
    if |slabs| > 1 {
      TailValid(slabs);
      OpenSlabStep(x, slabs[0].upper.value, slabs[1..]);
    } else {
      RupeeStep(x - lower, slabs[0].rate);
    }
  }

  lemma {:induction false} OpenSlabSteps(x: int, n: nat, slabs: seq<Slab>)
    requires ValidSlabs(slabs) && 0 <= x && InOpenSlab(x, slabs)
    ensures SlabTax(x + 100 * n, 0, slabs) == SlabTax(x, 0, slabs) + n * OpenRate(slabs)
  {
    if n > 0 {
      OpenSlabSteps(x, n - 1, slabs);
      OpenSlabStep(x + 100 * (n - 1), 0, slabs);
    }
  }

  lemma {:induction false} PercentSteps(tax: int, n: nat, rate: int)
    ensures Percent(tax + 100 * n, rate) == Percent(tax, rate) + n * rate
  {
    if n > 0 {
      PercentSteps(tax, n - 1, rate);
      RupeeStep(tax + 100 * (n - 1), rate);
    }
  }

  /** All of the band lies in the open slab, and a hundred rupees there cost at most themselves. */
  ghost predicate OpenBand(limit: int, rule: Rule, regime: Regime) {
    && SurchargedBand(limit, rule, regime) && 0 <= limit && InOpenSlab(limit + 1, Slabs(rule, regime))
    && OpenRate(Slabs(rule, regime)) * (100 + SurchargeRate(limit + 1, rule, regime)) <= 10000
  }

  /** A hundred rupees up, the unrelieved total has climbed by at most as much. */
  lemma HundredRupees(t: int, limit: int, rule: Rule, regime: Regime, resident: bool)
    requires OpenBand(limit, rule, regime) && Above(t, limit, rule) && Above(t + 10000, limit, rule)
    ensures Unrelieved(t + 10000, rule, regime, resident) <= Unrelieved(t, rule, regime, resident) + 10000
  {
    var slabs := Slabs(rule, regime);
    var rate, share := OpenRate(slabs), SurchargeRate(limit + 1, rule, regime);
    AboveIsAbove(t, limit, rule);
    SlabsValid(rule, regime);
    BandIsUniform(limit, rule, regime);
    NoRebateInBand(t, rule, regime, resident);
    NoRebateInBand(t + 10000, rule, regime, resident);
    OpenSlabSteps(t, 100, slabs);
    PercentSteps(SlabTax(t, 0, slabs), rate, share);
    assert rate * (100 + share) == 100 * rate + rate * share;
  }

  lemma {:induction false} SlowerFromTheStart(t: int, limit: int, rule: Rule, regime: Regime, resident: bool)
    requires OpenBand(limit, rule, regime) && Above(t, limit, rule)
    requires forall u :: Above(u, limit, rule) && u <= limit + 10000 ==> Slower(u, limit, rule, regime, resident)
    ensures Slower(t, limit, rule, regime, resident)
    decreases t - limit
  {
    AboveIsAbove(t, limit, rule);
    if t > limit + 10000 {
      SameBandOrBelow(t - 10000, t, rule);
      SlowerFromTheStart(t - 10000, limit, rule, regime, resident);
      HundredRupees(t - 10000, limit, rule, regime, resident);
    }
  }

  /** For such a band the incomes up to a hundred rupees above the threshold settle the case of a single paisa. */
  lemma HundredRupeesDecide(limit: int, rule: Rule, regime: Regime, resident: bool)
    requires OpenBand(limit, rule, regime)
    ensures var off := TakenOff(limit, rule, regime, resident);
      KeptInBand(limit, rule, regime, resident) <==>
        off == 0
        || (off == 1 && forall u :: Above(u, limit, rule) && u <= limit + 10000 ==> Slower(u, limit, rule, regime, resident))
  {
    BandKeepsPromise(limit, rule, regime, resident);
    if forall u :: Above(u, limit, rule) && u <= limit + 10000 ==> Slower(u, limit, rule, regime, resident) {
      forall t | Above(t, limit, rule) ensures Slower(t, limit, rule, regime, resident) {
        SlowerFromTheStart(t, limit, rule, regime, resident);
      }
    }
  }

  // ---- rules whose thresholds lie a paisa apart -----------------------------------------------------------------

  const NARROW := Rule([Slab(None, 50)], [Slab(None, 50)], 0, 0, 0, 0, 4, [Band(1000, 100), Band(1001, 100)], None, 1000)

  lemma NarrowBands(t: int)
    ensures Chosen(t, NARROW.bands) == if t > 1001 then Some(Band(1001, 100)) else if t > 1000 then Some(Band(1000, 100)) else None
    ensures PriorRate(1000, NARROW.bands) == 0 && PriorRate(1001, NARROW.bands) == 100
  {
    var bands := NARROW.bands;
    assert bands[..1] == [Band(1000, 100)] && bands[..1][..0] == [];
    assert Chosen(t, bands[..1]) == if t > 1000 then Some(Band(1000, 100)) else Chosen(t, []);
    assert PriorRate(1000, bands[..1]) == PriorRate(1000, []) == 0;
    assert PriorRate(1001, bands[..1]) == 100;
  }

  lemma NarrowTotal(t: int)
    requires t in {1001, 1002}
    ensures Total(t, NARROW, Old, false) == if t == 1001 then 501 else 1001
  {
    NarrowBands(t);
    assert SlabTax(t, 0, NARROW.oldSlabs) == t * 50 / 100;
    assert SlabTax(1000, 0, NARROW.oldSlabs) == 500 && SlabTax(1001, 0, NARROW.oldSlabs) == 500;
  }

  /** With two thresholds a paisa apart, one more paisa of income costs 500 paise. */
  lemma NarrowBandsBreakThePromise()
    ensures InOrderRule(NARROW, Old) && Threshold(1002, NARROW) == 1001
    ensures Total(1002, NARROW, Old, false) == Total(1001, NARROW, Old, false) + 500
  {
    NarrowBands(1002);
    NarrowTotal(1001);
    NarrowTotal(1002);
  }

  /** One open slab of one per cent, and bands from two rupees and from a paisa above. */
  function Close(rate: int): Rule {
    Rule([Slab(None, 1)], [Slab(None, 1)], 0, 0, 0, 0, 4, [Band(200, 100), Band(201, rate)], None, 1000)
  }

  lemma CloseBands(t: int, rate: int)
    ensures Chosen(t, Close(rate).bands) == if t > 201 then Some(Band(201, rate)) else if t > 200 then Some(Band(200, 100)) else None
    ensures PriorRate(200, Close(rate).bands) == 0
  {
    var bands := Close(rate).bands;
    assert bands[..1] == [Band(200, 100)] && bands[..1][..0] == [];
    assert Chosen(t, bands[..1]) == if t > 200 then Some(Band(200, 100)) else Chosen(t, []);
    assert PriorRate(200, bands[..1]) == PriorRate(200, []) == 0;
  }

  lemma CloseTax(t: int, rate: int)
    requires t > 200 && rate >= 100
    ensures SurchargedBand(201, Close(rate), Old)
    ensures Tax(t, Close(rate), Old, false) == t / 100
    ensures SurchargeRate(t, Close(rate), Old) == if t > 201 then rate else 100
  {
    CloseBands(t, rate);
    CloseBands(202, rate);
    assert Above(202, 201, Close(rate));
  }

  lemma CloseRelief(rate: int)
    requires rate >= 100
    ensures ReliefAt(201, Close(rate), Old, false) == 1 && Unrelieved(201, Close(rate), Old, false) == 4
  {
    CloseTax(201, rate);
    CloseBands(201, rate);
    assert SlabTax(200, 0, Close(rate).oldSlabs) == 2;
  }

  /** A single paisa of relief, and the band keeps the promise when its rate is that of the band below ... */
  lemma OnePaisaCanBeFine()
    ensures ReliefAt(201, Close(100), Old, false) == 1 && KeptInBand(201, Close(100), Old, false)
  {
    CloseRelief(100);
    TakenOffIsRelief(201, Close(100), Old, false);
    CloseTax(202, 100);
    forall t | Above(t, 201, Close(100)) ensures Slower(t, 201, Close(100), Old, false) {
      AboveIsAbove(t, 201, Close(100));
      CloseTax(t, 100);
    }
    BandKeepsPromise(201, Close(100), Old, false);
  }

  /** ... but not when its rate is twice that. */
  lemma OnePaisaCanBreakThePromise()
    ensures ReliefAt(201, Close(200), Old, false) == 1 && !KeptInBand(201, Close(200), Old, false)
  {
    CloseRelief(200);
    TakenOffIsRelief(201, Close(200), Old, false);
    CloseTax(202, 200);
    BandKeepsPromise(201, Close(200), Old, false);
    CloseBands(202, 200);
    assert Above(202, 201, Close(200)) && !Slower(202, 201, Close(200), Old, false);
  }

  // ---- monotone in income ------------------------------------------------------------------------------------------

  lemma TaxGrows(x: int, y: int, rule: Rule, regime: Regime, resident: bool)
    requires InOrderRule(rule, regime) && x <= y
    ensures Tax(x, rule, regime, resident) <= Tax(y, rule, regime, resident)
  {
    SlabsValid(rule, regime);
    SlabTaxNonNegative(x, 0, Slabs(rule, regime));
    SlabTaxIsLipschitz(x, y, 0, Slabs(rule, regime));
  }

  lemma UnrelievedGrows(x: int, y: int, rule: Rule, regime: Regime, resident: bool)
    requires InOrderRule(rule, regime) && x <= y
    ensures Unrelieved(x, rule, regime, resident) <= Unrelieved(y, rule, regime, resident)
  {
    var a, b := Tax(x, rule, regime, resident), Tax(y, rule, regime, resident);
    TaxGrows(x, y, rule, regime, resident);
    TaxNonNegative(x, rule, regime, resident);
    SurchargeRateGrows(x, y, rule, regime);
    SurchargeRateNonNegative(x, rule, regime);
    SharesGrow(a, b, SurchargeRate(x, rule, regime), SurchargeRate(y, rule, regime));
  }

  lemma SharesGrow(a: int, b: int, r: int, s: int)
    requires 0 <= a <= b && 0 <= r <= s
    ensures Percent(a, r) <= Percent(b, s)
  {
    assert a * r <= b * s by {
      assert b * s == a * r + a * (s - r) + (b - a) * s;
      assert a * (s - r) >= 0 && (b - a) * s >= 0;
    }
  }

  /** The relieved total is the smaller of the unrelieved one and what is permitted. */
  lemma TotalForm(t: int, rule: Rule, regime: Regime, resident: bool)
    ensures Total(t, rule, regime, resident) ==
      if SurchargeRate(t, rule, regime) != 0 && Threshold(t, rule) != 0
      then Min(Unrelieved(t, rule, regime, resident), Permitted(t, Threshold(t, rule), rule, regime))
      else Unrelieved(t, rule, regime, resident)
  {
  }

  /** Crossing into y's band from at or below its threshold. */
  lemma BelowPermitted(x: int, y: int, rule: Rule, regime: Regime, resident: bool)
    requires InOrderRule(rule, regime) && Chosen(y, rule.bands).Some? && x <= Threshold(y, rule)
    ensures Unrelieved(x, rule, regime, resident) <= Permitted(y, Threshold(y, rule), rule, regime)
  {
    var limit := Threshold(y, rule);
    var top := SlabTax(limit, 0, Slabs(rule, regime));
    var j := ChosenAt(y, rule.bands);
    TaxGrows(x, limit, rule, regime, resident);
    TaxNonNegative(x, rule, regime, resident);
    TaxNonNegative(limit, rule, regime, resident);
    RateBelowThreshold(x, y, rule, regime);
    SurchargeRateNonNegative(x, rule, regime);
    SharesGrow(Tax(x, rule, regime, resident), top, SurchargeRate(x, rule, regime),
               Capped(rule, regime, PriorRate(limit, rule.bands)));
  }

  /** x <= y: either both lie in one band, or x is at or below the threshold of y's band. */
  lemma SameBandOrBelow(x: int, y: int, rule: Rule)
    requires x <= y && Chosen(y, rule.bands).Some? && x > Threshold(y, rule)
    ensures Chosen(x, rule.bands) == Chosen(y, rule.bands)
  {
    var i := ChosenAt(x, rule.bands);
    var j := ChosenAt(y, rule.bands);
  }

  lemma TotalGrows(x: int, y: int, rule: Rule, regime: Regime, resident: bool)
    requires InOrderRule(rule, regime) && x <= y
    ensures Total(x, rule, regime, resident) <= Total(y, rule, regime, resident)
  {
    TotalForm(x, rule, regime, resident);
    TotalForm(y, rule, regime, resident);
    UnrelievedGrows(x, y, rule, regime, resident);
    if SurchargeRate(y, rule, regime) != 0 && Threshold(y, rule) != 0 {
      if x <= Threshold(y, rule) {
        BelowPermitted(x, y, rule, regime, resident);
      } else {
        SameBandOrBelow(x, y, rule);
      }
    }
  }

  /** More income never means less gross tax, whatever the deductions. */
  lemma GrossGrows(rule: Rule, q: Request, x: int, y: int)
    requires InOrderRule(rule, q.regime) && x <= y && q.specialIncome == 0 && q.specialTax == 0
    ensures Gross(rule, q.(income := x)) <= Gross(rule, q.(income := y))
  {
    var a, b := Max(0, x - Deducted(q)), Max(0, y - Deducted(q));
    assert Deducted(q.(income := x)) == Deducted(q) == Deducted(q.(income := y));
    TotalGrows(a, b, rule, q.regime, q.resident);
    GrossIsTotal(rule, q.(income := x));
    GrossIsTotal(rule, q.(income := y));
    PercentBounds(Total(a, rule, q.regime, q.resident), Total(b, rule, q.regime, q.resident), rule.cess);
  }

  lemma GrossIsTotal(rule: Rule, q: Request)
    requires q.specialIncome == 0 && q.specialTax == 0
    ensures Gross(rule, q) == WithCess(Total(Max(0, q.income - Deducted(q)), rule, q.regime, q.resident), rule)
  {
  }
}
