/**
 The other income-tax engine (engines/tax.py): its slab loop counts down what remains instead of measuring
 from a lower bound, and its surcharge bands stop at two crore in the new regime.  It agrees with the rule
 engine for assessment year 2025-26.
 */
module Tax {
  import opened Options
  import opened IncomeTaxRules
  import opened IncomeTaxLaws

  const NEW_REGIME_SLABS := RULE_2025_26.newSlabs
  const OLD_REGIME_SLABS := OLD_SLABS
  const CESS_RATE := 4

  // ---- the slab loop ---------------------------------------------------------------------------------------

  /** upper_limit or previous_limit: a limit of zero counts as missing. */
  function NextLimit(upper: Option<int>, previous: int): int {
    if upper.None? || upper.value == 0 then previous else upper.value
  }

  function InSlab(remaining: int, previous: int, upper: Option<int>): int {
    if upper.None? then remaining else Min(remaining, upper.value - previous)
  }

  function RemainingTax(remaining: int, previous: int, slabs: seq<Slab>): int
    decreases |slabs|
  {
    if slabs == [] then 0
    else
      var taxable := InSlab(remaining, previous, slabs[0].upper);
      if taxable <= 0 then 0
      else if remaining - taxable <= 0 then Percent(taxable, slabs[0].rate)
      else Percent(taxable, slabs[0].rate)
           + RemainingTax(remaining - taxable, NextLimit(slabs[0].upper, previous), slabs[1..])
  }

  method SlabTaxAmount(income: int, slabs: seq<Slab>) returns (tax: int)
    ensures tax == RemainingTax(income, 0, slabs)
  {
    var remaining, previous := income, 0;
    tax := 0;
    for i := 0 to |slabs|
      invariant tax + RemainingTax(remaining, previous, slabs[i..]) == RemainingTax(income, 0, slabs)
    {
      assert slabs[i..][0] == slabs[i] && slabs[i..][1..] == slabs[i + 1..];
      var upper := slabs[i].upper;
      var taxable := if upper.None? then remaining else Min(remaining, upper.value - previous);
      if taxable <= 0 {
        break;
      }
      tax := tax + taxable * slabs[i].rate / 100;
      remaining := remaining - taxable;
      previous := if upper.None? || upper.value == 0 then previous else upper.value;
      if remaining <= 0 {
        break;
      }
    }
  }

  /** Every limit is above the one before it, and the first above `lower`. */
  ghost predicate Climbing(lower: int, slabs: seq<Slab>)
    decreases |slabs|
  {
    slabs != [] && if |slabs| == 1 then slabs[0].upper.None?
                   else slabs[0].upper.Some? && lower < slabs[0].upper.value && Climbing(slabs[0].upper.value, slabs[1..])
  }

  /** For climbing limits the two loops compute the same tax. */
  lemma {:induction false} LoopsAgree(income: int, lower: int, slabs: seq<Slab>)
    requires Climbing(lower, slabs) && lower >= 0
    ensures RemainingTax(income - lower, lower, slabs) == SlabTax(income, lower, slabs)
    decreases |slabs|
  {
    if |slabs| > 1 && slabs[0].upper.value < income {
      LoopsAgree(income, slabs[0].upper.value, slabs[1..]);
    }
  }

  /** No limit is below the one before it, as validate_rule wants it; limits may repeat. */
  ghost predicate Ordered(lower: int, slabs: seq<Slab>)
    decreases |slabs|
  {
    slabs != [] && slabs[0].rate >= 0
    && if |slabs| == 1 then slabs[0].upper.None?
       else slabs[0].upper.Some? && lower <= slabs[0].upper.value && Ordered(slabs[0].upper.value, slabs[1..])
  }

  /** Not even a full slab owes a paisa. */
  predicate Silent(lower: int, slabs: seq<Slab>)
    decreases |slabs|
  {
    if slabs == [] then true
    else if slabs[0].upper.None? then slabs[0].rate == 0
    else Percent(slabs[0].upper.value - lower, slabs[0].rate) == 0 && Silent(slabs[0].upper.value, slabs[1..])
  }

  /** Nothing is owed above a limit that repeats the one before it. */
  predicate SilentAfterRepeat(lower: int, slabs: seq<Slab>)
    decreases |slabs|
  {
    if slabs == [] || slabs[0].upper.None? then true
    else if slabs[0].upper.value == lower then Silent(lower, slabs[1..])
    else SilentAfterRepeat(slabs[0].upper.value, slabs[1..])
  }

  lemma NothingBelow(income: int, lower: int, slabs: seq<Slab>)
    requires Ordered(lower, slabs) && income <= lower
    ensures SlabTax(income, lower, slabs) == 0 && RemainingTax(income - lower, lower, slabs) == 0
  {
  }

  lemma PartOfSlab(part: int, whole: int, rate: int)
    requires 0 <= part <= whole && 0 <= rate && Percent(whole, rate) == 0
    ensures Percent(part, rate) == 0
  {
    assert part * rate <= whole * rate;
  }

  lemma {:induction false} SilentOwesNothing(income: int, lower: int, slabs: seq<Slab>)
    requires Ordered(lower, slabs) && Silent(lower, slabs)
    ensures SlabTax(income, lower, slabs) == 0
    decreases |slabs|
  {
    if income <= lower {
      NothingBelow(income, lower, slabs);
    } else if |slabs| > 1 {
      var upper := slabs[0].upper.value;
      PartOfSlab(Taxable(income, lower, slabs[0].upper), upper - lower, slabs[0].rate);
      SilentOwesNothing(income, upper, slabs[1..]);
    }
  }

  lemma {:induction false} LoudOwesSomething(lower: int, slabs: seq<Slab>) returns (income: int)
    requires Ordered(lower, slabs) && !Silent(lower, slabs)
    ensures income > lower && SlabTax(income, lower, slabs) > 0
    decreases |slabs|
  {
    if |slabs| == 1 {
      income := lower + 100;
    } else {
      var upper := slabs[0].upper.value;
      PercentNonNegative(upper - lower, slabs[0].rate);
      if Percent(upper - lower, slabs[0].rate) != 0 {
        income := upper;
      } else {
        income := LoudOwesSomething(upper, slabs[1..]);
      }
    }
  }

  lemma {:induction false} LoopsAgreeWhenSilent(income: int, lower: int, slabs: seq<Slab>)
    requires Ordered(lower, slabs) && lower >= 0 && SilentAfterRepeat(lower, slabs)
    ensures RemainingTax(income - lower, lower, slabs) == SlabTax(income, lower, slabs)
    decreases |slabs|
  {
    if income <= lower {
      NothingBelow(income, lower, slabs);
    } else if |slabs| > 1 {
      var upper := slabs[0].upper.value;
      if upper == lower {
        SilentOwesNothing(income, lower, slabs[1..]);
      } else {
        LoopsAgreeWhenSilent(income, upper, slabs[1..]);
      }
    }
  }

  lemma {:induction false} LoopsDifferWhenLoud(lower: int, slabs: seq<Slab>) returns (income: int)
    requires Ordered(lower, slabs) && lower >= 0 && !SilentAfterRepeat(lower, slabs)
    ensures income > lower && RemainingTax(income - lower, lower, slabs) < SlabTax(income, lower, slabs)
    decreases |slabs|
  {
    var upper := slabs[0].upper.value;
    if upper == lower {
      income := LoudOwesSomething(lower, slabs[1..]);
    } else {
      income := LoopsDifferWhenLoud(upper, slabs[1..]);
    }
  }

  /** Over limits that may repeat, the loops compute the same tax for every income exactly when no slab above a
      repeated limit owes anything: the countdown stops at the empty slab. */
  lemma LoopsAgreeIff(slabs: seq<Slab>)
    requires Ordered(0, slabs)
    ensures (forall income :: RemainingTax(income, 0, slabs) == SlabTax(income, 0, slabs)) <==> SilentAfterRepeat(0, slabs)
  {
    if SilentAfterRepeat(0, slabs) {
      forall income ensures RemainingTax(income, 0, slabs) == SlabTax(income, 0, slabs) {
        LoopsAgreeWhenSilent(income, 0, slabs);
      }
    } else {
      var income := LoopsDifferWhenLoud(0, slabs);
      assert RemainingTax(income, 0, slabs) != SlabTax(income, 0, slabs);
    }
  }

  // ---- calculate_income_tax ----------------------------------------------------------------------------------------

  datatype SurchargeBand = SurchargeBand(rate: int, threshold: Option<int>, preceding: int)

  function BandOf(income: int, regime: Regime): SurchargeBand {
    if income <= 5000000_00 then SurchargeBand(0, None, 0)
    else if income <= 10000000_00 then SurchargeBand(10, Some(5000000_00), 0)
    else if income <= 20000000_00 then SurchargeBand(15, Some(10000000_00), 10)
    else if income <= 50000000_00 || regime.New? then SurchargeBand(25, Some(20000000_00), 15)
    else SurchargeBand(37, Some(50000000_00), 25)
  }

  function Table(regime: Regime): seq<Slab> {
    if regime.New? then NEW_REGIME_SLABS else OLD_REGIME_SLABS
  }

  function BaseTax(income: int, regime: Regime): int {
    if regime.New? && income <= 700000_00 then 0 else RemainingTax(income, 0, Table(regime))
  }

  function TotalOf(income: int, regime: Regime): int {
    var tax := BaseTax(income, regime);
    var band := BandOf(income, regime);
    var unrelieved := Percent(tax, band.rate);
    if band.threshold.None? then tax + unrelieved
    else
      var top := RemainingTax(band.threshold.value, 0, Table(regime));
      Min(tax + unrelieved, top + Percent(top, band.preceding) + income - band.threshold.value)
  }

  // ---- the two engines, side by side -----------------------------------------------------------------------------------

  lemma TablesClimb()
    ensures Climbing(0, NEW_REGIME_SLABS) && Climbing(0, OLD_REGIME_SLABS)
  {
  }

  lemma TableTax(income: int, regime: Regime)
    ensures RemainingTax(income, 0, Table(regime)) == SlabTax(income, 0, Table(regime))
  {
    TablesClimb();
    LoopsAgree(income, 0, Table(regime));
  }

  /** The slabs of the new table, written out. */
  lemma NewTableTax(x: int)
    ensures x <= 300000_00 ==> SlabTax(x, 0, NEW_REGIME_SLABS) == 0
    ensures 300000_00 < x <= 700000_00 ==> SlabTax(x, 0, NEW_REGIME_SLABS) == Percent(x - 300000_00, 5)
    ensures x > 1500000_00 ==> SlabTax(x, 0, NEW_REGIME_SLABS) == 140000_00 + Percent(x - 1500000_00, 30)
  {
    var s := NEW_REGIME_SLABS;
    if x > 300000_00 {
      assert SlabTax(x, 0, s) == SlabTax(x, 300000_00, s[1..]);
      if x > 1500000_00 {
        assert SlabTax(x, 300000_00, s[1..]) == 20000_00 + SlabTax(x, 700000_00, s[1..][1..]);
        assert SlabTax(x, 700000_00, s[1..][1..]) == 30000_00 + SlabTax(x, 1000000_00, s[1..][1..][1..]);
        assert SlabTax(x, 1000000_00, s[1..][1..][1..]) == 30000_00 + SlabTax(x, 1200000_00, s[1..][1..][1..][1..]);
        assert SlabTax(x, 1200000_00, s[1..][1..][1..][1..]) == 60000_00 + SlabTax(x, 1500000_00, s[1..][1..][1..][1..][1..]);
      }
    }
  }

  /** The slabs of the old table, written out. */
  lemma OldTableTax(x: int)
    ensures x <= 250000_00 ==> SlabTax(x, 0, OLD_REGIME_SLABS) == 0
    ensures 250000_00 < x <= 500000_00 ==> SlabTax(x, 0, OLD_REGIME_SLABS) == Percent(x - 250000_00, 5)
    ensures x > 1000000_00 ==> SlabTax(x, 0, OLD_REGIME_SLABS) == 112500_00 + Percent(x - 1000000_00, 30)
  {
  }

  lemma ChosenBand(x: int)
    ensures Chosen(x, SURCHARGE) ==
      if x > 50000000_00 then Some(SURCHARGE[3]) else if x > 20000000_00 then Some(SURCHARGE[2])
      else if x > 10000000_00 then Some(SURCHARGE[1]) else if x > 5000000_00 then Some(SURCHARGE[0]) else None
  {
    var i := ChosenAt(x, SURCHARGE);
  }

  lemma PriorBand(limit: int)
    requires limit in {5000000_00, 10000000_00, 20000000_00, 50000000_00}
    ensures PriorRate(limit, SURCHARGE) ==
      if limit == 50000000_00 then 25 else if limit == 20000000_00 then 15 else if limit == 10000000_00 then 10 else 0
  {
    PriorIsHighest(limit, SURCHARGE);
    assert SURCHARGE[0].rate == 10 && SURCHARGE[1].rate == 15 && SURCHARGE[2].rate == 25;
  }

  /** The band the rule engine uses, with the new regime's cap applied. */
  lemma RuleTotal(x: int, regime: Regime)
    ensures var rule := RULE_2025_26;
      && Threshold(x, rule) == (if x > 50000000_00 then 50000000_00 else if x > 20000000_00 then 20000000_00
                                else if x > 10000000_00 then 10000000_00 else if x > 5000000_00 then 5000000_00 else 0)
      && SurchargeRate(x, rule, regime) == (if x > 50000000_00 then if regime.New? then 25 else 37
                                            else if x > 20000000_00 then 25 else if x > 10000000_00 then 15
                                            else if x > 5000000_00 then 10 else 0)
      && (x > 5000000_00 ==>
            Capped(rule, regime, PriorRate(Threshold(x, rule), rule.bands))
            == (if x > 50000000_00 then 25 else if x > 20000000_00 then 15 else if x > 10000000_00 then 10 else 0))
  {
    ChosenBand(x);
    if x > 5000000_00 {
      PriorBand(Threshold(x, RULE_2025_26));
    }
  }

  /** The laws of every rule in order are laws of the bundled ones. */
  lemma RuleInOrder(regime: Regime)
    ensures InOrderRule(RULE_2025_26, regime)
  {
  }

  lemma NextRuleInOrder(regime: Regime)
    ensures InOrderRule(RULE_2026_27, regime)
  {
  }

  lemma HighIncomeArithmetic(x: int, tax: int)
    requires x > 50000000_00 && tax == 140000_00 + Percent(x - 1500000_00, 30)
    ensures tax + Percent(tax, 25) <= 14690000_00 + Percent(14690000_00, 25) + (x - 50000000_00)
    ensures tax + Percent(tax, 25) <= 5690000_00 + Percent(5690000_00, 15) + (x - 20000000_00)
  {
  }

  /** Above five crore both thresholds permit more than the unrelieved tax. */
  lemma NoReliefAboveFiveCrore(x: int)
    requires x > 50000000_00
    ensures var tax := SlabTax(x, 0, NEW_REGIME_SLABS);
      var high := SlabTax(50000000_00, 0, NEW_REGIME_SLABS);
      var low := SlabTax(20000000_00, 0, NEW_REGIME_SLABS);
      && tax + Percent(tax, 25) <= high + Percent(high, 25) + (x - 50000000_00)
      && tax + Percent(tax, 25) <= low + Percent(low, 15) + (x - 20000000_00)
  {
    NewTableTax(x);
    NewTableTax(50000000_00);
    NewTableTax(20000000_00);
    assert SlabTax(50000000_00, 0, NEW_REGIME_SLABS) == 14690000_00;
    assert SlabTax(20000000_00, 0, NEW_REGIME_SLABS) == 5690000_00;
    HighIncomeArithmetic(x, SlabTax(x, 0, NEW_REGIME_SLABS));
  }

  function TableSlabTax(x: int, regime: Regime): int {
    SlabTax(x, 0, Table(regime))
  }

  /** Tax and surcharge at `rate`, relieved down to what `prior` allows at the threshold plus the excess. */
  function Relieved(tax: int, rate: int, top: int, prior: int, excess: int): int {
    Min(tax + Percent(tax, rate), top + Percent(top, prior) + excess)
  }

  lemma InBand(x: int, regime: Regime)
    requires x > 5000000_00
    ensures x > RebateThreshold(RULE_2025_26, regime) && SurchargeRate(x, RULE_2025_26, regime) != 0
    ensures Threshold(x, RULE_2025_26) != 0
  {
    RuleTotal(x, regime);
  }

  lemma RuleEngineForm(x: int, rule: Rule, regime: Regime)
    requires Slabs(rule, regime) == Table(regime) && x > RebateThreshold(rule, regime)
    requires SurchargeRate(x, rule, regime) != 0 && Threshold(x, rule) != 0
    ensures var limit := Threshold(x, rule);
      Total(x, rule, regime, true) == Relieved(TableSlabTax(x, regime), SurchargeRate(x, rule, regime), TableSlabTax(limit, regime),
                                               Capped(rule, regime, PriorRate(limit, rule.bands)), x - limit)
  {
  }

  lemma OtherEngineForm(x: int, regime: Regime)
    requires x > 5000000_00
    ensures var band := BandOf(x, regime);
      var limit := band.threshold.value;
      TotalOf(x, regime) == Relieved(TableSlabTax(x, regime), band.rate, TableSlabTax(limit, regime), band.preceding, x - limit)
  {
    TableTax(x, regime);
    TableTax(BandOf(x, regime).threshold.value, regime);
  }

  /** With a surcharge, the engines differ at most in the threshold they use above five crore. */
  lemma TotalsAgreeAboveFiftyLakh(x: int, regime: Regime)
    requires x > 5000000_00
    ensures TotalOf(x, regime) == Total(x, RULE_2025_26, regime, true)
  {
    InBand(x, regime);
    RuleEngineForm(x, RULE_2025_26, regime);
    OtherEngineForm(x, regime);
    RuleTotal(x, regime);
    if regime.New? && x > 50000000_00 {
      NoReliefAboveFiveCrore(x);
    }
  }

  lemma RuleEngineBelow(x: int, regime: Regime)
    requires x <= 5000000_00
    ensures Total(x, RULE_2025_26, regime, true) == Tax(x, RULE_2025_26, regime, true)
  {
    RuleTotal(x, regime);
    TotalForm(x, RULE_2025_26, regime, true);
  }

  lemma TotalsAgreeNew(x: int)
    requires x >= 0
    ensures TotalOf(x, New) == Total(x, RULE_2025_26, New, true)
  {
    if x > 5000000_00 {
      TotalsAgreeAboveFiftyLakh(x, New);
    } else {
      RuleEngineBelow(x, New);
      TableTax(x, New);
      NewTableTax(x);
    }
  }

  /** Without deductions or credits both engines compute the same gross tax under the new regime. */
  lemma EnginesAgreeNew(x: int)
    requires x >= 0
    ensures TotalOf(x, New) + Percent(TotalOf(x, New), CESS_RATE) == Gross(RULE_2025_26, Request(x, 0, 0, New, true, 0, 0, 0))
  {
    TotalsAgreeNew(x);
    GrossIsTotal(RULE_2025_26, Request(x, 0, 0, New, true, 0, 0, 0));
  }

  /** Up to five lakh the rebate of the rule engine takes the whole tax. */
  lemma OldRebateTakesAll(x: int)
    requires x <= 500000_00
    ensures Total(x, RULE_2025_26, Old, true) == 0
  {
    RuleTotal(x, Old);
    OldTableTax(x);
  }

  lemma TotalsOldAboveRebate(x: int)
    requires x > 500000_00
    ensures TotalOf(x, Old) == Total(x, RULE_2025_26, Old, true)
  {
    if x > 5000000_00 {
      TotalsAgreeAboveFiftyLakh(x, Old);
    } else {
      RuleEngineBelow(x, Old);
      TableTax(x, Old);
    }
  }

  lemma TotalsOldBelowRebate(x: int)
    requires 0 <= x <= 500000_00
    ensures TotalOf(x, Old) == if 250000_00 < x then Percent(x - 250000_00, 5) else 0
  {
  }

  lemma SmallTax(p: int)
    requires p >= 0
    ensures WithCess(p, RULE_2025_26) == 0 <==> p == 0
  {
  }

  /** Under the old regime only this engine forgets the rebate, so they agree exactly outside 2,50,000.20 to
      5,00,000 rupees. */
  lemma EnginesAgreeOld(x: int)
    requires x >= 0
    ensures TotalOf(x, Old) + Percent(TotalOf(x, Old), CESS_RATE) == Gross(RULE_2025_26, Request(x, 0, 0, Old, true, 0, 0, 0))
            <==> !(250000_20 <= x <= 500000_00)
  {
    GrossIsTotal(RULE_2025_26, Request(x, 0, 0, Old, true, 0, 0, 0));
    if x > 500000_00 {
      TotalsOldAboveRebate(x);
    } else {
      OldRebateTakesAll(x);
      TotalsOldBelowRebate(x);
      SmallTax(TotalOf(x, Old));
    }
  }

  lemma BasesAgree(x: int, regime: Regime)
    requires regime.New? || x > 500000_00
    ensures BaseTax(x, regime) == IncomeTaxLaws.Tax(x, RULE_2025_26, regime, true)
  {
    TableTax(x, regime);
    NewTableTax(x);
  }

  lemma TotalsAgree(x: int, regime: Regime)
    requires regime.New? || x > 500000_00
    ensures TotalOf(x, regime) == Total(x, RULE_2025_26, regime, true)
  {
    if regime.Old? {
      TotalsOldAboveRebate(x);
    } else if x >= 0 {
      TotalsAgreeNew(x);
    } else {
      RuleEngineBelow(x, New);
      TableTax(x, New);
      NewTableTax(x);
    }
  }

  /** The surcharge of this engine: none up to fifty lakh, never negative, and that of the rule engine. */
  lemma SurchargesAgree(x: int, regime: Regime)
    ensures var surcharge := TotalOf(x, regime) - BaseTax(x, regime);
      && surcharge >= 0 && (x <= 5000000_00 ==> surcharge == 0)
      && (regime.New? || x > 500000_00 ==>
            surcharge == Surcharge(x, IncomeTaxLaws.Tax(x, RULE_2025_26, regime, true), RULE_2025_26, regime))
  {
    if regime.New? || x > 500000_00 {
      TotalsAgree(x, regime);
      BasesAgree(x, regime);
      RuleInOrder(regime);
      SurchargeIsNeverNegative(x, RULE_2025_26, regime, true);
    }
  }

  // ---- calculate_income_tax, whole ----------------------------------------------------------------------------

  /** Float quotients truncated by int(...) are read as exact floors; the sums are not negative. */
  method CalculateIncomeTax(income: int, regime: Regime) returns (surcharge: int, cess: int, total: int)
    ensures total == TotalOf(income, regime) + Percent(TotalOf(income, regime), CESS_RATE)
    ensures total == BaseTax(income, regime) + surcharge + cess
    ensures 100 * cess <= 4 * (total - cess) < 100 * cess + 100
    ensures surcharge >= 0 && (income <= 5000000_00 ==> surcharge == 0)
    ensures regime.New? || income > 500000_00 ==>
      surcharge == Surcharge(income, IncomeTaxLaws.Tax(income, RULE_2025_26, regime, true), RULE_2025_26, regime)
  {
    var tax := SlabTaxAmount(income, Table(regime));
    if regime.New? && income <= 700000_00 {
      tax := 0;
    }
    var band := BandOf(income, regime);
    var unrelieved := tax * band.rate / 100;
    var relief := 0;
    if band.threshold.Some? {
      var top := SlabTaxAmount(band.threshold.value, Table(regime));
      relief := Max(0, tax + unrelieved - (top + top * band.preceding / 100 + income - band.threshold.value));
    }
    surcharge := unrelieved - relief;
    SurchargesAgree(income, regime);
    cess := (tax + surcharge) * CESS_RATE / 100;
    total := tax + surcharge + cess;
  }

  /** The bundled rule grants no relief at its own thresholds, so income above one costs at most itself. */
  lemma BundledThresholdPromise(x: int, regime: Regime, resident: bool)
    requires x > 5000000_00
    ensures var limit := Threshold(x, RULE_2025_26);
      Total(x, RULE_2025_26, regime, resident) <= Total(limit, RULE_2025_26, regime, resident) + (x - limit)
  {
    var limit := Threshold(x, RULE_2025_26);
    RuleInOrder(regime);
    RuleTotal(x, regime);
    RuleTotal(limit, regime);
    NoReliefAtThreshold(limit, regime, resident);
    TakenOffIsRelief(limit, RULE_2025_26, regime, resident);
    ThresholdPromise(x, RULE_2025_26, regime, resident);
  }

  lemma NoReliefAtThreshold(limit: int, regime: Regime, resident: bool)
    requires limit in {5000000_00, 10000000_00, 20000000_00, 50000000_00}
    ensures ReliefAt(limit, RULE_2025_26, regime, resident) == 0
  {
    RuleTotal(limit, regime);
    NewTableTax(limit);
    OldTableTax(limit);
    if limit > 5000000_00 {
      NewTableTax(Threshold(limit, RULE_2025_26));
      OldTableTax(Threshold(limit, RULE_2025_26));
    }
  }
}
