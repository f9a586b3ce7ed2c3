/**
 Income taxed at special rates beside the slabs.  Marginal relief measures the whole tax, special tax included,
 against the slab tax at the threshold, so it can take more than the surcharge.
 */
module SpecialRates {
  import opened Options
  import opened IncomeTaxRules
  import opened IncomeTaxLaws
  import Tax

  /** Tax and surcharge on a normal taxable income of n beside the special income of the request. */
  function Due(n: int, rule: Rule, q: Request): int {
    var t := n + q.specialIncome;
    var tax := TaxAfterRebate(n, t, rule, q);
    tax + Surcharge(t, tax, rule, q.regime)
  }

  lemma GrossIsDue(rule: Rule, q: Request)
    ensures Gross(rule, q) == WithCess(Due(Max(0, q.income - Deducted(q)), rule, q), rule)
  {
  }

  function BeforeRelief(n: int, rule: Rule, q: Request): int {
    var t := n + q.specialIncome;
    var tax := TaxAfterRebate(n, t, rule, q);
    tax + Percent(tax, SurchargeRate(t, rule, q.regime))
  }

  /** Relief is looked at for this taxable income. */
  predicate Relievable(t: int, rule: Rule, regime: Regime) {
    SurchargeRate(t, rule, regime) != 0 && Threshold(t, rule) != 0
  }

  lemma DueForm(n: int, rule: Rule, q: Request)
    ensures var t := n + q.specialIncome;
      Due(n, rule, q) == if Relievable(t, rule, q.regime)
                         then Min(BeforeRelief(n, rule, q), Permitted(t, Threshold(t, rule), rule, q.regime))
                         else BeforeRelief(n, rule, q)
  {
  }

  /** The surcharge is negative exactly when the tax alone exceeds what is permitted, which slab tax never does. */
  lemma SurchargeSign(n: int, rule: Rule, q: Request)
    requires InOrderRule(rule, q.regime) && q.specialTax >= 0
    ensures var t := n + q.specialIncome;
      var tax := TaxAfterRebate(n, t, rule, q);
      Surcharge(t, tax, rule, q.regime) < 0 <==>
        Relievable(t, rule, q.regime) && tax > Permitted(t, Threshold(t, rule), rule, q.regime)
  {
    var t := n + q.specialIncome;
    SlabsValid(rule, q.regime);
    SlabTaxNonNegative(n, 0, Slabs(rule, q.regime));
    SurchargeRateNonNegative(t, rule, q.regime);
    PercentNonNegative(TaxAfterRebate(n, t, rule, q), SurchargeRate(t, rule, q.regime));
  }

  lemma TaxAfterRebateGrows(x: int, y: int, rule: Rule, q: Request)
    requires InOrderRule(rule, q.regime) && x <= y
    ensures q.specialTax <= TaxAfterRebate(x, x + q.specialIncome, rule, q) <= TaxAfterRebate(y, y + q.specialIncome, rule, q)
  {
    SlabsValid(rule, q.regime);
    SlabTaxNonNegative(x, 0, Slabs(rule, q.regime));
    SlabTaxIsLipschitz(x, y, 0, Slabs(rule, q.regime));
  }

  lemma BeforeReliefGrows(x: int, y: int, rule: Rule, q: Request)
    requires InOrderRule(rule, q.regime) && q.specialTax >= 0 && x <= y
    ensures BeforeRelief(x, rule, q) <= BeforeRelief(y, rule, q)
  {
    var s, t := x + q.specialIncome, y + q.specialIncome;
    TaxAfterRebateGrows(x, y, rule, q);
    SurchargeRateGrows(s, t, rule, q.regime);
    SurchargeRateNonNegative(s, rule, q.regime);
    SharesGrow(TaxAfterRebate(x, s, rule, q), TaxAfterRebate(y, t, rule, q),
               SurchargeRate(s, rule, q.regime), SurchargeRate(t, rule, q.regime));
  }

  /** The due at the threshold n + specialIncome fits under what is permitted a paisa above it. */
  predicate Fits(n: int, rule: Rule, q: Request) {
    var limit := n + q.specialIncome;
    Relievable(limit + 1, rule, q.regime) ==> Due(n, rule, q) <= Permitted(limit + 1, limit, rule, q.regime)
  }

  /** One more paisa saves tax exactly at a threshold where the due does not fit. */
  lemma StepGrowsIff(n: int, rule: Rule, q: Request)
    requires InOrderRule(rule, q.regime) && q.specialTax >= 0
    ensures Due(n, rule, q) <= Due(n + 1, rule, q) <==>
      (Above(n + q.specialIncome + 1, n + q.specialIncome, rule) ==> Fits(n, rule, q))
  {
    var t := n + q.specialIncome;
    DueForm(n, rule, q);
    DueForm(n + 1, rule, q);
    BeforeReliefGrows(n, n + 1, rule, q);
    if Chosen(t + 1, rule.bands).Some? {
      AboveIsAbove(t + 1, Threshold(t + 1, rule), rule);
      if t > Threshold(t + 1, rule) {
        SameBandOrBelow(t, t + 1, rule);
      }
    } else {
      var i := ChosenAt(t, rule.bands);
      var j := ChosenAt(t + 1, rule.bands);
    }
  }

  ghost predicate DueNeverFalls(rule: Rule, q: Request) {
    forall x, y :: 0 <= x <= y ==> Due(x, rule, q) <= Due(y, rule, q)
  }

  /** The thresholds that normal income can cross on top of the special income. */
  ghost predicate ThresholdsFit(rule: Rule, q: Request) {
    forall i :: 0 <= i < |rule.bands| ==>
                  var n := rule.bands[i].limit - q.specialIncome;
                  n >= 0 && Above(n + q.specialIncome + 1, n + q.specialIncome, rule) ==> Fits(n, rule, q)
  }

  lemma ThresholdIsALimit(n: int, rule: Rule, q: Request) returns (i: nat)
    requires Above(n + q.specialIncome + 1, n + q.specialIncome, rule)
    ensures i < |rule.bands| && rule.bands[i].limit - q.specialIncome == n
  {
    var k := ChosenAt(n + q.specialIncome + 1, rule.bands);
    i := k;
  }

  lemma {:induction false} DueGrowsStepByStep(x: int, y: int, rule: Rule, q: Request)
    requires InOrderRule(rule, q.regime) && q.specialTax >= 0 && ThresholdsFit(rule, q) && 0 <= x <= y
    ensures Due(x, rule, q) <= Due(y, rule, q)
    decreases y - x
  {
    if x < y {
      StepGrowsIff(y - 1, rule, q);
      if Above(y + q.specialIncome, y - 1 + q.specialIncome, rule) {
        var i := ThresholdIsALimit(y - 1, rule, q);
        assert rule.bands[i].limit - q.specialIncome == y - 1;
      }
      DueGrowsStepByStep(x, y - 1, rule, q);
    }
  }

  /** Whatever the special income and its tax: more normal income never means less tax exactly when, at each
      threshold it can cross, the tax due there is within what is permitted just above. */
  lemma DueNeverFallsIff(rule: Rule, q: Request)
    requires InOrderRule(rule, q.regime) && q.specialTax >= 0
    ensures DueNeverFalls(rule, q) <==> ThresholdsFit(rule, q)
  {
    if ThresholdsFit(rule, q) {
      forall x, y | 0 <= x <= y ensures Due(x, rule, q) <= Due(y, rule, q) {
        DueGrowsStepByStep(x, y, rule, q);
      }
    }
    if DueNeverFalls(rule, q) {
      forall i | 0 <= i < |rule.bands| && rule.bands[i].limit - q.specialIncome >= 0
        ensures var n := rule.bands[i].limit - q.specialIncome;
          Above(n + q.specialIncome + 1, n + q.specialIncome, rule) ==> Fits(n, rule, q)
      {
        var n := rule.bands[i].limit - q.specialIncome;
        StepGrowsIff(n, rule, q);
        assert Due(n, rule, q) <= Due(n + 1, rule, q);
      }
    }
  }

  lemma CessKeepsOrder(a: int, b: int, rule: Rule)
    requires 0 <= rule.cess <= 100
    ensures WithCess(a, rule) <= WithCess(b, rule) <==> a <= b
  {
    if a <= b {
      PercentBounds(a, b, rule.cess);
    } else {
      PercentBounds(b, a, rule.cess);
    }
  }

  lemma GrossOrder(rule: Rule, q: Request, x: int, y: int)
    requires 0 <= rule.cess <= 100
    ensures Gross(rule, q.(income := x)) <= Gross(rule, q.(income := y)) <==>
      Due(Max(0, x - Deducted(q)), rule, q) <= Due(Max(0, y - Deducted(q)), rule, q)
  {
    GrossIsDue(rule, q.(income := x));
    GrossIsDue(rule, q.(income := y));
    CessKeepsOrder(Due(Max(0, x - Deducted(q)), rule, q), Due(Max(0, y - Deducted(q)), rule, q), rule);
  }

  ghost predicate GrossNeverFalls(rule: Rule, q: Request) {
    forall x, y :: x <= y ==> Gross(rule, q.(income := x)) <= Gross(rule, q.(income := y))
  }

  /** The same of gross tax as income rises, whatever the deductions. */
  lemma GrossNeverFallsIff(rule: Rule, q: Request)
    requires InOrderRule(rule, q.regime) && q.specialTax >= 0
    ensures GrossNeverFalls(rule, q) <==> ThresholdsFit(rule, q)
  {
    DueNeverFallsIff(rule, q);
    var d := Deducted(q);
    if DueNeverFalls(rule, q) {
      forall x, y | x <= y ensures Gross(rule, q.(income := x)) <= Gross(rule, q.(income := y)) {
        GrossOrder(rule, q, x, y);
      }
    }
    if GrossNeverFalls(rule, q) {
      forall n, m | 0 <= n <= m ensures Due(n, rule, q) <= Due(m, rule, q) {
        GrossOrder(rule, q, n + d, m + d);
        assert Gross(rule, q.(income := n + d)) <= Gross(rule, q.(income := m + d));
      }
    }
  }

  // ---- the bundled rule ---------------------------------------------------------------------------------------

  /** Fifty lakh of winnings taxed at thirty per cent. */
  const WINNINGS := Request(0, 0, 0, Old, true, 5000000_00, 1500000_00, 0)

  lemma WinningsTax(n: int)
    requires n in {0, 1}
    ensures TaxAfterRebate(n, n + WINNINGS.specialIncome, RULE_2025_26, WINNINGS) == 1500000_00
  {
    Tax.OldTableTax(n);
  }

  lemma FiftyLakh()
    ensures !Relievable(5000000_00, RULE_2025_26, Old) && SurchargeRate(5000000_00, RULE_2025_26, Old) == 0
    ensures Relievable(5000000_01, RULE_2025_26, Old) && Threshold(5000000_01, RULE_2025_26) == 5000000_00
    ensures Permitted(5000000_01, 5000000_00, RULE_2025_26, Old) == 1312500_01
  {
    Tax.RuleTotal(5000000_00, Old);
    Tax.RuleTotal(5000000_01, Old);
    Tax.OldTableTax(5000000_00);
  }

  /** Without a surcharge the tax alone is due; a tax above what is permitted is cut down to it. */
  lemma DueOfTax(n: int, t: int, tax: int, rule: Rule, q: Request)
    requires InOrderRule(rule, q.regime) && t == n + q.specialIncome && tax == TaxAfterRebate(n, t, rule, q) && tax >= 0
    ensures SurchargeRate(t, rule, q.regime) == 0 ==> Due(n, rule, q) == tax
    ensures Relievable(t, rule, q.regime) && tax >= Permitted(t, Threshold(t, rule), rule, q.regime) ==>
              Due(n, rule, q) == Permitted(t, Threshold(t, rule), rule, q.regime)
  {
    SurchargeRateNonNegative(t, rule, q.regime);
    PercentNonNegative(tax, SurchargeRate(t, rule, q.regime));
    DueForm(n, rule, q);
  }

  /** Special income that ends at a threshold, taxed above what is permitted a paisa further. */
  lemma FirstPaisaSaves(rule: Rule, q: Request, limit: int, tax: int)
    requires InOrderRule(rule, q.regime) && q.specialIncome == limit && 0 <= tax
    requires SurchargeRate(limit, rule, q.regime) == 0
    requires Relievable(limit + 1, rule, q.regime) && Threshold(limit + 1, rule) == limit
    requires TaxAfterRebate(0, limit, rule, q) == tax == TaxAfterRebate(1, limit + 1, rule, q)
    requires tax > Permitted(limit + 1, limit, rule, q.regime)
    ensures Due(0, rule, q) == tax && Due(1, rule, q) == Permitted(limit + 1, limit, rule, q.regime)
    ensures Surcharge(limit + 1, tax, rule, q.regime) < 0
  {
    DueOfTax(0, limit, tax, rule, q);
    DueOfTax(1, limit + 1, tax, rule, q);
  }

  /** A first paisa of normal income crosses the threshold, turns the surcharge negative and saves 1,87,499.99 rupees. */
  lemma OnePaisaSavesTax()
    ensures Due(0, RULE_2025_26, WINNINGS) == 1500000_00 && Due(1, RULE_2025_26, WINNINGS) == 1312500_01
  {
    FiftyLakh();
    WinningsTax(0);
    WinningsTax(1);
    Tax.RuleInOrder(Old);
    FirstPaisaSaves(RULE_2025_26, WINNINGS, 5000000_00, 1500000_00);
  }
}
