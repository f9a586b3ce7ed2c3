/** Assessment-year tax rules: slab tax with a floor in every slab, rebate, surcharge and marginal relief, in paise. */
module IncomeTaxRules {
  import opened Options

  /** upper == None is the open slab. */
  datatype Slab = Slab(upper: Option<int>, rate: int)

  datatype Band = Band(limit: int, rate: int)

  datatype Regime = New | Old

  datatype Rule = Rule(
    newSlabs: seq<Slab>, oldSlabs: seq<Slab>,
    newRebateThreshold: int, newRebateMax: int, oldRebateThreshold: int, oldRebateMax: int,
    cess: int, bands: seq<Band>, newCap: Option<int>, unit: int)

  const OLD_SLABS := [Slab(Some(250000_00), 0), Slab(Some(500000_00), 5), Slab(Some(1000000_00), 20), Slab(None, 30)]
  const SURCHARGE := [Band(5000000_00, 10), Band(10000000_00, 15), Band(20000000_00, 25), Band(50000000_00, 37)]
  const RULE_2025_26 := Rule(
    [Slab(Some(300000_00), 0), Slab(Some(700000_00), 5), Slab(Some(1000000_00), 10), Slab(Some(1200000_00), 15),
     Slab(Some(1500000_00), 20), Slab(None, 30)],
    OLD_SLABS, 700000_00, 25000_00, 500000_00, 12500_00, 4, SURCHARGE, Some(25), 1000)
  const RULE_2026_27 := Rule(
    [Slab(Some(400000_00), 0), Slab(Some(800000_00), 5), Slab(Some(1200000_00), 10), Slab(Some(1600000_00), 15),
     Slab(Some(2000000_00), 20), Slab(Some(2400000_00), 25), Slab(None, 30)],
    OLD_SLABS, 1200000_00, 60000_00, 500000_00, 12500_00, 4, SURCHARGE, Some(25), 1000)

  function Min(a: int, b: int): int { if a < b then a else b }

  function Max(a: int, b: int): int { if a < b then b else a }

  function Percent(amount: int, rate: int): int { amount * rate / 100 }

  function Slabs(rule: Rule, regime: Regime): seq<Slab> {
    if regime.New? then rule.newSlabs else rule.oldSlabs
  }

  // ---- validate_rule -------------------------------------------------------------------------------------

  predicate InOrder(a: Slab, b: Slab) {
    a.upper.Some? && b.upper.Some? && a.upper.value <= b.upper.value
  }

  /** Upper limits before the last slab ascend; comparing a missing one with another raises. */
  ghost predicate Ascending(slabs: seq<Slab>) {
    forall i, j :: 0 <= i < j < |slabs| - 1 ==> InOrder(slabs[i], slabs[j])
  }

  ghost predicate ValidSlabs(slabs: seq<Slab>) {
    && |slabs| > 0 && slabs[|slabs| - 1].upper == None
    && Ascending(slabs)
    && forall i :: 0 <= i < |slabs| ==> 0 <= slabs[i].rate <= 100
  }

  ghost predicate ValidRule(rule: Rule) {
    ValidSlabs(rule.newSlabs) && ValidSlabs(rule.oldSlabs) && 0 <= rule.cess <= 100
  }

  method ValidateSlabs(slabs: seq<Slab>) returns (ok: bool)
    ensures ok <==> ValidSlabs(slabs)
  {
    if |slabs| == 0 || slabs[|slabs| - 1].upper != None {
      return false;
    }
    for i := 0 to |slabs|
      invariant forall k :: 0 <= k < i ==> 0 <= slabs[k].rate <= 100
    {
      if slabs[i].rate < 0 || slabs[i].rate > 100 {
        return false;
      }
    }
    for i := 1 to |slabs|
      invariant forall j, k :: 0 <= j < k < i && k < |slabs| - 1 ==> InOrder(slabs[j], slabs[k])
    {
      if i < |slabs| - 1 && !InOrder(slabs[i - 1], slabs[i]) {
        return false;
      }
    }
    ok := true;
  }

  // ---- slab tax ------------------------------------------------------------------------------------------------

  /** The part of the income that falls into the slab above `lower`. */
  function Taxable(income: int, lower: int, upper: Option<int>): int {
    if upper.None? then Max(0, income - lower) else Max(0, Min(income, upper.value) - lower)
  }

  /** The loop ends with this slab. */
  predicate LastSlab(income: int, slab: Slab) {
    slab.upper.None? || income <= slab.upper.value
  }

  function SlabTax(income: int, lower: int, slabs: seq<Slab>): int
    decreases |slabs|
  {
    if slabs == [] then 0
    else
      var amount := Percent(Taxable(income, lower, slabs[0].upper), slabs[0].rate);
      if LastSlab(income, slabs[0]) then amount else amount + SlabTax(income, slabs[0].upper.value, slabs[1..])
  }

  /** One entry of slab_details. */
  datatype Detail = Detail(lower: int, upper: Option<int>, rate: int, taxable: int, tax: int)

  /** What one slab adds to the details. */
  function SlabDetail(income: int, lower: int, slab: Slab): seq<Detail> {
    var t := Taxable(income, lower, slab.upper);
    if t != 0 then [Detail(lower, slab.upper, slab.rate, t, Percent(t, slab.rate))] else []
  }

  function Details(income: int, lower: int, slabs: seq<Slab>): seq<Detail>
    decreases |slabs|
  {
    if slabs == [] then []
    else
      var first := SlabDetail(income, lower, slabs[0]);
      if LastSlab(income, slabs[0]) then first else first + Details(income, slabs[0].upper.value, slabs[1..])
  }

  function TotalTaxable(details: seq<Detail>): int {
    if details == [] then 0 else details[0].taxable + TotalTaxable(details[1..])
  }

  function TotalTax(details: seq<Detail>): int {
    if details == [] then 0 else details[0].tax + TotalTax(details[1..])
  }

  lemma {:induction false} TotalTaxConcat(a: seq<Detail>, b: seq<Detail>)
    ensures TotalTax(a + b) == TotalTax(a) + TotalTax(b)
  {
    if a == [] {
      assert a + b == b;
    } else {
      assert (a + b)[1..] == a[1..] + b;
      TotalTaxConcat(a[1..], b);
    }
  }

  /** The details account for the whole tax. */
  lemma {:induction false} DetailsHoldTheTax(income: int, lower: int, slabs: seq<Slab>)
    ensures TotalTax(Details(income, lower, slabs)) == SlabTax(income, lower, slabs)
    decreases |slabs|
  {
    if slabs != [] {
      var upper := slabs[0].upper;
      var first := SlabDetail(income, lower, slabs[0]);
      if upper.Some? && upper.value < income {
        DetailsHoldTheTax(income, upper.value, slabs[1..]);
        TotalTaxConcat(first, Details(income, upper.value, slabs[1..]));
      }
    }
  }

  lemma DetailStep(income: int, lower: int, slabs: seq<Slab>, i: nat, before: seq<Detail>)
    requires i < |slabs|
    ensures before + Details(income, lower, slabs[i..]) ==
      (before + SlabDetail(income, lower, slabs[i]))
      + (if LastSlab(income, slabs[i]) then [] else Details(income, slabs[i].upper.value, slabs[i + 1..]))
  {
    assert slabs[i..][0] == slabs[i] && slabs[i..][1..] == slabs[i + 1..];
  }

  method ComputeSlabTax(income: int, slabs: seq<Slab>) returns (tax: int, details: seq<Detail>)
    ensures tax == SlabTax(income, 0, slabs) && details == Details(income, 0, slabs)
  {
    var lower := 0;
    tax, details := 0, [];
    DetailsHoldTheTax(income, 0, slabs);
    for i := 0 to |slabs|
      invariant tax == TotalTax(details)
      invariant details + Details(income, lower, slabs[i..]) == Details(income, 0, slabs)
    {
      DetailStep(income, lower, slabs, i, details);
      TotalTaxConcat(details, SlabDetail(income, lower, slabs[i]));
      var upper, rate := slabs[i].upper, slabs[i].rate;
      var taxable := Taxable(income, lower, upper);
      if taxable != 0 {
        var amount := Percent(taxable, rate);
        tax := tax + amount;
        details := details + [Detail(lower, upper, rate, taxable, amount)];
      } else {
        assert details + [] == details;
      }
      if upper.None? || income <= upper.value {
        assert details + [] == details;
        return;
      }
      lower := upper.value;
    }
    assert details + [] == details;
  }

  lemma ShareBounds(d: int, rate: int)
    requires 0 <= d && 0 <= rate <= 100
    ensures 0 <= d * rate <= 100 * d
  {
  }

  lemma FloorBounds(a: int, b: int, d: int)
    requires 0 <= b <= 100 * d
    ensures 0 <= (a + b) / 100 - a / 100 <= d
  {
  }

  lemma PercentBounds(x: int, y: int, rate: int)
    requires x <= y && 0 <= rate <= 100
    ensures 0 <= Percent(y, rate) - Percent(x, rate) <= y - x
  {
    ShareBounds(y - x, rate);
    FloorBounds(x * rate, (y - x) * rate, y - x);
    assert y * rate == x * rate + (y - x) * rate;
  }

  lemma PercentNonNegative(x: int, r: int)
    requires 0 <= x && 0 <= r
    ensures 0 <= Percent(x, r)
  {
  }

  lemma TailValid(slabs: seq<Slab>)
    requires ValidSlabs(slabs) && |slabs| > 1
    ensures ValidSlabs(slabs[1..])
    ensures slabs[0].upper.Some? && slabs[1].upper.Some? ==> slabs[0].upper.value <= slabs[1].upper.value
  {
  }

  /** The income that a slab starts at owes it, and the slabs above, nothing. */
  lemma NothingAtLower(lower: int, slabs: seq<Slab>)
    requires |slabs| > 0 && (slabs[0].upper.Some? ==> lower <= slabs[0].upper.value)
    ensures SlabTax(lower, lower, slabs) == 0
  {
  }

  /** Each slab rounds down on its own, and still an extra paisa of income costs at most one paisa of tax and
      never saves any. */
  lemma {:induction false} SlabTaxIsLipschitz(x: int, y: int, lower: int, slabs: seq<Slab>)
    requires ValidSlabs(slabs) && x <= y
    ensures 0 <= SlabTax(y, lower, slabs) - SlabTax(x, lower, slabs) <= y - x
    decreases |slabs|
  {
    var upper, rate := slabs[0].upper, slabs[0].rate;
    PercentBounds(Taxable(x, lower, upper), Taxable(y, lower, upper), rate);
    if upper.Some? && upper.value < y {
      var u := upper.value;
      TailValid(slabs);
      if u < x {
        SlabTaxIsLipschitz(x, y, u, slabs[1..]);
      } else {
        NothingAtLower(u, slabs[1..]);
        SlabTaxIsLipschitz(u, y, u, slabs[1..]);
      }
    }
  }

  lemma {:induction false} SlabTaxNonNegative(x: int, lower: int, slabs: seq<Slab>)
    requires ValidSlabs(slabs)
    ensures SlabTax(x, lower, slabs) >= 0
    decreases |slabs|
  {
    PercentNonNegative(Taxable(x, lower, slabs[0].upper), slabs[0].rate);
    if slabs[0].upper.Some? && slabs[0].upper.value < x {
      TailValid(slabs);
      SlabTaxNonNegative(x, slabs[0].upper.value, slabs[1..]);
    }
  }

  /** The details account for the whole income. */
  lemma {:induction false} DetailsAddUp(income: int, lower: int, slabs: seq<Slab>)
    requires ValidSlabs(slabs) && lower <= income && (slabs[0].upper.Some? ==> lower <= slabs[0].upper.value)
    ensures TotalTaxable(Details(income, lower, slabs)) == income - lower
    decreases |slabs|
  {
    var upper := slabs[0].upper;
    if upper.Some? && upper.value < income {
      TailValid(slabs);
      DetailsAddUp(income, upper.value, slabs[1..]);
      var first, rest := SlabDetail(income, lower, slabs[0]), Details(income, upper.value, slabs[1..]);
      if first == [] {
        assert first + rest == rest;
      } else {
        assert (first + rest)[1..] == rest;
      }
    }
  }

  /** The lower limit of slab i: the upper limit of the slab below, or where the slabs start. */
  function LowerOf(lower: int, slabs: seq<Slab>, i: nat): int
    requires i < |slabs| && forall k :: 0 <= k < i ==> slabs[k].upper.Some?
  {
    if i == 0 then lower else slabs[i - 1].upper.value
  }

  /** d is what the income has in slab i, and the tax on that, rounded down. */
  ghost predicate ShareOf(d: Detail, income: int, lower: int, slabs: seq<Slab>, i: nat) {
    && i < |slabs| && (forall k :: 0 <= k < i ==> slabs[k].upper.Some?)
    && d.lower == LowerOf(lower, slabs, i) && d.upper == slabs[i].upper && d.rate == slabs[i].rate
    && d.taxable == (if d.upper.Some? && d.upper.value < income then d.upper.value else income) - d.lower
    && d.taxable > 0 && 100 * d.tax <= d.rate * d.taxable < 100 * d.tax + 100
  }

  lemma {:induction false} DetailsAreShares(income: int, lower: int, slabs: seq<Slab>, k: nat) returns (i: nat)
    requires k < |Details(income, lower, slabs)|
    ensures ShareOf(Details(income, lower, slabs)[k], income, lower, slabs, i)
    decreases |slabs|
  {
    var first := SlabDetail(income, lower, slabs[0]);
    if k < |first| {
      i := 0;
    } else {
      var j := DetailsAreShares(income, slabs[0].upper.value, slabs[1..], k - |first|);
      i := j + 1;
      ShareShifts(Details(income, lower, slabs)[k], income, lower, slabs, j);
    }
  }

  lemma ShareShifts(d: Detail, income: int, lower: int, slabs: seq<Slab>, j: nat)
    requires slabs != [] && slabs[0].upper.Some? && ShareOf(d, income, slabs[0].upper.value, slabs[1..], j)
    ensures ShareOf(d, income, lower, slabs, j + 1)
  {
    forall k | 0 <= k < j + 1 ensures slabs[k].upper.Some? {
      assert k == 0 || slabs[k] == slabs[1..][k - 1];
    }
  }

  // ---- surcharge ------------------------------------------------------------------------------------------------

  /** The band the loop ends with: the last one in the list whose limit the income exceeds. */
  function Chosen(income: int, bands: seq<Band>): Option<Band> {
    if bands == [] then None
    else
      var last := bands[|bands| - 1];
      if income > last.limit then Some(last) else Chosen(income, bands[..|bands| - 1])
  }

  /** The highest rate among the bands below `limit`, 0 without any. */
  function PriorRate(limit: int, bands: seq<Band>): int {
    if bands == [] then 0
    else
      var b := bands[|bands| - 1];
      var rest := bands[..|bands| - 1];
      if b.limit >= limit then PriorRate(limit, rest)
      else if exists k :: 0 <= k < |rest| && rest[k].limit < limit then Max(PriorRate(limit, rest), b.rate)
      else b.rate
  }

  function Capped(rule: Rule, regime: Regime, rate: int): int {
    if regime.New? && rule.newCap.Some? then Min(rate, rule.newCap.value) else rate
  }

  function Threshold(income: int, rule: Rule): int {
    var b := Chosen(income, rule.bands);
    if b.None? then 0 else b.value.limit
  }

  function SurchargeRate(income: int, rule: Rule, regime: Regime): int {
    var b := Chosen(income, rule.bands);
    Capped(rule, regime, if b.None? then 0 else b.value.rate)
  }

  /** What tax and surcharge may come to just above a threshold. */
  function Permitted(income: int, threshold: int, rule: Rule, regime: Regime): int {
    var tax := SlabTax(threshold, 0, Slabs(rule, regime));
    tax + Percent(tax, Capped(rule, regime, PriorRate(threshold, rule.bands))) + (income - threshold)
  }

  function Relief(income: int, tax: int, rule: Rule, regime: Regime): int {
    var rate := SurchargeRate(income, rule, regime);
    var threshold := Threshold(income, rule);
    if rate != 0 && threshold != 0
    then Max(0, tax + Percent(tax, rate) - Permitted(income, threshold, rule, regime)) else 0
  }

  function Surcharge(income: int, tax: int, rule: Rule, regime: Regime): int {
    Percent(tax, SurchargeRate(income, rule, regime)) - Relief(income, tax, rule, regime)
  }

  method ComputeSurcharge(income: int, tax: int, rule: Rule, regime: Regime) returns (rate: int, surcharge: int, relief: int)
    ensures rate == SurchargeRate(income, rule, regime)
    ensures surcharge == Surcharge(income, tax, rule, regime) && relief == Relief(income, tax, rule, regime)
  {
    var bands := rule.bands;
    rate := 0;
    var threshold := 0;
    for i := 0 to |bands|
      invariant var b := Chosen(income, bands[..i]);
        rate == (if b.None? then 0 else b.value.rate) && threshold == (if b.None? then 0 else b.value.limit)
    {
      assert bands[..i + 1][..i] == bands[..i];
      if income > bands[i].limit {
        rate, threshold := bands[i].rate, bands[i].limit;
      }
    }
    assert bands[..|bands|] == bands;
    if regime.New? && rule.newCap.Some? {
      rate := Min(rate, rule.newCap.value);
    }
    surcharge, relief := tax * rate / 100, 0;
    if rate != 0 && threshold != 0 {
      var thresholdTax, _ := ComputeSlabTax(threshold, Slabs(rule, regime));
      var prior := ComputePriorRate(threshold, bands);
      if regime.New? && rule.newCap.Some? {
        prior := Min(prior, rule.newCap.value);
      }
      var permitted := thresholdTax + thresholdTax * prior / 100 + (income - threshold);
      relief := Max(0, tax + surcharge - permitted);
      surcharge := surcharge - relief;
    }
  }

  method ComputePriorRate(limit: int, bands: seq<Band>) returns (rate: int)
    ensures rate == PriorRate(limit, bands)
  {
    rate := 0;
    var seen := false;
    for i := 0 to |bands|
      invariant rate == PriorRate(limit, bands[..i])
      invariant seen <==> exists k :: 0 <= k < i && bands[k].limit < limit
    {
      assert bands[..i + 1][..i] == bands[..i];
      if bands[i].limit < limit {
        assert (exists k :: 0 <= k < |bands[..i]| && bands[..i][k].limit < limit) <==> seen by {
          if seen {
            var k :| 0 <= k < i && bands[k].limit < limit;
            assert bands[..i][k].limit < limit;
          }
        }
        rate := if seen then Max(rate, bands[i].rate) else bands[i].rate;
        seen := true;
      }
    }
    assert bands[..|bands|] == bands;
  }

  // ---- calculate ---------------------------------------------------------------------------------------------------

  function Rebate(tax: int, taxable: int, rule: Rule, regime: Regime, resident: bool): int {
    var threshold := if regime.New? then rule.newRebateThreshold else rule.oldRebateThreshold;
    var maximum := if regime.New? then rule.newRebateMax else rule.oldRebateMax;
    if resident && taxable <= threshold then Min(tax, maximum) else 0
  }

  datatype Request = Request(
    income: int, deductions: int, credits: int, regime: Regime, resident: bool,
    specialIncome: int, specialTax: int, allowedInNew: int)

  datatype Assessment = Assessment(
    deductions: int, disallowed: int, normalTaxable: int, taxable: int, details: seq<Detail>, slabTax: int, rebate: int,
    rate: int, surcharge: int, relief: int, cess: int, gross: int, payable: int, rounded: int, refund: int)

  function Deducted(q: Request): int {
    if q.regime.Old? then Max(0, q.deductions) else Max(0, Min(Max(0, q.deductions), q.allowedInNew))
  }

  /** Under OLD all of the request is deducted, and the allowance of the new regime changes nothing. */
  lemma OldDeductsTheRequest(q: Request, allowance: int)
    requires q.regime.Old?
    ensures Deducted(q) == (if q.deductions < 0 then 0 else q.deductions) == Deducted(q.(allowedInNew := allowance))
  {
  }

  /** Under NEW no more is deducted than is requested or allowed, and all of a request that the allowance covers. */
  lemma NewDeductsTheAllowed(q: Request)
    requires q.regime.New?
    ensures 0 <= Deducted(q) && (q.deductions >= 0 ==> Deducted(q) <= q.deductions) && (q.allowedInNew >= 0 ==> Deducted(q) <= q.allowedInNew)
    ensures q.deductions < 0 || q.allowedInNew < 0 ==> Deducted(q) == 0
    ensures 0 <= q.deductions <= q.allowedInNew ==> Deducted(q) == q.deductions
    ensures 0 <= q.allowedInNew <= q.deductions ==> Deducted(q) == q.allowedInNew
  {
  }

  /** The tax after rebate that surcharge and cess are computed from. */
  function TaxAfterRebate(normalTaxable: int, taxable: int, rule: Rule, q: Request): int {
    var tax := SlabTax(normalTaxable, 0, Slabs(rule, q.regime));
    tax - Rebate(tax, taxable, rule, q.regime, q.resident) + q.specialTax
  }

  function WithCess(amount: int, rule: Rule): int {
    amount + Percent(amount, rule.cess)
  }

  function Gross(rule: Rule, q: Request): int {
    var normal := Max(0, q.income - Deducted(q));
    var tax := TaxAfterRebate(normal, normal + q.specialIncome, rule, q);
    WithCess(tax + Surcharge(normal + q.specialIncome, tax, rule, q.regime), rule)
  }

  /** `rate` per cent of the amount, rounded down. */
  predicate IsShare(share: int, amount: int, rate: int) {
    100 * share <= rate * amount < 100 * share + 100
  }

  lemma PercentIsShare(amount: int, rate: int)
    ensures IsShare(Percent(amount, rate), amount, rate)
  {
    assert rate * amount == amount * rate;
  }

  /** The allowance of the new regime has no effect on the gross tax under OLD ... */
  lemma OldIgnoresTheAllowance(rule: Rule, q: Request, allowance: int)
    requires q.regime.Old?
    ensures Gross(rule, q.(allowedInNew := allowance)) == Gross(rule, q)
  {
    OldDeductsTheRequest(q, allowance);
  }

  /** ... and caps what a request is worth under NEW: beyond it, requesting more changes nothing. */
  lemma NewIgnoresTheExcess(rule: Rule, q: Request, more: int)
    requires q.regime.New? && 0 <= q.allowedInNew <= more
    ensures Gross(rule, q.(deductions := more)) == Gross(rule, q.(deductions := q.allowedInNew))
  {
    NewDeductsTheAllowed(q.(deductions := more));
    NewDeductsTheAllowed(q.(deductions := q.allowedInNew));
  }

  /** A resident up to the threshold pays what the slab tax exceeds the maximum rebate by; nobody else gets a rebate. */
  lemma RebateTakesUpToTheMaximum(tax: int, taxable: int, rule: Rule, regime: Regime, resident: bool)
    requires tax >= 0
    ensures var (threshold, maximum) := if regime == New then (rule.newRebateThreshold, rule.newRebateMax)
                                        else (rule.oldRebateThreshold, rule.oldRebateMax);
      tax - Rebate(tax, taxable, rule, regime, resident) == if resident && taxable <= threshold && tax <= maximum then 0
                                                            else if resident && taxable <= threshold then tax - maximum else tax
  {
  }

  /** Division that rounds down, for a divisor of either sign. */
  function FloorDiv(a: int, b: int): int
    requires b != 0
  {
    if b > 0 then a / b else (-a) / (-b)
  }

  function Rounded(payable: int, unit: int): int
    requires unit != 0
  {
    FloorDiv(payable + FloorDiv(unit, 2), unit) * unit
  }

  /** The rounded amount is a multiple of the unit, and none is nearer; a tie goes up. */
  lemma RoundedIsNearest(payable: int, unit: int, k: int) returns (n: int)
    requires unit > 0
    ensures Rounded(payable, unit) == n * unit
    ensures n * unit <= payable + unit / 2 < n * unit + unit
    ensures Max(n * unit - payable, payable - n * unit) <= Max(k * unit - payable, payable - k * unit)
  {
    n := (payable + unit / 2) / unit;
    if k < n {
      assert k * unit <= (n - 1) * unit == n * unit - unit;
    } else if k > n {
      assert k * unit >= (n + 1) * unit == n * unit + unit;
    }
  }

  /** None is the ValueError of a rule that does not validate, or the ZeroDivisionError of a rounding unit of 0. */
  method Calculate(rule: Rule, q: Request) returns (r: Option<Assessment>)
    ensures r.Some? <==> ValidRule(rule) && rule.unit != 0
    ensures r.Some? ==>
      var a := r.value;
      && a.deductions == Deducted(q) && a.deductions + a.disallowed == Max(0, q.deductions)
      && (q.regime.Old? ==> a.disallowed == 0)
      && (q.regime.New? ==> 0 <= a.deductions <= Max(0, q.allowedInNew) && (a.disallowed > 0 ==> a.deductions == Max(0, q.allowedInNew)))
      && a.normalTaxable == Max(0, q.income - a.deductions) && a.taxable == a.normalTaxable + q.specialIncome
      && a.details == Details(a.normalTaxable, 0, Slabs(rule, q.regime))
      && a.slabTax == SlabTax(a.normalTaxable, 0, Slabs(rule, q.regime))
      && a.rebate == Rebate(a.slabTax, a.taxable, rule, q.regime, q.resident)
      && (!q.resident ==> a.rebate == 0)
      && IsShare(a.cess, a.gross - a.cess, rule.cess)
      && a.rate == SurchargeRate(a.taxable, rule, q.regime)
      && a.surcharge == Surcharge(a.taxable, a.slabTax - a.rebate + q.specialTax, rule, q.regime)
      && a.relief == Relief(a.taxable, a.slabTax - a.rebate + q.specialTax, rule, q.regime)
      && a.gross == a.slabTax - a.rebate + q.specialTax + a.surcharge + a.cess
      && a.gross == Gross(rule, q)
      && a.payable - a.refund == a.gross - q.credits
      && a.payable >= 0 && a.refund >= 0 && (a.payable == 0 || a.refund == 0)
      && a.rounded == Rounded(a.payable, rule.unit)
  {
    var okNew := ValidateSlabs(rule.newSlabs);
    var okOld := ValidateSlabs(rule.oldSlabs);
    if !(okNew && okOld && 0 <= rule.cess <= 100) || rule.unit == 0 {
      return None;
    }
    var requested := Max(0, q.deductions);
    var deducted := if q.regime.Old? then requested else Max(0, Min(requested, q.allowedInNew));
    var normal := Max(0, q.income - deducted);
    var taxable := normal + q.specialIncome;
    var slabTax, details := ComputeSlabTax(normal, Slabs(rule, q.regime));
    var threshold := if q.regime.New? then rule.newRebateThreshold else rule.oldRebateThreshold;
    var maximum := if q.regime.New? then rule.newRebateMax else rule.oldRebateMax;
    var rebate := if q.resident && taxable <= threshold then Min(slabTax, maximum) else 0;
    var tax := slabTax - rebate + q.specialTax;
    var rate, surcharge, relief := ComputeSurcharge(taxable, tax, rule, q.regime);
    var cess := (tax + surcharge) * rule.cess / 100;
    var gross := tax + surcharge + cess;
    var payable := Max(0, gross - q.credits);
    PercentIsShare(tax + surcharge, rule.cess);
    r := Some(Assessment(deducted, requested - deducted, normal, taxable, details, slabTax, rebate, rate, surcharge, relief,
                         cess, gross, payable, Rounded(payable, rule.unit), Max(0, q.credits - gross)));
  }
}
