/**
 Set-off of input tax credit, head by head, in the order of section 49 of the CGST Act 2017 and Rule 88A of the
 CGST Rules 2017, and the payment table built from it.
 */
module Itc {
  function Min(a: int, b: int): int { if a < b then a else b }

  function Clamp(n: int): nat { if n < 0 then 0 else n }

  datatype Head = Igst | Cgst | Sgst

  datatype Heads = Heads(igst: int, cgst: int, sgst: int)

  function At(h: Heads, head: Head): int {
    match head case Igst => h.igst case Cgst => h.cgst case Sgst => h.sgst
  }

  /** How much of each credit goes to each head; CGST and SGST never pay each other. */
  datatype Allocation = Allocation(ii: int, ic: int, is_: int, cc: int, ci: int, ss: int, si: int)

  function Total(a: Allocation): int { a.ii + a.ic + a.is_ + a.cc + a.ci + a.ss + a.si }

  /** What each head receives, and what each credit gives. */
  function Paid(a: Allocation): Heads { Heads(a.ii + a.ci + a.si, a.ic + a.cc, a.is_ + a.ss) }

  function Spent(a: Allocation): Heads { Heads(a.ii + a.ic + a.is_, a.cc + a.ci, a.ss + a.si) }

  /** Any set-off the Act allows, in whatever order. */
  predicate Legal(a: Allocation, output: Heads, credit: Heads) {
    && a.ii >= 0 && a.ic >= 0 && a.is_ >= 0 && a.cc >= 0 && a.ci >= 0 && a.ss >= 0 && a.si >= 0
    && Paid(a).igst <= output.igst && Paid(a).cgst <= output.cgst && Paid(a).sgst <= output.sgst
    && Spent(a).igst <= credit.igst && Spent(a).cgst <= credit.cgst && Spent(a).sgst <= credit.sgst
  }

  predicate NonNegative(h: Heads) { h.igst >= 0 && h.cgst >= 0 && h.sgst >= 0 }

  /** IGST credit goes to IGST first and is then exhausted on the other heads before their own credit is used. */
  predicate InOrder(a: Allocation, output: Heads, credit: Heads) {
    && a.ii == Min(credit.igst, output.igst)
    && a.ic + a.is_ == Min(credit.igst - a.ii, output.cgst + output.sgst)
  }

  // ---- the procedure -------------------------------------------------------------------------------------------

  function Put(h: Heads, head: Head, v: int): Heads {
    match head case Igst => h.(igst := v) case Cgst => h.(cgst := v) case Sgst => h.(sgst := v)
  }

  /** used[credit][payable] */
  datatype Grid = Grid(igst: Heads, cgst: Heads, sgst: Heads)

  function Row(g: Grid, head: Head): Heads {
    match head case Igst => g.igst case Cgst => g.cgst case Sgst => g.sgst
  }

  function PutRow(g: Grid, head: Head, row: Heads): Grid {
    match head case Igst => g.(igst := row) case Cgst => g.(cgst := row) case Sgst => g.(sgst := row)
  }

  class Ledger {
    var payable: Heads
    var credit: Heads
    var used: Grid

    constructor (output: Heads, itc: Heads)
      ensures payable == Clamped(output) && credit == Clamped(itc)
      ensures used == Grid(Heads(0, 0, 0), Heads(0, 0, 0), Heads(0, 0, 0))
    {
      payable, credit := Clamped(output), Clamped(itc);
      used := Grid(Heads(0, 0, 0), Heads(0, 0, 0), Heads(0, 0, 0));
    }

    method Use(from: Head, to: Head)
      modifies this
      ensures var amount := Min(At(old(credit), from), At(old(payable), to));
        && credit == Put(old(credit), from, At(old(credit), from) - amount)
        && payable == Put(old(payable), to, At(old(payable), to) - amount)
        && used == PutRow(old(used), from, Put(Row(old(used), from), to, At(Row(old(used), from), to) + amount))
    {
      var amount := Min(At(credit, from), At(payable, to));
      credit := Put(credit, from, At(credit, from) - amount);
      payable := Put(payable, to, At(payable, to) - amount);
      used := PutRow(used, from, Put(Row(used, from), to, At(Row(used, from), to) + amount));
    }
  }

  function Minus(a: Heads, b: Heads): Heads { Heads(a.igst - b.igst, a.cgst - b.cgst, a.sgst - b.sgst) }

  datatype Utilization = Utilization(used: Allocation, cash: Heads, remaining: Heads)

  function Clamped(h: Heads): Heads { Heads(Clamp(h.igst), Clamp(h.cgst), Clamp(h.sgst)) }

  /** What an IGST credit gives to each head. */
  function FromIgst(o: Heads, credit: int): Heads {
    var igst := Min(credit, o.igst);
    var cgst := Min(credit - igst, o.cgst);
    Heads(igst, cgst, Min(credit - igst - cgst, o.sgst))
  }

  datatype Share = Share(own: int, igst: int)

  /** What a CGST or SGST credit gives to its own head and then to IGST. */
  function FromOwn(own: int, igst: int, credit: int): Share {
    Share(Min(credit, own), Min(credit - Min(credit, own), igst))
  }

  /** The set-off in closed form. */
  function SetOff(o: Heads, c: Heads): Allocation {
    var i := FromIgst(o, c.igst);
    var g := FromOwn(o.cgst - i.cgst, o.igst - i.igst, c.cgst);
    var s := FromOwn(o.sgst - i.sgst, o.igst - i.igst - g.igst, c.sgst);
    Allocation(i.igst, i.cgst, i.sgst, g.own, g.igst, s.own, s.igst)
  }

  method ApplyItcUtilization(output: Heads, itc: Heads) returns (r: Utilization)
    ensures r.used == SetOff(Clamped(output), Clamped(itc))
    ensures r.cash == Minus(Clamped(output), Paid(r.used)) && r.remaining == Minus(Clamped(itc), Spent(r.used))
  {
    var ledger := new Ledger(output, itc);
    ghost var o, c := ledger.payable, ledger.credit;
    ghost var a := SetOff(o, c);
    ledger.Use(Igst, Igst);
    assert ledger.payable == Heads(o.igst - a.ii, o.cgst, o.sgst) && ledger.credit == Heads(c.igst - a.ii, c.cgst, c.sgst);
    ledger.Use(Igst, Cgst);
    assert ledger.payable.cgst == o.cgst - a.ic && ledger.credit.igst == c.igst - a.ii - a.ic;
    ledger.Use(Igst, Sgst);
    assert ledger.used == Grid(Heads(a.ii, a.ic, a.is_), Heads(0, 0, 0), Heads(0, 0, 0));
    assert ledger.payable == Heads(o.igst - a.ii, o.cgst - a.ic, o.sgst - a.is_);
    ledger.Use(Cgst, Cgst);
    ledger.Use(Cgst, Igst);
    assert ledger.used == Grid(Heads(a.ii, a.ic, a.is_), Heads(a.ci, a.cc, 0), Heads(0, 0, 0));
    assert ledger.payable == Heads(o.igst - a.ii - a.ci, o.cgst - a.ic - a.cc, o.sgst - a.is_);
    ledger.Use(Sgst, Sgst);
    ledger.Use(Sgst, Igst);
    assert ledger.used == Grid(Heads(a.ii, a.ic, a.is_), Heads(a.ci, a.cc, 0), Heads(a.si, 0, a.ss));
    var g := ledger.used;
    r := Utilization(Allocation(g.igst.igst, g.igst.cgst, g.igst.sgst, g.cgst.cgst, g.cgst.igst, g.sgst.sgst, g.sgst.igst),
                     ledger.payable, ledger.credit);
  }

  // ---- the order of the steps -------------------------------------------------------------------------------------

  /** A credit serves one head as far as it goes: the head is paid, or the credit is spent. */
  predicate Served(amount: int, due: int, left: int) {
    0 <= amount <= due && amount <= left && (amount == due || amount == left)
  }

  /** IGST credit serves IGST, then CGST, then SGST; CGST credit its own head, then IGST; SGST credit its own head, then
      what is left of IGST.  Each head is served with what those before it left over. */
  predicate InSteps(a: Allocation, o: Heads, c: Heads) {
    && Served(a.ii, o.igst, c.igst)
    && Served(a.ic, o.cgst, c.igst - a.ii)
    && Served(a.is_, o.sgst, c.igst - a.ii - a.ic)
    && Served(a.cc, o.cgst - a.ic, c.cgst)
    && Served(a.ci, o.igst - a.ii, c.cgst - a.cc)
    && Served(a.ss, o.sgst - a.is_, c.sgst)
    && Served(a.si, o.igst - a.ii - a.ci, c.sgst - a.ss)
  }

  /** The set-off is the one allocation that serves the heads in that order. */
  lemma OnlySetOffIsInSteps(a: Allocation, o: Heads, c: Heads)
    requires NonNegative(o) && NonNegative(c)
    ensures InSteps(a, o, c) <==> a == SetOff(o, c)
  {
  }

  // ---- what the set-off achieves -----------------------------------------------------------------------------------

  /** The set-off is legal and in the statutory order: no CGST or SGST credit is used while IGST credit remains. */
  lemma SetOffIsLawful(o: Heads, c: Heads)
    requires NonNegative(o) && NonNegative(c)
    ensures var a := SetOff(o, c);
      && Legal(a, o, c) && InOrder(a, o, c)
      && (Spent(a).igst < c.igst ==> Spent(a).cgst == 0 && Spent(a).sgst == 0)
  {
  }

  /** No credit is left beside an unpaid head that it could pay. */
  lemma SetOffIsMaximal(o: Heads, c: Heads)
    requires NonNegative(o) && NonNegative(c)
    ensures var a := SetOff(o, c);
      var cash := Heads(o.igst - Paid(a).igst, o.cgst - Paid(a).cgst, o.sgst - Paid(a).sgst);
      && (Spent(a).igst < c.igst ==> cash.igst == 0 && cash.cgst == 0 && cash.sgst == 0)
      && (Spent(a).cgst < c.cgst ==> cash.igst == 0 && cash.cgst == 0)
      && (Spent(a).sgst < c.sgst ==> cash.igst == 0 && cash.sgst == 0)
  {
  }

  /** At least half of what any legal set-off could pay is paid. */
  lemma AtLeastHalf(o: Heads, c: Heads, b: Allocation)
    requires NonNegative(o) && NonNegative(c) && Legal(b, o, c)
    ensures 2 * Total(SetOff(o, c)) >= Total(b)
  {
  }

  /** Half is all that is certain, and the other order would have been just as lawful: the choice of CGST
      before SGST is not neutral. */
  lemma HalfIsReached(n: nat)
    ensures var o, c := Heads(0, n, n), Heads(n, n, 0);
      var b := Allocation(0, 0, n, n, 0, 0, 0);
      Legal(b, o, c) && InOrder(b, o, c) && Total(b) == 2 * n && Total(SetOff(o, c)) == n
  {
  }

  /** IGST credit spent on CGST that CGST credit would have covered, while SGST is left to pay in cash. */
  predicate Wasteful(o: Heads, c: Heads) {
    var left := Clamp(c.igst - o.igst);
    var spent := Min(left, o.cgst);
    spent > 0 && c.cgst > o.cgst - spent && o.sgst > c.sgst + (left - spent)
  }

  /** Among the set-offs in the statutory order, this one pays most exactly when it is not wasteful. */
  lemma OptimalUnlessWasteful(o: Heads, c: Heads)
    requires NonNegative(o) && NonNegative(c)
    ensures !Wasteful(o, c) <==>
      forall b :: Legal(b, o, c) && InOrder(b, o, c) ==> Total(b) <= Total(SetOff(o, c))
  {
    if Wasteful(o, c) {
      WasteIsAvoidable(o, c);
      var b := Better(o, c);
      assert Legal(b, o, c) && InOrder(b, o, c) && Total(b) > Total(SetOff(o, c));
    } else {
      forall b | Legal(b, o, c) && InOrder(b, o, c) ensures Total(b) <= Total(SetOff(o, c)) {
        NotWastefulIsBest(o, c, b);
      }
    }
  }

  /** One paisa of IGST credit moved from CGST to SGST, and one of CGST credit in its place. */
  function Better(o: Heads, c: Heads): Allocation {
    var a := SetOff(o, c);
    a.(ic := a.ic - 1, is_ := a.is_ + 1, cc := a.cc + 1)
  }

  lemma WasteIsAvoidable(o: Heads, c: Heads)
    requires NonNegative(o) && NonNegative(c) && Wasteful(o, c)
    ensures var b := Better(o, c); Legal(b, o, c) && InOrder(b, o, c) && Total(b) == Total(SetOff(o, c)) + 1
  {
  }

  lemma NotWastefulIsBest(o: Heads, c: Heads, b: Allocation)
    requires NonNegative(o) && NonNegative(c) && !Wasteful(o, c) && Legal(b, o, c) && InOrder(b, o, c)
    ensures Total(b) <= Total(SetOff(o, c))
  {
  }

  // ---- table 6.1 -------------------------------------------------------------------------------------------------------

  datatype PaymentRow = PaymentRow(payable: int, paidItc: int, paidCash: int)

  lemma CashPaysTheRest(output: Heads, paid: Heads, cash: Heads, h: Head)
    requires cash == Minus(Clamped(output), paid)
    ensures At(paid, h) + At(cash, h) == At(output, h) <==> At(output, h) >= 0
  {
  }

  /** The three rows, from what credit and what cash pays. */
  method TableRows(output: Heads, paid: Heads, cash: Heads) returns (rows: map<Head, PaymentRow>)
    requires cash == Minus(Clamped(output), paid)
    ensures forall h: Head :: h in rows && rows[h].payable == At(output, h) && rows[h].paidItc == At(paid, h)
    ensures forall h: Head :: (rows[h].paidItc + rows[h].paidCash == rows[h].payable <==> At(output, h) >= 0)
  {
    rows := map[Igst := PaymentRow(output.igst, paid.igst, cash.igst),
                Cgst := PaymentRow(output.cgst, paid.cgst, cash.cgst),
                Sgst := PaymentRow(output.sgst, paid.sgst, cash.sgst)];
    forall h: Head ensures h in rows && rows[h] == PaymentRow(At(output, h), At(paid, h), At(cash, h)) {
      assert h.Igst? || h.Cgst? || h.Sgst?;
    }
    forall h: Head ensures rows[h].paidItc + rows[h].paidCash == rows[h].payable <==> At(output, h) >= 0 {
      CashPaysTheRest(output, paid, cash, h);
    }
  }

  method PaymentTable(output: Heads, itc: Heads) returns (rows: map<Head, PaymentRow>)
    ensures forall h: Head :: h in rows && rows[h].payable == At(output, h)
    ensures forall h: Head :: (rows[h].paidItc + rows[h].paidCash == rows[h].payable <==> At(output, h) >= 0)
    ensures forall h: Head :: rows[h].paidItc == At(Paid(SetOff(Clamped(output), Clamped(itc))), h)
  {
    var r := ApplyItcUtilization(output, itc);
    rows := TableRows(output, Paid(r.used), r.cash);
  }
}
