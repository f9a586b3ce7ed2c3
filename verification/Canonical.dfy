/**
 Canonical Tally vouchers: what a proposal says, what the local company holds, what the agent reads
 back, and the field-by-field comparison that decides whether a write is verified.
 Two sorted lists of tuples are equal exactly when the multisets are, so lists compare as multisets.
 */
module Canonical {
  import opened Options

  datatype Kind = Purchase | Sales

  datatype Entry = Entry(ledger: string, paise: int)

  datatype GstDetail = GstDetail(ledger: string, taxType: string, paise: int)

  /** A proposed voucher; `ledger` is the purchase or the sales ledger according to `kind`. */
  datatype Order = Order(
    kind: Kind, date: string, companyGuid: string, party: string, ledger: string, total: int,
    reference: string, narration: string, number: string, entries: seq<Entry>, gst: seq<GstDetail>)

  /** A voucher as the Tally register exports it. */
  datatype Voucher = Voucher(
    guid: string, remoteId: string, number: string, date: string, kind: string, party: string,
    reference: string, narration: string, entries: seq<Entry>, gst: seq<GstDetail>)

  datatype Readback = Readback(voucher: Voucher, total: int, companyGuid: string)

  datatype Field =
    | RemoteIdField | CompanyField | KindField | DateField | PartyField | TotalField | ReferenceField
    | NarrationField | NumberField | EntriesField | GstField | GuidField

  function RemoteId(id: string): string {
    "firmos:" + id
  }

  /** Remote ids the agent writes; a bookkeeper working in Tally has no reason to type one. */
  predicate Ours(remoteId: string) {
    "firmos:" <= remoteId
  }

  lemma RemoteIdsDiffer(a: string, b: string)
    ensures RemoteId(a) == RemoteId(b) ==> a == b
    ensures Ours(RemoteId(a))
  {
    assert RemoteId(a)[7..] == a && RemoteId(b)[7..] == b;
  }

  lemma OursHaveIds(remoteId: string)
    ensures Ours(remoteId) ==> remoteId == RemoteId(remoteId[7..])
    ensures !Ours(remoteId) ==> forall id :: remoteId != RemoteId(id)
  {
  }

  function Abs(n: int): nat {
    if n < 0 then -n else n
  }

  /** The largest leg, which is what both the agent and the ingester report as the voucher total. */
  function VoucherTotal(entries: seq<Entry>): nat {
    if entries == [] then 0
    else
      var rest := VoucherTotal(entries[1..]);
      if Abs(entries[0].paise) > rest then Abs(entries[0].paise) else rest
  }

  function Sum(entries: seq<Entry>): int {
    if entries == [] then 0 else entries[0].paise + Sum(entries[1..])
  }

  predicate Named(entries: seq<Entry>, name: string) {
    exists i :: 0 <= i < |entries| && entries[i].ledger == name
  }

  /** The tax legs of a purchase: supported heads, non-zero, each one of the voucher's own legs. */
  predicate GstOk(o: Order) {
    forall i :: 0 <= i < |o.gst| ==>
                  && o.gst[i].ledger != "" && o.gst[i].paise != 0
                  && o.gst[i].taxType in {"CGST", "SGST", "IGST", "CESS"}
                  && Entry(o.gst[i].ledger, o.gst[i].paise) in o.entries
  }

  /** validate_purchase and validate_sales on an order whose names are stripped and whose legs are listed. */
  predicate Valid(o: Order) {
    && o.companyGuid != "" && o.party != "" && o.ledger != "" && o.total > 0
    && (forall i :: 0 <= i < |o.entries| ==> o.entries[i].ledger != "" && o.entries[i].paise != 0)
    && Sum(o.entries) == 0
    && Named(o.entries, o.party) && Named(o.entries, o.ledger)
    && (o.kind == Purchase ==> o.party != o.ledger && GstOk(o))
  }

  function KindName(k: Kind): string {
    match k case Purchase => "Purchase" case Sales => "Sales"
  }

  function When(differs: bool, f: Field): set<Field> {
    if differs then {f} else {}
  }

  /** compare_purchase and compare_sales: the fields on which the read-back departs from the order. */
  function Mismatches(o: Order, r: Readback, remoteId: string): set<Field> {
    HeaderMismatches(o, r, remoteId) + DetailMismatches(o, r)
  }

  function HeaderMismatches(o: Order, r: Readback, remoteId: string): set<Field> {
    When(r.voucher.remoteId != remoteId, RemoteIdField)
    + When(r.companyGuid != o.companyGuid, CompanyField)
    + When(r.voucher.kind != KindName(o.kind), KindField)
    + When(r.voucher.date != o.date, DateField)
    + When(r.voucher.party != o.party, PartyField)
    + When(r.total != o.total, TotalField)
  }

  function DetailMismatches(o: Order, r: Readback): set<Field> {
    var v := r.voucher;
    When(o.reference != "" && v.reference != o.reference, ReferenceField)
    + When(o.narration != "" && v.narration != o.narration, NarrationField)
    + When(o.number != "" && v.number != o.number, NumberField)
    + When(multiset(v.entries) != multiset(o.entries), EntriesField)
    + When(o.kind == Purchase && multiset(v.gst) != multiset(o.gst), GstField)
  }

  /** What a verified write promises: the voucher in the books is the one that was approved. */
  ghost predicate SameVoucher(o: Order, r: Readback, remoteId: string) {
    && r.voucher.remoteId == remoteId && r.companyGuid == o.companyGuid
    && r.voucher.kind == KindName(o.kind) && r.voucher.date == o.date && r.voucher.party == o.party
    && r.total == o.total
    && multiset(r.voucher.entries) == multiset(o.entries)
    && (o.reference == "" || r.voucher.reference == o.reference)
    && (o.narration == "" || r.voucher.narration == o.narration)
    && (o.number == "" || r.voucher.number == o.number)
    && (o.kind == Purchase ==> multiset(r.voucher.gst) == multiset(o.gst))
  }

  lemma NoMismatchIffSameVoucher(o: Order, r: Readback, remoteId: string)
    ensures Mismatches(o, r, remoteId) == {} <==> SameVoucher(o, r, remoteId)
  {
  }

  /** How a read-back departs from the order in one field. */
  predicate Departs(o: Order, r: Readback, remoteId: string, f: Field) {
    match f
    case RemoteIdField => r.voucher.remoteId != remoteId
    case CompanyField => r.companyGuid != o.companyGuid
    case KindField => r.voucher.kind != KindName(o.kind)
    case DateField => r.voucher.date != o.date
    case PartyField => r.voucher.party != o.party
    case TotalField => r.total != o.total
    case ReferenceField => o.reference != "" && r.voucher.reference != o.reference
    case NarrationField => o.narration != "" && r.voucher.narration != o.narration
    case NumberField => o.number != "" && r.voucher.number != o.number
    case EntriesField => multiset(r.voucher.entries) != multiset(o.entries)
    case GstField => o.kind == Purchase && multiset(r.voucher.gst) != multiset(o.gst)
    case GuidField => false
  }

  lemma HeadersNameTheField(o: Order, r: Readback, remoteId: string, f: Field)
    ensures f in HeaderMismatches(o, r, remoteId) <==>
      (f.RemoteIdField? || f.CompanyField? || f.KindField? || f.DateField? || f.PartyField? || f.TotalField?)
      && Departs(o, r, remoteId, f)
  {
  }

  lemma DetailsNameTheField(o: Order, r: Readback, remoteId: string, f: Field)
    ensures f in DetailMismatches(o, r) <==>
      (f.ReferenceField? || f.NarrationField? || f.NumberField? || f.EntriesField? || f.GstField?) && Departs(o, r, remoteId, f)
  {
  }

  /** Each mismatch is reported under the field that departs. */
  lemma MismatchesNameTheField(o: Order, r: Readback, remoteId: string, f: Field)
    ensures f in Mismatches(o, r, remoteId) <==> Departs(o, r, remoteId, f)
  {
    HeadersNameTheField(o, r, remoteId, f);
    DetailsNameTheField(o, r, remoteId, f);
  }

  lemma LegAndTotalFields(o: Order, r: Readback, remoteId: string)
    ensures EntriesField in Mismatches(o, r, remoteId) <==> multiset(r.voucher.entries) != multiset(o.entries)
    ensures TotalField in Mismatches(o, r, remoteId) <==> r.total != o.total
  {
    MismatchesNameTheField(o, r, remoteId, EntriesField);
    MismatchesNameTheField(o, r, remoteId, TotalField);
  }

  lemma {:induction false} TotalIsALeg(entries: seq<Entry>)
    ensures forall e :: e in entries ==> Abs(e.paise) <= VoucherTotal(entries)
    ensures VoucherTotal(entries) == 0 || exists e :: e in entries && Abs(e.paise) == VoucherTotal(entries)
  {
    if entries != [] {
      TotalIsALeg(entries[1..]);
      assert entries == [entries[0]] + entries[1..];
    }
  }

  lemma TotalWithin(a: seq<Entry>, b: seq<Entry>)
    requires multiset(a) == multiset(b)
    ensures VoucherTotal(a) <= VoucherTotal(b)
  {
    TotalIsALeg(a);
    TotalIsALeg(b);
    if VoucherTotal(a) != 0 {
      var e :| e in a && Abs(e.paise) == VoucherTotal(a);
      assert e in multiset(b);
    }
  }

  /** A read-back whose total is worked out from its own legs. */
  predicate Honest(r: Readback) {
    r.total == VoucherTotal(r.voucher.entries)
  }

  /** An honest read-back that differs in nothing needs an order whose total is its largest leg ... */
  lemma VerifiedTotalIsLargestLeg(o: Order, r: Readback, remoteId: string)
    requires Honest(r) && SameVoucher(o, r, remoteId)
    ensures VoucherTotal(o.entries) == o.total
  {
    TotalWithin(o.entries, r.voucher.entries);
    TotalWithin(r.voucher.entries, o.entries);
  }

  /** ... and for such an order there is one: whether a write can ever verify is decided by the order alone. */
  lemma VerifiableIffLargestLeg(o: Order, remoteId: string)
    ensures (exists r :: Honest(r) && Mismatches(o, r, remoteId) == {}) <==> VoucherTotal(o.entries) == o.total
  {
    if VoucherTotal(o.entries) == o.total {
      var v := Voucher("", remoteId, o.number, o.date, KindName(o.kind), o.party, o.reference, o.narration, o.entries, o.gst);
      var r := Readback(v, o.total, o.companyGuid);
      assert Honest(r) && SameVoucher(o, r, remoteId);
      NoMismatchIffSameVoucher(o, r, remoteId);
    }
    forall r | Honest(r) && Mismatches(o, r, remoteId) == {} ensures VoucherTotal(o.entries) == o.total {
      NoMismatchIffSameVoucher(o, r, remoteId);
      VerifiedTotalIsLargestLeg(o, r, remoteId);
    }
  }
}
