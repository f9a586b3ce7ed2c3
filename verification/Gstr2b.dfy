/** Matching the purchase register with GSTR-2B documents, and accepting the clean matches of a run for credit. */
module Gstr2b {
  import opened Options

  const VALUE_TOLERANCE := 100
  const DATE_TOLERANCE := 5

  /** Dates are day numbers; amounts are in paise. */
  datatype Document = Document(key: string, gstin: string, number: string, date: int, kind: string, amendmentOf: Option<string>, total: int)

  /** date is None when the book date does not parse. */
  datatype Purchase = Purchase(id: string, gstin: string, ref: string, date: Option<int>, amount: int)

  datatype Bucket = Missing2b | Duplicate | AmendmentOrNote | Exact | Probable | Mismatch | ManualReview | MissingInBooks

  datatype Row = Row(purchase: Option<Purchase>, document: Option<Document>, bucket: Bucket, valueDiff: int, dateDiff: int, claimed: bool)

  function UpperChar(c: char): char { if 'a' <= c <= 'z' then c - 'a' + 'A' else c }

  function Upper(s: string): string {
    if s == [] then [] else [UpperChar(s[0])] + Upper(s[1..])
  }

  /** Upper case, letters and digits only. */
  function Normal(s: string): string {
    if s == [] then [] else Kept(s[0]) + Normal(s[1..])
  }

  function Kept(c: char): string {
    var u := UpperChar(c);
    if 'A' <= u <= 'Z' || '0' <= u <= '9' then [u] else []
  }

  function Abs(n: int): nat { if n < 0 then -n else n }

  function Count(documents: seq<Document>, key: string): nat {
    if documents == [] then 0
    else Count(documents[..|documents| - 1], key) + if documents[|documents| - 1].key == key then 1 else 0
  }

  // ---- specification --------------------------------------------------------------------------------------------

  predicate Candidate(d: Document, p: Purchase, used: set<string>) {
    d.key !in used && d.gstin == Upper(p.gstin)
  }

  predicate SameNumber(d: Document, p: Purchase) {
    Normal(d.number) == Normal(p.ref)
  }

  function Candidates(documents: seq<Document>, p: Purchase, used: set<string>): seq<Document> {
    if documents == [] then []
    else
      var d := documents[|documents| - 1];
      Candidates(documents[..|documents| - 1], p, used) + if Candidate(d, p, used) then [d] else []
  }

  function SameNumbered(documents: seq<Document>, p: Purchase): seq<Document> {
    if documents == [] then []
    else
      var d := documents[|documents| - 1];
      SameNumbered(documents[..|documents| - 1], p) + if SameNumber(d, p) then [d] else []
  }

  function Pool(documents: seq<Document>, p: Purchase, used: set<string>): seq<Document> {
    var candidates := Candidates(documents, p, used);
    var same := SameNumbered(candidates, p);
    if same != [] then same else candidates
  }

  function Distance(d: Document, p: Purchase): nat { Abs(d.total - p.amount) }

  /** The first of the documents nearest in value. */
  function Nearest(pool: seq<Document>, p: Purchase): Document
    requires pool != []
  {
    if |pool| == 1 then pool[0]
    else
      var best := Nearest(pool[..|pool| - 1], p);
      var last := pool[|pool| - 1];
      if Distance(last, p) < Distance(best, p) then last else best
  }

  function DateDiff(d: Document, p: Purchase): int {
    if p.date.None? then 0 else d.date - p.date.value
  }

  function BucketOf(d: Document, p: Purchase, same: bool, copies: nat): Bucket {
    var value, days := d.total - p.amount, DateDiff(d, p);
    if copies > 1 then Duplicate
    else if d.amendmentOf.Some? || d.kind != "INVOICE" then AmendmentOrNote
    else if same && value == 0 && days == 0 then Exact
    else if same && Abs(value) <= VALUE_TOLERANCE && Abs(days) <= DATE_TOLERANCE then Probable
    else if same then Mismatch
    else ManualReview
  }

  function RowFor(p: Purchase, documents: seq<Document>, used: set<string>, claimed: set<string>): Row {
    var same := SameNumbered(Candidates(documents, p, used), p) != [];
    var pool := Pool(documents, p, used);
    if pool == [] then Row(Some(p), None, Missing2b, 0, 0, false)
    else
      var d := Nearest(pool, p);
      Row(Some(p), Some(d), BucketOf(d, p, same, Count(documents, d.key)), d.total - p.amount, DateDiff(d, p), d.key in claimed)
  }

  function KeysOf(rows: seq<Row>): set<string> {
    if rows == [] then {}
    else
      var last := rows[|rows| - 1].document;
      KeysOf(rows[..|rows| - 1]) + if last.Some? then {last.value.key} else {}
  }

  function RowsFor(purchases: seq<Purchase>, documents: seq<Document>, claimed: set<string>): seq<Row> {
    if purchases == [] then []
    else
      var before := RowsFor(purchases[..|purchases| - 1], documents, claimed);
      before + [RowFor(purchases[|purchases| - 1], documents, KeysOf(before), claimed)]
  }

  function LeftRow(d: Document, documents: seq<Document>): Row {
    Row(None, Some(d), if Count(documents, d.key) > 1 then Duplicate else MissingInBooks, 0, 0, false)
  }

  /** Rows for the documents among `some` that no purchase took. */
  function Leftovers(some: seq<Document>, documents: seq<Document>, used: set<string>): seq<Row> {
    if some == [] then []
    else
      var d := some[|some| - 1];
      Leftovers(some[..|some| - 1], documents, used) + if d.key in used then [] else [LeftRow(d, documents)]
  }

  function Matching(purchases: seq<Purchase>, documents: seq<Document>, claimed: set<string>): seq<Row> {
    var rows := RowsFor(purchases, documents, claimed);
    rows + Leftovers(documents, documents, KeysOf(rows))
  }

  // ---- the loops -------------------------------------------------------------------------------------------------

  method FindPool(documents: seq<Document>, p: Purchase, used: set<string>) returns (pool: seq<Document>, same: bool)
    ensures pool == Pool(documents, p, used) && same == (SameNumbered(Candidates(documents, p, used), p) != [])
  {
    var candidates, sameNumber := [], [];
    for i := 0 to |documents|
      invariant candidates == Candidates(documents[..i], p, used)
    {
      assert documents[..i + 1][..i] == documents[..i];
      if documents[i].key !in used && documents[i].gstin == Upper(p.gstin) {
        candidates := candidates + [documents[i]];
      }
    }
    assert documents[..|documents|] == documents;
    for i := 0 to |candidates|
      invariant sameNumber == SameNumbered(candidates[..i], p)
    {
      assert candidates[..i + 1][..i] == candidates[..i];
      if Normal(candidates[i].number) == Normal(p.ref) {
        sameNumber := sameNumber + [candidates[i]];
      }
    }
    assert candidates[..|candidates|] == candidates;
    same := sameNumber != [];
    pool := if same then sameNumber else candidates;
  }

  method FindNearest(pool: seq<Document>, p: Purchase) returns (best: Document)
    requires pool != []
    ensures best == Nearest(pool, p)
  {
    best := pool[0];
    for i := 1 to |pool|
      invariant best == Nearest(pool[..i], p)
    {
      assert pool[..i + 1][..i] == pool[..i];
      if Abs(pool[i].total - p.amount) < Abs(best.total - p.amount) {
        best := pool[i];
      }
    }
    assert pool[..|pool|] == pool;
  }

  method CountKeys(documents: seq<Document>) returns (counts: map<string, nat>)
    ensures forall d :: d in documents ==> d.key in counts
    ensures forall k :: k in counts ==> counts[k] == Count(documents, k)
  {
    counts := map[];
    for i := 0 to |documents|
      invariant forall k :: k in counts ==> counts[k] == Count(documents[..i], k)
      invariant forall k :: k !in counts ==> Count(documents[..i], k) == 0
      invariant forall j :: 0 <= j < i ==> documents[j].key in counts
    {
      assert documents[..i + 1][..i] == documents[..i];
      var key := documents[i].key;
      counts := counts[key := (if key in counts then counts[key] else 0) + 1];
    }
    assert documents[..|documents|] == documents;
  }

  method MatchPurchase(p: Purchase, documents: seq<Document>, counts: map<string, nat>, used: set<string>, claimed: set<string>)
    returns (row: Row)
    requires forall d :: d in documents ==> d.key in counts && counts[d.key] == Count(documents, d.key)
    ensures row == RowFor(p, documents, used, claimed)
  {
    var pool, same := FindPool(documents, p, used);
    if pool == [] {
      row := Row(Some(p), None, Missing2b, 0, 0, false);
    } else {
      var d := FindNearest(pool, p);
      NearestInPool(documents, p, used);
      row := Row(Some(p), Some(d), BucketOf(d, p, same, counts[d.key]), d.total - p.amount, DateDiff(d, p), d.key in claimed);
    }
  }

  method AddLeftovers(matched: seq<Row>, documents: seq<Document>, counts: map<string, nat>, used: set<string>) returns (rows: seq<Row>)
    requires forall d :: d in documents ==> d.key in counts && counts[d.key] == Count(documents, d.key)
    ensures rows == matched + Leftovers(documents, documents, used)
  {
    rows := matched;
    for i := 0 to |documents|
      invariant rows == matched + Leftovers(documents[..i], documents, used)
    {
      assert documents[..i + 1][..i] == documents[..i];
      var d := documents[i];
      if d.key !in used {
        rows := rows + [Row(None, Some(d), if counts[d.key] > 1 then Duplicate else MissingInBooks, 0, 0, false)];
      }
    }
    assert documents[..|documents|] == documents;
  }

  method MatchGstr2b(purchases: seq<Purchase>, documents: seq<Document>, claimed: set<string>) returns (rows: seq<Row>)
    ensures rows == Matching(purchases, documents, claimed)
  {
    var counts := CountKeys(documents);
    var used: set<string> := {};
    rows := [];
    for i := 0 to |purchases|
      invariant rows == RowsFor(purchases[..i], documents, claimed) && used == KeysOf(rows)
    {
      assert purchases[..i + 1][..i] == purchases[..i];
      var row := MatchPurchase(purchases[i], documents, counts, used, claimed);
      if row.document.Some? {
        used := used + {row.document.value.key};
      }
      assert (rows + [row])[..|rows|] == rows;
      rows := rows + [row];
    }
    assert purchases[..|purchases|] == purchases;
    rows := AddLeftovers(rows, documents, counts, used);
  }

  // ---- what the rows mean ---------------------------------------------------------------------------------------------

  lemma {:induction false} CandidatesAre(documents: seq<Document>, p: Purchase, used: set<string>, d: Document)
    ensures d in Candidates(documents, p, used) <==> d in documents && Candidate(d, p, used)
    decreases |documents|
  {
    if documents != [] {
      var n := |documents| - 1;
      CandidatesAre(documents[..n], p, used, d);
      assert documents == documents[..n] + [documents[n]];
    }
  }

  lemma {:induction false} SameNumberedAre(documents: seq<Document>, p: Purchase, d: Document)
    ensures d in SameNumbered(documents, p) <==> d in documents && SameNumber(d, p)
    decreases |documents|
  {
    if documents != [] {
      var n := |documents| - 1;
      SameNumberedAre(documents[..n], p, d);
      assert documents == documents[..n] + [documents[n]];
    }
  }

  lemma {:induction false} NearestIs(pool: seq<Document>, p: Purchase)
    requires pool != []
    ensures Nearest(pool, p) in pool
    ensures forall d :: d in pool ==> Distance(Nearest(pool, p), p) <= Distance(d, p)
    decreases |pool|
  {
    if |pool| > 1 {
      var n := |pool| - 1;
      NearestIs(pool[..n], p);
      assert pool == pool[..n] + [pool[n]];
    }
  }

  /** A document the purchase may take: of its supplier, not taken, and of its number if there is one of its number. */
  ghost predicate InPool(d: Document, documents: seq<Document>, p: Purchase, used: set<string>) {
    && d in documents && Candidate(d, p, used)
    && (SameNumber(d, p) || forall e :: e in documents && Candidate(e, p, used) ==> !SameNumber(e, p))
  }

  lemma PoolIs(documents: seq<Document>, p: Purchase, used: set<string>, d: Document)
    ensures d in Pool(documents, p, used) <==> InPool(d, documents, p, used)
    ensures SameNumbered(Candidates(documents, p, used), p) != [] <==>
      exists e :: e in documents && Candidate(e, p, used) && SameNumber(e, p)
  {
    var candidates := Candidates(documents, p, used);
    var same := SameNumbered(candidates, p);
    forall e ensures e in same <==> e in documents && Candidate(e, p, used) && SameNumber(e, p) {
      CandidatesAre(documents, p, used, e);
      SameNumberedAre(candidates, p, e);
    }
    CandidatesAre(documents, p, used, d);
    if same != [] {
      assert same[0] in same;
    }
  }

  /** The chosen document is in the pool, and none in the pool is nearer in value. */
  lemma NearestInPool(documents: seq<Document>, p: Purchase, used: set<string>)
    requires Pool(documents, p, used) != []
    ensures var d := Nearest(Pool(documents, p, used), p);
      && InPool(d, documents, p, used)
      && (forall e :: InPool(e, documents, p, used) ==> Distance(d, p) <= Distance(e, p))
      && (SameNumber(d, p) <==> SameNumbered(Candidates(documents, p, used), p) != [])
  {
    var pool := Pool(documents, p, used);
    NearestIs(pool, p);
    forall e ensures e in pool <==> InPool(e, documents, p, used) {
      PoolIs(documents, p, used, e);
    }
    PoolIs(documents, p, used, Nearest(pool, p));
  }

  /** One row for each purchase, in order; each depends on the rows before it through the keys they took. */
  lemma {:induction false} RowOfPurchase(purchases: seq<Purchase>, documents: seq<Document>, claimed: set<string>, i: nat)
    requires i < |purchases|
    ensures var rows := RowsFor(purchases, documents, claimed);
      |rows| == |purchases| && rows[..i] == RowsFor(purchases[..i], documents, claimed)
      && rows[i] == RowFor(purchases[i], documents, KeysOf(rows[..i]), claimed)
    decreases |purchases|
  {
    var n := |purchases| - 1;
    RowsLength(purchases, documents, claimed);
    RowsLength(purchases[..n], documents, claimed);
    var before := RowsFor(purchases[..n], documents, claimed);
    assert RowsFor(purchases, documents, claimed)[..n] == before;
    if i < n {
      RowOfPurchase(purchases[..n], documents, claimed, i);
      assert purchases[..n][..i] == purchases[..i];
      assert RowsFor(purchases, documents, claimed)[..i] == before[..i];
    }
  }

  lemma {:induction false} RowsLength(purchases: seq<Purchase>, documents: seq<Document>, claimed: set<string>)
    ensures |RowsFor(purchases, documents, claimed)| == |purchases|
    decreases |purchases|
  {
    if purchases != [] {
      RowsLength(purchases[..|purchases| - 1], documents, claimed);
    }
  }

  lemma {:induction false} KeyIsUsed(rows: seq<Row>, i: nat)
    requires i < |rows| && rows[i].document.Some?
    ensures rows[i].document.value.key in KeysOf(rows)
    decreases |rows|
  {
    if i < |rows| - 1 {
      KeyIsUsed(rows[..|rows| - 1], i);
    }
  }

  lemma {:induction false} UsedKeyHasRow(rows: seq<Row>, key: string) returns (i: nat)
    requires key in KeysOf(rows)
    ensures i < |rows| && rows[i].document.Some? && rows[i].document.value.key == key
    decreases |rows|
  {
    var n := |rows| - 1;
    if rows[n].document.Some? && rows[n].document.value.key == key {
      i := n;
    } else {
      i := UsedKeyHasRow(rows[..n], key);
    }
  }

  /** No identity key is attached to two purchases. */
  lemma KeysAreTakenOnce(purchases: seq<Purchase>, documents: seq<Document>, claimed: set<string>, i: nat, j: nat)
    requires i < j < |purchases|
    requires var rows := RowsFor(purchases, documents, claimed);
      |rows| == |purchases| && rows[i].document.Some? && rows[j].document.Some?
    ensures var rows := RowsFor(purchases, documents, claimed); rows[i].document.value.key != rows[j].document.value.key
  {
    var rows := RowsFor(purchases, documents, claimed);
    RowOfPurchase(purchases, documents, claimed, j);
    KeyIsUsed(rows[..j], i);
    NearestInPool(documents, purchases[j], KeysOf(rows[..j]));
  }

  /** A purchase gets the nearest document of its pool, or nothing when the pool is empty. */
  lemma PurchaseGetsNearest(purchases: seq<Purchase>, documents: seq<Document>, claimed: set<string>, i: nat)
    requires i < |purchases|
    ensures var rows := Matching(purchases, documents, claimed);
      && |purchases| <= |rows|
      && rows[i].purchase == Some(purchases[i])
      && var used := KeysOf(rows[..i]);
      && (rows[i].document.None? <==> forall d :: !InPool(d, documents, purchases[i], used))
      && (rows[i].document.Some? ==>
            InPool(rows[i].document.value, documents, purchases[i], used)
            && forall e :: InPool(e, documents, purchases[i], used) ==>
              Distance(rows[i].document.value, purchases[i]) <= Distance(e, purchases[i]))
  {
    var rows := RowsFor(purchases, documents, claimed);
    RowOfPurchase(purchases, documents, claimed, i);
    assert Matching(purchases, documents, claimed)[..i] == rows[..i];
    var used := KeysOf(rows[..i]);
    var pool := Pool(documents, purchases[i], used);
    if pool == [] {
      forall d ensures !InPool(d, documents, purchases[i], used) {
        PoolIs(documents, purchases[i], used, d);
      }
    } else {
      NearestInPool(documents, purchases[i], used);
    }
  }

  /** EXACT: the only document of its key, an unamended invoice of the same supplier, number, value and date. */
  lemma ExactMeansEqual(purchases: seq<Purchase>, documents: seq<Document>, claimed: set<string>, i: nat)
    requires i < |purchases|
    ensures var rows := Matching(purchases, documents, claimed);
      |purchases| <= |rows|
      && var r, p := rows[i], purchases[i];
      r.bucket == Exact <==>
        r.document.Some?
        && var d := r.document.value;
        && Count(documents, d.key) <= 1 && d.amendmentOf.None? && d.kind == "INVOICE"
        && d.gstin == Upper(p.gstin) && SameNumber(d, p) && d.total == p.amount && (p.date.Some? ==> d.date == p.date.value)
  {
    var rows := RowsFor(purchases, documents, claimed);
    RowOfPurchase(purchases, documents, claimed, i);
    if Pool(documents, purchases[i], KeysOf(rows[..i])) != [] {
      NearestInPool(documents, purchases[i], KeysOf(rows[..i]));
    }
  }

  /** Two documents of the file share the key. */
  predicate Repeated(documents: seq<Document>, key: string) {
    exists i, j :: 0 <= i < j < |documents| && documents[i].key == key && documents[j].key == key
  }

  lemma {:induction false} CountIsPositive(documents: seq<Document>, key: string)
    ensures Count(documents, key) > 0 <==> exists i :: 0 <= i < |documents| && documents[i].key == key
    decreases |documents|
  {
    if documents != [] {
      var n := |documents| - 1;
      CountIsPositive(documents[..n], key);
      if Count(documents[..n], key) > 0 {
        var i :| 0 <= i < n && documents[..n][i].key == key;
        assert documents[i].key == key;
      }
      if documents[n].key != key && exists i :: 0 <= i < |documents| && documents[i].key == key {
        var i :| 0 <= i < |documents| && documents[i].key == key;
        assert documents[..n][i].key == key;
      }
    }
  }

  lemma {:induction false} CountMeans(documents: seq<Document>, key: string)
    ensures Count(documents, key) > 1 <==> Repeated(documents, key)
    decreases |documents|
  {
    if documents != [] {
      var n := |documents| - 1;
      var rest := documents[..n];
      CountMeans(rest, key);
      CountIsPositive(rest, key);
      if Repeated(rest, key) {
        var i, j :| 0 <= i < j < |rest| && rest[i].key == key && rest[j].key == key;
        assert documents[i].key == key && documents[j].key == key;
      }
      if documents[n].key == key && Count(rest, key) > 0 {
        var i :| 0 <= i < |rest| && rest[i].key == key;
        assert documents[i].key == key;
      }
      if Repeated(documents, key) {
        var i, j :| 0 <= i < j < |documents| && documents[i].key == key && documents[j].key == key;
        assert rest[i].key == key && (j < n ==> rest[j].key == key);
      }
    }
  }

  /** An unamended invoice, and the only document of its key. */
  predicate Ordinary(documents: seq<Document>, d: Document) {
    !Repeated(documents, d.key) && d.amendmentOf.None? && d.kind == "INVOICE"
  }

  /** The dates are at most `days` apart, or the book date is not known. */
  predicate DatedWithin(d: Document, p: Purchase, days: int) {
    p.date.Some? ==> -days <= d.date - p.date.value <= days
  }

  /** What each bucket says of a purchase and its document, and the differences and the claim that go with it. */
  predicate RowMeans(r: Row, p: Purchase, documents: seq<Document>, claimed: set<string>) {
    && (r.bucket == Missing2b <==> r.document.None?)
    && (r.document.Some? ==>
          var d := r.document.value;
          && r.valueDiff == d.total - p.amount && (p.date.Some? ==> r.dateDiff == d.date - p.date.value)
          && (r.claimed <==> d.key in claimed)
          && (r.bucket == Duplicate <==> Repeated(documents, d.key))
          && (r.bucket == AmendmentOrNote <==> !Repeated(documents, d.key) && !Ordinary(documents, d))
          && (r.bucket == ManualReview <==> Ordinary(documents, d) && !SameNumber(d, p))
          && (r.bucket == Exact <==> Ordinary(documents, d) && SameNumber(d, p) && d.total == p.amount && DatedWithin(d, p, 0))
          && (r.bucket == Probable <==>
                && Ordinary(documents, d) && SameNumber(d, p) && -100 <= d.total - p.amount <= 100 && DatedWithin(d, p, 5)
                && !(d.total == p.amount && DatedWithin(d, p, 0)))
          && (r.bucket == Mismatch <==>
                Ordinary(documents, d) && SameNumber(d, p) && !(-100 <= d.total - p.amount <= 100 && DatedWithin(d, p, 5))))
  }

  lemma BucketMeans(d: Document, p: Purchase, documents: seq<Document>, claimed: set<string>, same: bool)
    requires same <==> SameNumber(d, p)
    ensures RowMeans(Row(Some(p), Some(d), BucketOf(d, p, same, Count(documents, d.key)), d.total - p.amount, DateDiff(d, p), d.key in claimed),
                     p, documents, claimed)
  {
    CountMeans(documents, d.key);
  }

  lemma RowForMeans(p: Purchase, documents: seq<Document>, used: set<string>, claimed: set<string>)
    ensures RowMeans(RowFor(p, documents, used, claimed), p, documents, claimed)
  {
    var pool := Pool(documents, p, used);
    if pool != [] {
      NearestInPool(documents, p, used);
      BucketMeans(Nearest(pool, p), p, documents, claimed, SameNumbered(Candidates(documents, p, used), p) != []);
    }
  }

  lemma BucketsMean(purchases: seq<Purchase>, documents: seq<Document>, claimed: set<string>, i: nat)
    requires i < |purchases|
    ensures |purchases| <= |Matching(purchases, documents, claimed)|
    ensures RowMeans(Matching(purchases, documents, claimed)[i], purchases[i], documents, claimed)
  {
    RowOfPurchase(purchases, documents, claimed, i);
    RowForMeans(purchases[i], documents, KeysOf(RowsFor(purchases, documents, claimed)[..i]), claimed);
  }

  lemma {:induction false} LeftoverAt(some: seq<Document>, documents: seq<Document>, used: set<string>, k: nat) returns (d: Document)
    requires k < |Leftovers(some, documents, used)|
    ensures d in some && d.key !in used && Leftovers(some, documents, used)[k] == LeftRow(d, documents)
    decreases |some|
  {
    var n := |some| - 1;
    if k < |Leftovers(some[..n], documents, used)| {
      d := LeftoverAt(some[..n], documents, used, k);
    } else {
      d := some[n];
    }
  }

  /** A row of a document that no purchase took: missing in the books, or repeated. */
  predicate LeftoverMeans(r: Row, documents: seq<Document>, used: set<string>) {
    && r.purchase.None? && r.document.Some? && r.document.value in documents && !r.claimed && r.document.value.key !in used
    && r.bucket == if Repeated(documents, r.document.value.key) then Duplicate else MissingInBooks
  }

  /** The rows after the purchases are documents whose key no purchase took: missing in the books, or repeated. */
  lemma LeftoversMean(purchases: seq<Purchase>, documents: seq<Document>, claimed: set<string>, used: set<string>, k: nat, r: Row)
    requires |purchases| <= k < |Matching(purchases, documents, claimed)| && r == Matching(purchases, documents, claimed)[k]
    requires used == KeysOf(RowsFor(purchases, documents, claimed))
    ensures LeftoverMeans(r, documents, used)
  {
    MatchingTail(purchases, documents, claimed, k);
    LeftoverRowMeans(documents, used, k - |purchases|, r);
  }

  lemma MatchingTail(purchases: seq<Purchase>, documents: seq<Document>, claimed: set<string>, k: nat)
    requires |purchases| <= k < |Matching(purchases, documents, claimed)|
    ensures var left := Leftovers(documents, documents, KeysOf(RowsFor(purchases, documents, claimed)));
      k - |purchases| < |left| && Matching(purchases, documents, claimed)[k] == left[k - |purchases|]
  {
    RowsLength(purchases, documents, claimed);
  }

  lemma LeftoverRowMeans(documents: seq<Document>, used: set<string>, k: nat, r: Row)
    requires k < |Leftovers(documents, documents, used)| && r == Leftovers(documents, documents, used)[k]
    ensures LeftoverMeans(r, documents, used)
  {
    var d := LeftoverAt(documents, documents, used, k);
    CountMeans(documents, d.key);
  }

  lemma {:induction false} NormalConcat(a: string, b: string)
    ensures Normal(a + b) == Normal(a) + Normal(b)
    decreases |a|
  {
    if a == [] {
      assert a + b == b;
    } else {
      assert (a + b)[0] == a[0] && (a + b)[1..] == a[1..] + b;
      NormalConcat(a[1..], b);
      assert Normal(a + b) == Kept(a[0]) + (Normal(a[1..]) + Normal(b));
    }
  }

  lemma NormalOfChar(c: char)
    ensures Normal([c]) == Kept(c)
  {
    assert [c][1..] == [];
    assert Kept(c) + [] == Kept(c);
  }

  lemma NormalAround(a: string, c: char, b: string)
    ensures Normal(a + [c] + b) == Normal(a) + Kept(c) + Normal(b)
  {
    NormalConcat(a + [c], b);
    NormalConcat(a, [c]);
    NormalOfChar(c);
  }

  /** Anything but letters and digits is ignored, small letters count as capitals, and the rest stands as it is. */
  lemma NumbersIgnoreCaseAndPunctuation(a: string, c: char, b: string)
    ensures !('0' <= c <= '9' || 'A' <= c <= 'Z' || 'a' <= c <= 'z') ==> Normal(a + [c] + b) == Normal(a + b)
    ensures 'a' <= c <= 'z' ==> Normal(a + [c] + b) == Normal(a) + [c - 'a' + 'A'] + Normal(b)
    ensures '0' <= c <= '9' || 'A' <= c <= 'Z' ==> Normal(a + [c] + b) == Normal(a) + [c] + Normal(b)
  {
    NormalAround(a, c, b);
    NormalConcat(a, b);
    assert Normal(a) + [] == Normal(a);
  }

  lemma {:induction false} LeftoverShown(some: seq<Document>, documents: seq<Document>, used: set<string>, d: Document)
    requires d in some && d.key !in used
    ensures LeftRow(d, documents) in Leftovers(some, documents, used)
    decreases |some|
  {
    var n := |some| - 1;
    if d != some[n] {
      assert some == some[..n] + [some[n]];
      LeftoverShown(some[..n], documents, used, d);
    }
  }

  /** Every document's key appears in the result. */
  lemma EveryKeyIsCovered(purchases: seq<Purchase>, documents: seq<Document>, claimed: set<string>, d: Document)
    requires d in documents
    ensures exists r :: r in Matching(purchases, documents, claimed) && r.document.Some? && r.document.value.key == d.key
  {
    var rows := RowsFor(purchases, documents, claimed);
    if d.key in KeysOf(rows) {
      var i := UsedKeyHasRow(rows, d.key);
      assert rows[i] in Matching(purchases, documents, claimed);
    } else {
      LeftoverShown(documents, documents, KeysOf(rows), d);
      assert LeftRow(d, documents) in Matching(purchases, documents, claimed);
    }
  }

  // ---- bulk acceptance ---------------------------------------------------------------------------------------------------

  datatype Decision = Pending | Accepted | Rejected

  datatype Stored = Stored(row: Row, decision: Decision)

  /** gstr2b_itc_claim_history with status ACCEPTED: one row for a key, with the period that claimed it. */
  type History = map<string, string>

  predicate Clean(s: Stored) {
    s.row.bucket == Exact && !s.row.claimed && s.decision == Pending && s.row.document.Some?
  }

  function Decided(s: Stored): Stored {
    if Clean(s) then s.(decision := Accepted) else s
  }

  function AllDecided(run: seq<Stored>): seq<Stored> {
    if run == [] then [] else AllDecided(run[..|run| - 1]) + [Decided(run[|run| - 1])]
  }

  /** INSERT ... ON CONFLICT DO NOTHING for each clean row. */
  function Claimed(run: seq<Stored>, period: string, history: History): History {
    if run == [] then history
    else
      var h := Claimed(run[..|run| - 1], period, history);
      var last := run[|run| - 1];
      if Clean(last) && last.row.document.value.key !in h then h[last.row.document.value.key := period] else h
  }

  class ReviewStore {
    var history: History

    constructor ()
      ensures history == map[]
    {
      history := map[];
    }

    method Preview(run: seq<Stored>) returns (count: nat, total: int)
      ensures count == |CleanRows(run)| && total == TotalOf(CleanRows(run))
    {
      count, total := 0, 0;
      for i := 0 to |run|
        invariant count == |CleanRows(run[..i])| && total == TotalOf(CleanRows(run[..i]))
      {
        assert run[..i + 1][..i] == run[..i];
        if Clean(run[i]) {
          TotalGrows(CleanRows(run[..i]), run[i]);
          count, total := count + 1, total + run[i].row.document.value.total;
        } else {
          assert CleanRows(run[..i]) + [] == CleanRows(run[..i]);
        }
      }
      assert run[..|run|] == run;
    }

    /** Without confirmation only a preview: how many, and how much. */
    method BulkAccept(run: seq<Stored>, period: string, confirm: bool) returns (decided: seq<Stored>, count: nat, total: int)
      modifies this
      ensures decided == if confirm then AllDecided(run) else run
      ensures history == if confirm then Claimed(run, period, old(history)) else old(history)
      ensures count == |CleanRows(run)| && total == TotalOf(CleanRows(run))
    {
      count, total := Preview(run);
      if !confirm {
        return run, count, total;
      }
      decided := [];
      for i := 0 to |run|
        invariant decided == AllDecided(run[..i])
        invariant history == Claimed(run[..i], period, old(history))
      {
        assert run[..i + 1][..i] == run[..i];
        var s := run[i];
        if Clean(s) {
          decided := decided + [s.(decision := Accepted)];
          if s.row.document.value.key !in history {
            history := history[s.row.document.value.key := period];
          }
        } else {
          decided := decided + [s];
        }
      }
      assert run[..|run|] == run;
    }
  }

  lemma TotalGrows(rows: seq<Stored>, s: Stored)
    requires s.row.document.Some?
    ensures TotalOf(rows + [s]) == TotalOf(rows) + s.row.document.value.total
  {
  }

  function CleanRows(run: seq<Stored>): seq<Stored> {
    if run == [] then []
    else CleanRows(run[..|run| - 1]) + if Clean(run[|run| - 1]) then [run[|run| - 1]] else []
  }

  function TotalOf(run: seq<Stored>): int {
    if run == [] then 0
    else TotalOf(run[..|run| - 1]) + if run[|run| - 1].row.document.Some? then run[|run| - 1].row.document.value.total else 0
  }

  /** The rows of one import run, as stored. */
  ghost predicate RunOf(run: seq<Stored>, purchases: seq<Purchase>, documents: seq<Document>, claimed: set<string>) {
    |run| == |Matching(purchases, documents, claimed)|
    && forall i :: 0 <= i < |run| ==> run[i].row == Matching(purchases, documents, claimed)[i]
  }

  lemma ExactIsMatched(purchases: seq<Purchase>, documents: seq<Document>, claimed: set<string>, i: nat)
    requires i < |Matching(purchases, documents, claimed)|
    ensures Matching(purchases, documents, claimed)[i].bucket == Exact ==> i < |purchases|
  {
    var rows := RowsFor(purchases, documents, claimed);
    RowsLength(purchases, documents, claimed);
    LeftoversAreNotExact(documents, documents, KeysOf(rows));
    if i >= |rows| {
      assert Matching(purchases, documents, claimed)[i] == Leftovers(documents, documents, KeysOf(rows))[i - |rows|];
    }
  }

  /** Within one run, clean rows have different keys: accepting them claims no key twice. */
  lemma RunClaimsEachKeyOnce(run: seq<Stored>, purchases: seq<Purchase>, documents: seq<Document>, claimed: set<string>, i: nat, j: nat)
    requires RunOf(run, purchases, documents, claimed) && i < j < |run| && Clean(run[i]) && Clean(run[j])
    ensures run[i].row.document.value.key != run[j].row.document.value.key
  {
    ExactIsMatched(purchases, documents, claimed, j);
    RowsLength(purchases, documents, claimed);
    KeysAreTakenOnce(purchases, documents, claimed, i, j);
  }

  lemma {:induction false} LeftoversAreNotExact(some: seq<Document>, documents: seq<Document>, used: set<string>)
    ensures forall k :: 0 <= k < |Leftovers(some, documents, used)| ==> Leftovers(some, documents, used)[k].bucket != Exact
    decreases |some|
  {
    if some != [] {
      LeftoversAreNotExact(some[..|some| - 1], documents, used);
    }
  }

  /** A row of a run is clean when it is pending, EXACT and its key was not claimed at matching time. */
  lemma CleanRow(run: seq<Stored>, purchases: seq<Purchase>, documents: seq<Document>, claimed: set<string>, i: nat)
    requires RunOf(run, purchases, documents, claimed) && i < |run|
    ensures Clean(run[i]) <==>
      && run[i].decision == Pending && run[i].row.bucket == Exact && run[i].row.document.Some?
      && run[i].row.document.value.key !in claimed
  {
    RowsLength(purchases, documents, claimed);
    ExactIsMatched(purchases, documents, claimed, i);
    if i < |purchases| {
      RowOfPurchase(purchases, documents, claimed, i);
    }
  }

  /** A run matched against everything claimed by now has no clean row with a claimed key. */
  lemma FreshRunSkipsClaimedKeys(run: seq<Stored>, purchases: seq<Purchase>, documents: seq<Document>, claimed: set<string>,
                                 history: History, i: nat)
    requires RunOf(run, purchases, documents, claimed) && history.Keys <= claimed && i < |run| && Clean(run[i])
    ensures run[i].row.document.value.key !in history
  {
    CleanRow(run, purchases, documents, claimed, i);
  }

  lemma {:induction false} DecidedAt(run: seq<Stored>, i: nat)
    requires i < |run|
    ensures |AllDecided(run)| == |run| && AllDecided(run)[i] == Decided(run[i])
    decreases |run|
  {
    if |run| > 1 {
      DecidedAt(run[..|run| - 1], if i < |run| - 1 then i else 0);
    }
  }

  /** An acceptance decides the clean rows and touches no other. */
  lemma OnlyCleanRowsAreDecided(run: seq<Stored>, i: nat)
    requires i < |run|
    ensures |AllDecided(run)| == |run|
    ensures AllDecided(run)[i] == if Clean(run[i]) then Stored(run[i].row, Accepted) else run[i]
  {
    DecidedAt(run, i);
  }

  /** The preview counts and adds up exactly the clean rows, each as often as it is there. */
  lemma {:induction false} PreviewIsOfCleanRows(run: seq<Stored>, s: Stored)
    ensures multiset(CleanRows(run))[s] == if Clean(s) then multiset(run)[s] else 0
    decreases |run|
  {
    if run != [] {
      var n := |run| - 1;
      PreviewIsOfCleanRows(run[..n], s);
      assert run == run[..n] + [run[n]];
    }
  }

  /** The claims after an acceptance: those before it, as they were, and the clean keys under its period. */
  lemma {:induction false} ClaimsAre(run: seq<Stored>, period: string, history: History, key: string)
    ensures key in Claimed(run, period, history) <==>
      key in history || exists i :: 0 <= i < |run| && Clean(run[i]) && run[i].row.document.value.key == key
    ensures key in Claimed(run, period, history) ==>
      Claimed(run, period, history)[key] == if key in history then history[key] else period
    decreases |run|
  {
    if run != [] {
      var n := |run| - 1;
      ClaimsAre(run[..n], period, history, key);
      if exists i :: 0 <= i < n && Clean(run[..n][i]) && run[..n][i].row.document.value.key == key {
        var i :| 0 <= i < n && Clean(run[..n][i]) && run[..n][i].row.document.value.key == key;
        assert run[i] == run[..n][i];
      }
      if exists i :: 0 <= i < |run| && Clean(run[i]) && run[i].row.document.value.key == key {
        var i :| 0 <= i < |run| && Clean(run[i]) && run[i].row.document.value.key == key;
        assert i < n ==> run[..n][i] == run[i];
      }
    }
  }

  lemma {:induction false} ClaimsKeep(run: seq<Stored>, period: string, history: History, key: string)
    requires key in history
    ensures key in Claimed(run, period, history) && Claimed(run, period, history)[key] == history[key]
    decreases |run|
  {
    if run != [] {
      ClaimsKeep(run[..|run| - 1], period, history, key);
    }
  }

  /** Exactly the EXACT rows whose key was claimed after the run was matched are accepted a second time; the
      history keeps the first claim and does not show it. */
  lemma AcceptedAgainIffClaimedSince(run: seq<Stored>, purchases: seq<Purchase>, documents: seq<Document>, claimed: set<string>,
                                     period: string, history: History, i: nat)
    requires RunOf(run, purchases, documents, claimed) && i < |run| && run[i].decision == Pending
    requires run[i].row.document.Some?
    ensures |AllDecided(run)| == |run|
    ensures var key := run[i].row.document.value.key;
      && (AllDecided(run)[i].decision == Accepted && key in history <==>
            run[i].row.bucket == Exact && key in history.Keys - claimed)
      && (key in history ==> key in Claimed(run, period, history) && Claimed(run, period, history)[key] == history[key])
  {
    DecidedAt(run, i);
    CleanRow(run, purchases, documents, claimed, i);
    if run[i].row.document.value.key in history {
      ClaimsKeep(run, period, history, run[i].row.document.value.key);
    }
  }

  /** Accepting a run claims the key of each of its clean rows. */
  lemma {:induction false} CleanKeysAreClaimed(run: seq<Stored>, period: string, history: History, i: nat)
    requires i < |run| && Clean(run[i])
    ensures run[i].row.document.value.key in Claimed(run, period, history)
    decreases |run|
  {
    if i < |run| - 1 {
      CleanKeysAreClaimed(run[..|run| - 1], period, history, i);
    }
  }

  lemma {:induction false} ClaimedAlready(run: seq<Stored>, period: string, history: History)
    requires forall i :: 0 <= i < |run| && Clean(run[i]) ==> run[i].row.document.value.key in history
    ensures Claimed(run, period, history) == history
    decreases |run|
  {
    if run != [] {
      ClaimedAlready(run[..|run| - 1], period, history);
    }
  }

  /** An acceptance leaves no trace in the claim history exactly when all it accepts was claimed before. */
  lemma NothingNewIff(run: seq<Stored>, period: string, history: History)
    ensures Claimed(run, period, history) == history <==>
      forall i :: 0 <= i < |run| && Clean(run[i]) ==> run[i].row.document.value.key in history
  {
    if Claimed(run, period, history) == history {
      forall i | 0 <= i < |run| && Clean(run[i]) ensures run[i].row.document.value.key in history {
        CleanKeysAreClaimed(run, period, history, i);
      }
    }
    if forall i :: 0 <= i < |run| && Clean(run[i]) ==> run[i].row.document.value.key in history {
      ClaimedAlready(run, period, history);
    }
  }

  /** Two runs over any books and any two files: what the first accepts, the second accepts again exactly where it
      has the document as EXACT and was itself matched without the claim. */
  lemma SecondRunAcceptsAgain(first: seq<Stored>, period: string, history: History, i: nat, second: seq<Stored>,
                              purchases: seq<Purchase>, documents: seq<Document>, claimed: set<string>, j: nat)
    requires i < |first| && Clean(first[i])
    requires RunOf(second, purchases, documents, claimed) && j < |second| && second[j].decision == Pending
    requires second[j].row.document.Some? && second[j].row.document.value.key == first[i].row.document.value.key
    ensures second[j].row.document.value.key in Claimed(first, period, history) && |AllDecided(second)| == |second|
    ensures AllDecided(second)[j].decision == Accepted <==>
      second[j].row.bucket == Exact && second[j].row.document.value.key !in claimed
  {
    CleanKeysAreClaimed(first, period, history, i);
    AcceptedAgainIffClaimedSince(second, purchases, documents, claimed, period, Claimed(first, period, history), j);
  }

  // ---- one document accepted twice -----------------------------------------------------------------------------

  const BILL := Purchase("p", "A", "1", Some(0), 100)

  const INVOICE := Document("k", "A", "1", 0, "INVOICE", None, 100)

  lemma OneLeftover(d: Document, used: set<string>)
    requires d.key in used
    ensures Leftovers([d], [d], used) == []
  {
    assert [d][..0] == [];
    assert Leftovers([d][..0], [d], used) == [];
  }

  lemma OneKey(r: Row)
    requires r.document.Some?
    ensures KeysOf([r]) == {r.document.value.key}
  {
    assert [r][..0] == [];
    assert KeysOf([r][..0]) == {};
  }

  /** The matching of one purchase with its invoice is a single clean row. */
  lemma OneCleanRow()
    ensures Matching([BILL], [INVOICE], {}) == [Row(Some(BILL), Some(INVOICE), Exact, 0, 0, false)]
  {
    assert Upper("A") == "A";
    assert InPool(INVOICE, [INVOICE], BILL, {});
    PurchaseGetsNearest([BILL], [INVOICE], {}, 0);
    ExactMeansEqual([BILL], [INVOICE], {}, 0);
    RowOfPurchase([BILL], [INVOICE], {}, 0);
    var rows := RowsFor([BILL], [INVOICE], {});
    var row := Row(Some(BILL), Some(INVOICE), Exact, 0, 0, false);
    assert Count([INVOICE][..0], "k") == 0;
    assert rows[0] == row;
    assert rows == [row];
    OneKey(row);
    OneLeftover(INVOICE, {"k"});
  }

  /** So the document is claimed once and accepted in both runs. */
  lemma OneDocumentIsAcceptedTwice(period: string, later: string)
    ensures var run := [Stored(Matching([BILL], [INVOICE], {})[0], Pending)];
      var after := Claimed(run, period, map[]);
      && RunOf(run, [BILL], [INVOICE], {})
      && after == map["k" := period] && Claimed(run, later, after) == after
      && AllDecided(run) == [run[0].(decision := Accepted)]
  {
    OneCleanRow();
    var run := [Stored(Matching([BILL], [INVOICE], {})[0], Pending)];
    CleanKeysAreClaimed(run, period, map[], 0);
    NothingNewIff(run, later, Claimed(run, period, map[]));
    DecidedAt(run, 0);
  }
}
