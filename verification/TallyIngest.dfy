/**
 Snapshots of the Tally company and what they leave in the voucher table, the provider-object table and the
 two registers.  A snapshot covers a window of dates; a COMPLETE one also says what is no longer there.
 */
module TallyIngest {
  import opened Options

  type Guid = string

  /** What the voucher type says, case aside: "purchase" is looked for first, then "sales". */
  datatype Book = Purchase | Sales | Neither

  /** date: YYYYMMDD as a number, which orders like the eight digits. */
  datatype Voucher = Voucher(guid: Guid, date: nat, book: Book, total: nat, tax: nat, cancelled: bool, rest: string)

  datatype Snapshot = Snapshot(from: nat, to: nat, complete: bool, vouchers: seq<Voucher>)

  /** tally_vouchers. */
  datatype VoucherRow = VoucherRow(voucher: Voucher, deleted: bool)

  /** provider_objects of type tally_voucher. */
  datatype ObjectRow = ObjectRow(snapshot: Voucher, deleted: bool)

  /** A row of purchase_register or sales_register that stands for a Tally voucher. */
  datatype RegisterRow = RegisterRow(entry: Voucher, active: bool)

  datatype Store = Store(
    vouchers: map<Guid, VoucherRow>, objects: map<Guid, ObjectRow>,
    purchases: map<Guid, RegisterRow>, sales: map<Guid, RegisterRow>)

  predicate Within(date: nat, s: Snapshot) { s.from <= date <= s.to }

  predicate Seen(g: Guid, vs: seq<Voucher>) { exists i :: 0 <= i < |vs| && vs[i].guid == g }

  /** The last entry with that guid: later upserts win. */
  function LastOf(g: Guid, vs: seq<Voucher>): Voucher
    requires Seen(g, vs)
  {
    if vs[|vs| - 1].guid == g then vs[|vs| - 1] else assert Seen(g, vs[..|vs| - 1]); LastOf(g, vs[..|vs| - 1])
  }

  // ---- the specification, row by row ------------------------------------------------------------------------

  function VoucherAfter(row: Option<VoucherRow>, g: Guid, s: Snapshot): Option<VoucherRow> {
    if Seen(g, s.vouchers) then Some(VoucherRow(LastOf(g, s.vouchers), false))
    else if row.Some? && s.complete && Within(row.value.voucher.date, s) then Some(row.value.(deleted := true))
    else row
  }

  function ObjectAfter(row: Option<ObjectRow>, g: Guid, s: Snapshot): Option<ObjectRow> {
    if Seen(g, s.vouchers) then Some(ObjectRow(LastOf(g, s.vouchers), false))
    else if row.Some? && s.complete && Within(row.value.snapshot.date, s) then Some(row.value.(deleted := true))
    else row
  }

  /** The last entry with that guid and book: a voucher that changed its book leaves the old row as it was. */
  predicate SeenIn(g: Guid, book: Book, vs: seq<Voucher>) { exists i :: 0 <= i < |vs| && vs[i].guid == g && vs[i].book == book }

  function LastIn(g: Guid, book: Book, vs: seq<Voucher>): Voucher
    requires SeenIn(g, book, vs)
  {
    if vs[|vs| - 1].guid == g && vs[|vs| - 1].book == book then vs[|vs| - 1]
    else assert SeenIn(g, book, vs[..|vs| - 1]); LastIn(g, book, vs[..|vs| - 1])
  }

  function RegisterAfter(row: Option<RegisterRow>, g: Guid, book: Book, s: Snapshot): Option<RegisterRow> {
    if SeenIn(g, book, s.vouchers)
    then Some(RegisterRow(LastIn(g, book, s.vouchers), !LastIn(g, book, s.vouchers).cancelled))
    else if row.Some? && s.complete && Within(row.value.entry.date, s) && !Seen(g, s.vouchers)
    then Some(row.value.(active := false))
    else row
  }

  function Get<V>(m: map<Guid, V>, g: Guid): Option<V> { if g in m then Some(m[g]) else None }

  /** b is what the snapshot makes of a. */
  ghost predicate Ingested(a: Store, b: Store, s: Snapshot) {
    && (forall g :: Get(b.vouchers, g) == VoucherAfter(Get(a.vouchers, g), g, s))
    && (forall g :: Get(b.objects, g) == ObjectAfter(Get(a.objects, g), g, s))
    && (forall g :: Get(b.purchases, g) == RegisterAfter(Get(a.purchases, g), g, Purchase, s))
    && (forall g :: Get(b.sales, g) == RegisterAfter(Get(a.sales, g), g, Sales, s))
  }

  // ---- the tables ------------------------------------------------------------------------------------------------

  class Tables {
    var vouchers: map<Guid, VoucherRow>
    var objects: map<Guid, ObjectRow>
    var purchases: map<Guid, RegisterRow>
    var sales: map<Guid, RegisterRow>

    ghost function Contents(): Store
      reads this
    {
      Store(vouchers, objects, purchases, sales)
    }

    constructor ()
      ensures Contents() == Store(map[], map[], map[], map[])
    {
      vouchers, objects, purchases, sales := map[], map[], map[], map[];
    }

    /** Upserts into the object table, the voucher table and the register of the voucher's book. */
    method IngestVoucher(v: Voucher)
      modifies this
      ensures objects == old(objects)[v.guid := ObjectRow(v, false)]
      ensures vouchers == old(vouchers)[v.guid := VoucherRow(v, false)]
      ensures purchases == if v.book.Purchase? then old(purchases)[v.guid := RegisterRow(v, !v.cancelled)] else old(purchases)
      ensures sales == if v.book.Sales? then old(sales)[v.guid := RegisterRow(v, !v.cancelled)] else old(sales)
    {
      objects := objects[v.guid := ObjectRow(v, false)];
      vouchers := vouchers[v.guid := VoucherRow(v, false)];
      if v.book.Purchase? {
        purchases := purchases[v.guid := RegisterRow(v, !v.cancelled)];
      } else if v.book.Sales? {
        sales := sales[v.guid := RegisterRow(v, !v.cancelled)];
      }
    }

    /** What a COMPLETE snapshot does not mention in its window is gone. */
    method ReconcileWindow(s: Snapshot, seen: set<Guid>)
      modifies this
      ensures Reconciled(old(Contents()), Contents(), s, seen)
    {
      if !s.complete {
        assert purchases == Dropped(purchases, s, seen) && sales == Dropped(sales, s, seen);
        return;
      }
      vouchers := map g | g in vouchers ::
        if Within(vouchers[g].voucher.date, s) && g !in seen then vouchers[g].(deleted := true) else vouchers[g];
      sales := map g | g in sales ::
        if Within(sales[g].entry.date, s) && g !in seen then sales[g].(active := false) else sales[g];
      purchases := map g | g in purchases ::
        if Within(purchases[g].entry.date, s) && g !in seen then purchases[g].(active := false) else purchases[g];
      objects := map g | g in objects ::
        if Within(objects[g].snapshot.date, s) && g !in seen then objects[g].(deleted := true) else objects[g];
    }

    method IngestSnapshot(s: Snapshot)
      modifies this
      ensures Ingested(old(Contents()), Contents(), s)
    {
      ghost var before := Contents();
      var seen: set<Guid> := {};
      for i := 0 to |s.vouchers|
        invariant Ingested(before, Contents(), Snapshot(s.from, s.to, false, s.vouchers[..i]))
        invariant forall g :: g in seen <==> Seen(g, s.vouchers[..i])
      {
        ghost var soFar := Contents();
        IngestVoucher(s.vouchers[i]);
        seen := seen + {s.vouchers[i].guid};
        UpsertExtends(before, soFar, Contents(), s, i);
      }
      assert s.vouchers[..|s.vouchers|] == s.vouchers;
      ghost var upserted := Contents();
      ReconcileWindow(s, seen);
      ReconcileCompletes(before, upserted, Contents(), s, seen);
    }
  }

  ghost predicate Reconciled(a: Store, b: Store, s: Snapshot, seen: set<Guid>) {
    && b.vouchers == (map g | g in a.vouchers ::
         if s.complete && Within(a.vouchers[g].voucher.date, s) && g !in seen
         then a.vouchers[g].(deleted := true) else a.vouchers[g])
    && b.objects == (map g | g in a.objects ::
         if s.complete && Within(a.objects[g].snapshot.date, s) && g !in seen
         then a.objects[g].(deleted := true) else a.objects[g])
    && b.purchases == Dropped(a.purchases, s, seen)
    && b.sales == Dropped(a.sales, s, seen)
  }

  /** A register without the rows that a COMPLETE snapshot no longer mentions. */
  function Dropped(m: map<Guid, RegisterRow>, s: Snapshot, seen: set<Guid>): map<Guid, RegisterRow> {
    map g | g in m :: if s.complete && Within(m[g].entry.date, s) && g !in seen then m[g].(active := false) else m[g]
  }

  lemma ReconcileCompletes(start: Store, a: Store, b: Store, s: Snapshot, seen: set<Guid>)
    requires Ingested(start, a, s.(complete := false)) && Reconciled(a, b, s, seen)
    requires forall g :: g in seen <==> Seen(g, s.vouchers)
    ensures Ingested(start, b, s)
  {
  }

  /** One delivery of a snapshot by the agent. */
  datatype Push = Push(key: string, sameCompany: bool, snapshot: Snapshot)

  datatype Reply = Synced | Duplicate | WrongCompany | HashMismatch

  /** tally_sync_logs, under its idempotency key; the payload stands for its hash. */
  type Log = map<string, Snapshot>

  function ReplyTo(log: Log, p: Push): Reply {
    if !p.sameCompany then WrongCompany
    else if p.key !in log then Synced
    else if log[p.key] != p.snapshot then HashMismatch
    else Duplicate
  }

  class SnapshotEndpoint {
    const tables: Tables
    var log: Log

    constructor (tables: Tables)
      ensures this.tables == tables && log == map[]
    {
      this.tables, log := tables, map[];
    }

    method PushSnapshot(p: Push) returns (reply: Reply)
      modifies this, tables
      ensures reply == ReplyTo(old(log), p)
      ensures reply.Synced? <==> p.sameCompany && p.key !in old(log)
      ensures reply.Duplicate? <==> p.sameCompany && p.key in old(log) && old(log)[p.key] == p.snapshot
      ensures reply.WrongCompany? <==> !p.sameCompany
      ensures if reply.Synced? then Ingested(old(tables.Contents()), tables.Contents(), p.snapshot) && log == old(log)[p.key := p.snapshot]
              else tables.Contents() == old(tables.Contents()) && log == old(log)
    {
      if !p.sameCompany {
        return WrongCompany;
      }
      if p.key in log {
        return if log[p.key] != p.snapshot then HashMismatch else Duplicate;
      }
      tables.IngestSnapshot(p.snapshot);
      log := log[p.key := p.snapshot];
      reply := Synced;
    }
  }

  lemma SeenGrows(g: Guid, vs: seq<Voucher>, i: nat)
    requires i < |vs|
    ensures Seen(g, vs[..i + 1]) <==> Seen(g, vs[..i]) || vs[i].guid == g
    ensures vs[i].guid == g ==> LastOf(g, vs[..i + 1]) == vs[i]
    ensures vs[i].guid != g && Seen(g, vs[..i]) ==> LastOf(g, vs[..i + 1]) == LastOf(g, vs[..i])
  {
    assert vs[..i + 1][..i] == vs[..i] && vs[..i + 1][i] == vs[i];
    if Seen(g, vs[..i]) {
      var k :| 0 <= k < i && vs[..i][k].guid == g;
      assert vs[..i + 1][k].guid == g;
    }
    if Seen(g, vs[..i + 1]) && vs[i].guid != g {
      var k :| 0 <= k < i + 1 && vs[..i + 1][k].guid == g;
      assert vs[..i][k].guid == g;
    }
  }

  lemma SeenInGrows(g: Guid, book: Book, vs: seq<Voucher>, i: nat)
    requires i < |vs|
    ensures SeenIn(g, book, vs[..i + 1]) <==> SeenIn(g, book, vs[..i]) || (vs[i].guid == g && vs[i].book == book)
    ensures vs[i].guid == g && vs[i].book == book ==> LastIn(g, book, vs[..i + 1]) == vs[i]
    ensures !(vs[i].guid == g && vs[i].book == book) && SeenIn(g, book, vs[..i]) ==>
              LastIn(g, book, vs[..i + 1]) == LastIn(g, book, vs[..i])
  {
    assert vs[..i + 1][..i] == vs[..i] && vs[..i + 1][i] == vs[i];
    if SeenIn(g, book, vs[..i]) {
      var k :| 0 <= k < i && vs[..i][k].guid == g && vs[..i][k].book == book;
      assert vs[..i + 1][k].guid == g && vs[..i + 1][k].book == book;
    }
    if SeenIn(g, book, vs[..i + 1]) && !(vs[i].guid == g && vs[i].book == book) {
      var k :| 0 <= k < i + 1 && vs[..i + 1][k].guid == g && vs[..i + 1][k].book == book;
      assert vs[..i][k].guid == g && vs[..i][k].book == book;
    }
  }

  ghost predicate Upserted(a: Store, b: Store, v: Voucher) {
    && b.objects == a.objects[v.guid := ObjectRow(v, false)]
    && b.vouchers == a.vouchers[v.guid := VoucherRow(v, false)]
    && b.purchases == (if v.book.Purchase? then a.purchases[v.guid := RegisterRow(v, !v.cancelled)] else a.purchases)
    && b.sales == (if v.book.Sales? then a.sales[v.guid := RegisterRow(v, !v.cancelled)] else a.sales)
  }

  lemma UpsertExtends(start: Store, a: Store, b: Store, s: Snapshot, i: nat)
    requires i < |s.vouchers| && Ingested(start, a, Snapshot(s.from, s.to, false, s.vouchers[..i]))
    requires Upserted(a, b, s.vouchers[i])
    ensures Ingested(start, b, Snapshot(s.from, s.to, false, s.vouchers[..i + 1]))
  {
    var t := Snapshot(s.from, s.to, false, s.vouchers[..i + 1]);
    forall g
      ensures Get(b.vouchers, g) == VoucherAfter(Get(start.vouchers, g), g, t)
      ensures Get(b.objects, g) == ObjectAfter(Get(start.objects, g), g, t)
    {
      SeenGrows(g, s.vouchers, i);
    }
    RegisterExtends(start.purchases, a.purchases, b.purchases, Purchase, s, i);
    RegisterExtends(start.sales, a.sales, b.sales, Sales, s, i);
  }

  lemma RegisterExtends(start: map<Guid, RegisterRow>, a: map<Guid, RegisterRow>, b: map<Guid, RegisterRow>, book: Book,
                        s: Snapshot, i: nat)
    requires i < |s.vouchers|
    requires forall g :: Get(a, g) == RegisterAfter(Get(start, g), g, book, Snapshot(s.from, s.to, false, s.vouchers[..i]))
    requires var v := s.vouchers[i];
      b == if v.book == book then a[v.guid := RegisterRow(v, !v.cancelled)] else a
    ensures forall g :: Get(b, g) == RegisterAfter(Get(start, g), g, book, Snapshot(s.from, s.to, false, s.vouchers[..i + 1]))
  {
    forall g ensures Get(b, g) == RegisterAfter(Get(start, g), g, book, Snapshot(s.from, s.to, false, s.vouchers[..i + 1])) {
      SeenInGrows(g, book, s.vouchers, i);
    }
  }

  // ---- sequences of snapshots ---------------------------------------------------------------------------------------

  /** stores[k] is what the first k snapshots make of stores[0]. */
  ghost predicate Sequence(stores: seq<Store>, snaps: seq<Snapshot>) {
    |stores| == |snaps| + 1 && forall k :: 0 <= k < |snaps| ==> StepAt(stores, snaps, k)
  }

  ghost predicate StepAt(stores: seq<Store>, snaps: seq<Snapshot>, k: int)
    requires |stores| == |snaps| + 1 && 0 <= k < |snaps|
  {
    Ingested(stores[k], stores[k + 1], snaps[k])
  }

  /** The snapshot is complete and lists exactly the vouchers of `tally` that are dated in its window. */
  ghost predicate WindowOf(tally: map<Guid, Voucher>, s: Snapshot) {
    && s.complete
    && (forall i :: 0 <= i < |s.vouchers| ==> Listed(tally, s, s.vouchers[i]))
    && (forall g :: g in tally && Within(tally[g].date, s) ==> Seen(g, s.vouchers))
  }

  predicate Listed(tally: map<Guid, Voucher>, s: Snapshot, v: Voucher) {
    v.guid in tally && tally[v.guid] == v && Within(v.date, s)
  }

  predicate Covered(date: nat, snaps: seq<Snapshot>) {
    exists k :: 0 <= k < |snaps| && Within(date, snaps[k])
  }

  lemma {:induction false} LastOfIn(g: Guid, vs: seq<Voucher>)
    requires Seen(g, vs)
    ensures LastOf(g, vs) in vs && LastOf(g, vs).guid == g
  {
    if vs[|vs| - 1].guid != g {
      assert Seen(g, vs[..|vs| - 1]);
      LastOfIn(g, vs[..|vs| - 1]);
    }
  }

  /** A voucher that Tally dates in a window seen so far stands in the table as it is; any other row is deleted
      or dated outside all windows seen. */
  predicate Settled(row: Option<VoucherRow>, g: Guid, tally: map<Guid, Voucher>, snaps: seq<Snapshot>) {
    if g in tally && Covered(tally[g].date, snaps) then row == Some(VoucherRow(tally[g], false))
    else row.Some? ==> row.value.deleted || !Covered(row.value.voucher.date, snaps)
  }

  lemma CoveredGrows(date: nat, snaps: seq<Snapshot>, k: nat)
    requires k < |snaps|
    ensures Covered(date, snaps[..k + 1]) <==> Covered(date, snaps[..k]) || Within(date, snaps[k])
  {
  }

  lemma WindowSees(g: Guid, tally: map<Guid, Voucher>, s: Snapshot)
    requires WindowOf(tally, s)
    ensures Seen(g, s.vouchers) <==> g in tally && Within(tally[g].date, s)
    ensures Seen(g, s.vouchers) ==> LastOf(g, s.vouchers) == tally[g]
  {
    if Seen(g, s.vouchers) {
      LastOfIn(g, s.vouchers);
      var i :| 0 <= i < |s.vouchers| && s.vouchers[i] == LastOf(g, s.vouchers);
      assert Listed(tally, s, s.vouchers[i]);
    }
  }

  lemma SettledStep(row: Option<VoucherRow>, g: Guid, tally: map<Guid, Voucher>, snaps: seq<Snapshot>, k: nat)
    requires k < |snaps| && WindowOf(tally, snaps[k]) && Settled(row, g, tally, snaps[..k])
    ensures Settled(VoucherAfter(row, g, snaps[k]), g, tally, snaps[..k + 1])
  {
    WindowSees(g, tally, snaps[k]);
    if g in tally {
      CoveredGrows(tally[g].date, snaps, k);
    }
    if row.Some? {
      CoveredGrows(row.value.voucher.date, snaps, k);
    }
  }

  lemma {:induction false} SettledRun(stores: seq<Store>, snaps: seq<Snapshot>, tally: map<Guid, Voucher>, g: Guid, k: nat)
    requires Sequence(stores, snaps) && k <= |snaps|
    requires forall i :: 0 <= i < |snaps| ==> WindowOf(tally, snaps[i])
    ensures Settled(Get(stores[k].vouchers, g), g, tally, snaps[..k])
  {
    if k > 0 {
      SettledRun(stores, snaps, tally, g, k - 1);
      assert StepAt(stores, snaps, k - 1);
      SettledStep(Get(stores[k - 1].vouchers, g), g, tally, snaps, k - 1);
    }
  }

  /** Whatever was stored before, and in whatever order the windows arrive: what is not deleted in the dates
      they cover is what Tally holds there. */
  lemma WindowsInAnyOrder(stores: seq<Store>, snaps: seq<Snapshot>, tally: map<Guid, Voucher>, g: Guid)
    requires Sequence(stores, snaps)
    requires forall i :: 0 <= i < |snaps| ==> WindowOf(tally, snaps[i])
    ensures var rows := stores[|snaps|].vouchers;
      && (g in rows && !rows[g].deleted && Covered(rows[g].voucher.date, snaps)
          <==> g in tally && Covered(tally[g].date, snaps))
      && (g in tally && Covered(tally[g].date, snaps) ==> rows[g].voucher == tally[g])
  {
    SettledRun(stores, snaps, tally, g, |snaps|);
    assert snaps[..|snaps|] == snaps;
  }

  /** A row outside a window, of a voucher that the snapshot does not list, stays as it is. */
  lemma OutsideIsUntouched(a: Store, b: Store, s: Snapshot, g: Guid)
    requires Ingested(a, b, s) && !Seen(g, s.vouchers)
    requires g in a.vouchers ==> !Within(a.vouchers[g].voucher.date, s)
    ensures Get(b.vouchers, g) == Get(a.vouchers, g)
  {
  }

  /** A PARTIAL snapshot deletes nothing and leaves what it does not list alone. */
  lemma PartialDeletesNothing(a: Store, b: Store, s: Snapshot, g: Guid)
    requires Ingested(a, b, s) && !s.complete && g in a.vouchers
    ensures g in b.vouchers && (b.vouchers[g].deleted ==> a.vouchers[g].deleted)
    ensures !Seen(g, s.vouchers) ==> b.vouchers[g] == a.vouchers[g]
  {
    assert Get(b.vouchers, g) == VoucherAfter(Get(a.vouchers, g), g, s);
  }

  /** The two tables hold the same vouchers and agree on which are deleted. */
  ghost predicate TablesAgree(s: Store) {
    forall g :: AgreeAt(Get(s.vouchers, g), Get(s.objects, g))
  }

  predicate AgreeAt(row: Option<VoucherRow>, o: Option<ObjectRow>) {
    if row.None? then o.None? else o == Some(ObjectRow(row.value.voucher, row.value.deleted))
  }

  lemma IngestKeepsTablesAgreed(a: Store, b: Store, s: Snapshot)
    requires Ingested(a, b, s) && TablesAgree(a)
    ensures TablesAgree(b)
  {
  }

  lemma {:induction false} RunKeepsTablesAgreed(stores: seq<Store>, snaps: seq<Snapshot>, k: nat)
    requires Sequence(stores, snaps) && k <= |snaps| && TablesAgree(stores[0])
    ensures TablesAgree(stores[k])
  {
    if k > 0 {
      RunKeepsTablesAgreed(stores, snaps, k - 1);
      assert StepAt(stores, snaps, k - 1);
      IngestKeepsTablesAgreed(stores[k - 1], stores[k], snaps[k - 1]);
    }
  }

  lemma {:induction false} LastOfIs(vs: seq<Voucher>, i: nat)
    requires i < |vs| && forall j :: i < j < |vs| ==> vs[j].guid != vs[i].guid
    ensures Seen(vs[i].guid, vs) && LastOf(vs[i].guid, vs) == vs[i]
    decreases |vs|
  {
    if i < |vs| - 1 {
      LastOfIs(vs[..|vs| - 1], i);
    }
  }

  /** What a snapshot lists last for a voucher stands, undeleted, in both tables, whether it is complete or not. */
  lemma LastListingStands(a: Store, b: Store, s: Snapshot, i: nat)
    requires Ingested(a, b, s) && i < |s.vouchers|
    requires forall j :: i < j < |s.vouchers| ==> s.vouchers[j].guid != s.vouchers[i].guid
    ensures var v := s.vouchers[i];
      Get(b.vouchers, v.guid) == Some(VoucherRow(v, false)) && Get(b.objects, v.guid) == Some(ObjectRow(v, false))
  {
    LastOfIs(s.vouchers, i);
  }

  // ---- the registers ----------------------------------------------------------------------------------------------------

  lemma {:induction false} LastInIn(g: Guid, book: Book, vs: seq<Voucher>)
    requires SeenIn(g, book, vs)
    ensures LastIn(g, book, vs) in vs && LastIn(g, book, vs).guid == g && LastIn(g, book, vs).book == book
  {
    if !(vs[|vs| - 1].guid == g && vs[|vs| - 1].book == book) {
      assert SeenIn(g, book, vs[..|vs| - 1]);
      LastInIn(g, book, vs[..|vs| - 1]);
    }
  }

  lemma WindowSeesIn(g: Guid, book: Book, tally: map<Guid, Voucher>, s: Snapshot)
    requires WindowOf(tally, s)
    ensures SeenIn(g, book, s.vouchers) <==> g in tally && Within(tally[g].date, s) && tally[g].book == book
    ensures SeenIn(g, book, s.vouchers) ==> LastIn(g, book, s.vouchers) == tally[g]
  {
    if SeenIn(g, book, s.vouchers) {
      LastInIn(g, book, s.vouchers);
      var i :| 0 <= i < |s.vouchers| && s.vouchers[i] == LastIn(g, book, s.vouchers);
      assert Listed(tally, s, s.vouchers[i]);
    }
    if g in tally && Within(tally[g].date, s) && tally[g].book == book {
      assert Seen(g, s.vouchers);
      var i :| 0 <= i < |s.vouchers| && s.vouchers[i].guid == g;
      assert Listed(tally, s, s.vouchers[i]);
    }
  }

  /** After a COMPLETE window, an active register row dated in it shows a voucher that Tally holds in that book
      and window, as it is and not cancelled - or it is left over from before the voucher changed its book. */
  lemma RegisterAfterWindow(row: Option<RegisterRow>, g: Guid, book: Book, tally: map<Guid, Voucher>, s: Snapshot)
    requires WindowOf(tally, s) && !book.Neither?
    ensures var after := RegisterAfter(row, g, book, s);
      (after.Some? && after.value.active && Within(after.value.entry.date, s))
      <==>
      (g in tally && Within(tally[g].date, s)
       && if tally[g].book == book then !tally[g].cancelled
          else row.Some? && row.value.active && Within(row.value.entry.date, s))
    ensures g in tally && Within(tally[g].date, s) && tally[g].book == book ==>
              RegisterAfter(row, g, book, s) == Some(RegisterRow(tally[g], !tally[g].cancelled))
  {
    WindowSees(g, tally, s);
    WindowSeesIn(g, book, tally, s);
  }

  /** A purchase voucher re-typed as a sale stays active in both registers. */
  lemma ChangedBookIsCountedTwice(v: Voucher)
    requires v.book == Purchase && !v.cancelled
    ensures var w := v.(book := Sales);
      var s := Snapshot(v.date, v.date, true, [w]);
      && WindowOf(map[v.guid := w], s)
      && RegisterAfter(Some(RegisterRow(v, true)), v.guid, Purchase, s) == Some(RegisterRow(v, true))
      && RegisterAfter(None, v.guid, Sales, s) == Some(RegisterRow(w, true))
  {
    var w := v.(book := Sales);
    assert Seen(v.guid, [w]) by { assert [w][0].guid == v.guid; }
    assert SeenIn(v.guid, Sales, [w]) by { assert [w][0].book == Sales; }
  }

  lemma {:induction false} LastInIs(vs: seq<Voucher>, i: nat)
    requires i < |vs| && forall j :: i < j < |vs| ==> vs[j].guid != vs[i].guid
    ensures SeenIn(vs[i].guid, vs[i].book, vs) && LastIn(vs[i].guid, vs[i].book, vs) == vs[i]
    decreases |vs|
  {
    if i < |vs| - 1 {
      LastInIs(vs[..|vs| - 1], i);
    }
  }

  /** The same for the register of its book, active unless it is cancelled. */
  lemma LastListingIsRegistered(a: Store, b: Store, s: Snapshot, i: nat)
    requires Ingested(a, b, s) && i < |s.vouchers| && !s.vouchers[i].book.Neither?
    requires forall j :: i < j < |s.vouchers| ==> s.vouchers[j].guid != s.vouchers[i].guid
    ensures var v := s.vouchers[i]; Get(RegisterOf(b, v.book), v.guid) == Some(RegisterRow(v, !v.cancelled))
  {
    var v := s.vouchers[i];
    LastInIs(s.vouchers, i);
    assert Get(RegisterOf(b, v.book), v.guid) == RegisterAfter(Get(RegisterOf(a, v.book), v.guid), v.guid, v.book, s);
  }

  /** The register of a book. */
  function RegisterOf(s: Store, book: Book): map<Guid, RegisterRow>
    requires !book.Neither?
  {
    if book.Purchase? then s.purchases else s.sales
  }

  /** A register row whose voucher the snapshot does not list changes only in a COMPLETE window that covers its date,
      and then only to inactive. */
  lemma UnlistedRegisterRow(a: Store, b: Store, s: Snapshot, g: Guid, book: Book)
    requires Ingested(a, b, s) && !Seen(g, s.vouchers) && !book.Neither?
    ensures g in RegisterOf(b, book) <==> g in RegisterOf(a, book)
    ensures g in RegisterOf(a, book) ==>
      var row := RegisterOf(a, book)[g];
      RegisterOf(b, book)[g] == if s.complete && s.from <= row.entry.date <= s.to then row.(active := false) else row
  {
    assert !SeenIn(g, book, s.vouchers);
    assert Get(RegisterOf(b, book), g) == RegisterAfter(Get(RegisterOf(a, book), g), g, book, s);
  }

  /** Nor does a PARTIAL snapshot, or one that lists the voucher in another book, touch a row. */
  lemma RegisterRowOfAnotherBook(a: Store, b: Store, s: Snapshot, g: Guid, book: Book)
    requires Ingested(a, b, s) && !book.Neither? && Seen(g, s.vouchers)
    requires forall i :: 0 <= i < |s.vouchers| && s.vouchers[i].guid == g ==> s.vouchers[i].book != book
    ensures Get(RegisterOf(b, book), g) == Get(RegisterOf(a, book), g)
  {
    assert !SeenIn(g, book, s.vouchers);
    assert Get(RegisterOf(b, book), g) == RegisterAfter(Get(RegisterOf(a, book), g), g, book, s);
  }

  /** Over a whole sequence, a row that no snapshot lists and no COMPLETE window covers stays as it is. */
  lemma {:induction false} RowOutsideStays(stores: seq<Store>, snaps: seq<Snapshot>, g: Guid, book: Book, k: nat)
    requires Sequence(stores, snaps) && k <= |snaps| && !book.Neither? && g in RegisterOf(stores[0], book)
    requires forall i :: 0 <= i < |snaps| ==> Leaves(snaps[i], g, RegisterOf(stores[0], book)[g].entry.date)
    ensures Get(RegisterOf(stores[k], book), g) == Get(RegisterOf(stores[0], book), g)
  {
    if k > 0 {
      RowOutsideStays(stores, snaps, g, book, k - 1);
      assert StepAt(stores, snaps, k - 1);
      UnlistedRegisterRow(stores[k - 1], stores[k], snaps[k - 1], g, book);
    }
  }

  /** The snapshot neither lists the voucher nor covers the date. */
  ghost predicate Leaves(s: Snapshot, g: Guid, date: nat) {
    !Seen(g, s.vouchers) && (s.complete ==> date < s.from || s.to < date)
  }

  /** Some window covers the row's date without covering the voucher as Tally holds it. */
  ghost predicate Missed(row: RegisterRow, g: Guid, tally: map<Guid, Voucher>, snaps: seq<Snapshot>) {
    exists k :: 0 <= k < |snaps| && Within(row.entry.date, snaps[k]) && !(g in tally && Within(tally[g].date, snaps[k]))
  }

  /** Where the windows seen so far leave a register row: Tally's voucher of the book as it is, if they cover it, and
      otherwise the row that was there, active unless a window missed its voucher. */
  ghost predicate RegisterSettled(row: Option<RegisterRow>, start: Option<RegisterRow>, g: Guid, book: Book,
                                  tally: map<Guid, Voucher>, snaps: seq<Snapshot>) {
    if g in tally && tally[g].book == book && Covered(tally[g].date, snaps)
    then row == Some(RegisterRow(tally[g], !tally[g].cancelled))
    else if start.None? then row.None?
    else row == Some(start.value.(active := start.value.active && !Missed(start.value, g, tally, snaps)))
  }

  lemma MissedGrows(row: RegisterRow, g: Guid, tally: map<Guid, Voucher>, snaps: seq<Snapshot>, k: nat)
    requires k < |snaps|
    ensures Missed(row, g, tally, snaps[..k + 1]) <==>
      Missed(row, g, tally, snaps[..k]) || (Within(row.entry.date, snaps[k]) && !(g in tally && Within(tally[g].date, snaps[k])))
  {
    var now, before := snaps[..k + 1], snaps[..k];
    if Missed(row, g, tally, before) {
      var i :| 0 <= i < |before| && Within(row.entry.date, before[i]) && !(g in tally && Within(tally[g].date, before[i]));
      assert now[i] == before[i];
    }
    if Missed(row, g, tally, now) {
      var i :| 0 <= i < |now| && Within(row.entry.date, now[i]) && !(g in tally && Within(tally[g].date, now[i]));
      assert i == k || before[i] == now[i];
    }
    assert now[k] == snaps[k];
  }

  lemma RegisterSettledStep(row: Option<RegisterRow>, start: Option<RegisterRow>, g: Guid, book: Book,
                            tally: map<Guid, Voucher>, snaps: seq<Snapshot>, k: nat)
    requires k < |snaps| && WindowOf(tally, snaps[k]) && !book.Neither?
    requires RegisterSettled(row, start, g, book, tally, snaps[..k])
    ensures RegisterSettled(RegisterAfter(row, g, book, snaps[k]), start, g, book, tally, snaps[..k + 1])
  {
    WindowSees(g, tally, snaps[k]);
    WindowSeesIn(g, book, tally, snaps[k]);
    if g in tally {
      CoveredGrows(tally[g].date, snaps, k);
    }
    if start.Some? {
      MissedGrows(start.value, g, tally, snaps, k);
    }
  }

  lemma {:induction false} RegisterSettledRun(stores: seq<Store>, snaps: seq<Snapshot>, tally: map<Guid, Voucher>, g: Guid,
                                              book: Book, k: nat)
    requires Sequence(stores, snaps) && k <= |snaps| && !book.Neither?
    requires forall i :: 0 <= i < |snaps| ==> WindowOf(tally, snaps[i])
    ensures RegisterSettled(Get(RegisterOf(stores[k], book), g), Get(RegisterOf(stores[0], book), g), g, book, tally, snaps[..k])
  {
    if k > 0 {
      RegisterSettledRun(stores, snaps, tally, g, book, k - 1);
      assert StepAt(stores, snaps, k - 1);
      RegisterSettledStep(Get(RegisterOf(stores[k - 1], book), g), Get(RegisterOf(stores[0], book), g), g, book, tally, snaps, k - 1);
      assert Get(RegisterOf(stores[k], book), g) == RegisterAfter(Get(RegisterOf(stores[k - 1], book), g), g, book, snaps[k - 1]);
    }
  }

  /** Whatever a register held before, and in whatever order complete windows of one Tally state arrive: a voucher of the
      book that they cover stands there as it is, active unless cancelled; any other row is the one that was there, and
      as active as before unless a window covered its date and did not list its voucher. */
  lemma RegistersInAnyOrder(stores: seq<Store>, snaps: seq<Snapshot>, tally: map<Guid, Voucher>, g: Guid, book: Book)
    requires Sequence(stores, snaps) && !book.Neither?
    requires forall i :: 0 <= i < |snaps| ==> WindowOf(tally, snaps[i])
    ensures var before, after := Get(RegisterOf(stores[0], book), g), Get(RegisterOf(stores[|snaps|], book), g);
      if g in tally && tally[g].book == book && Covered(tally[g].date, snaps)
      then after == Some(RegisterRow(tally[g], !tally[g].cancelled))
      else if before.None? then after.None?
      else after == Some(before.value.(active := before.value.active && !Missed(before.value, g, tally, snaps)))
  {
    RegisterSettledRun(stores, snaps, tally, g, book, |snaps|);
    assert snaps[..|snaps|] == snaps;
  }

  // ---- retried deliveries -----------------------------------------------------------------------------------------------

  ghost predicate PushStep(a: Store, log: Log, b: Store, log': Log, p: Push) {
    if ReplyTo(log, p).Synced? then Ingested(a, b, p.snapshot) && log' == log[p.key := p.snapshot]
    else b == a && log' == log
  }

  ghost predicate Pushes(stores: seq<Store>, logs: seq<Log>, pushes: seq<Push>) {
    && |stores| == |logs| == |pushes| + 1 && logs[0] == map[]
    && forall k :: 0 <= k < |pushes| ==> PushAt(stores, logs, pushes, k)
  }

  ghost predicate PushAt(stores: seq<Store>, logs: seq<Log>, pushes: seq<Push>, k: int)
    requires |stores| == |logs| == |pushes| + 1 && 0 <= k < |pushes|
  {
    PushStep(stores[k], logs[k], stores[k + 1], logs[k + 1], pushes[k])
  }

  /** The first push of this company under its key. */
  predicate First(pushes: seq<Push>, k: nat)
    requires k < |pushes|
  {
    pushes[k].sameCompany && forall i :: 0 <= i < k && pushes[i].sameCompany ==> pushes[i].key != pushes[k].key
  }

  lemma {:induction false} LogHoldsKeys(stores: seq<Store>, logs: seq<Log>, pushes: seq<Push>, k: nat, key: string)
    requires Pushes(stores, logs, pushes) && k <= |pushes|
    ensures key in logs[k] <==> exists i :: 0 <= i < k && pushes[i].sameCompany && pushes[i].key == key
  {
    if k > 0 {
      LogHoldsKeys(stores, logs, pushes, k - 1, key);
      assert PushAt(stores, logs, pushes, k - 1);
    }
  }

  /** However often a delivery is retried: the tables change with the first push of a key and with no other. */
  lemma OnlyFirstPushesCount(stores: seq<Store>, logs: seq<Log>, pushes: seq<Push>, k: nat)
    requires Pushes(stores, logs, pushes) && k < |pushes|
    ensures if First(pushes, k) then Ingested(stores[k], stores[k + 1], pushes[k].snapshot) else stores[k + 1] == stores[k]
  {
    LogHoldsKeys(stores, logs, pushes, k, pushes[k].key);
    assert PushAt(stores, logs, pushes, k);
  }
}
