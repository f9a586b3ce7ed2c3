/** What every run of the Tally write protocol keeps. */
module TallySafety {
  import opened Options
  import opened FinanceActions
  import opened Canonical
  import opened TallyWrite

  predicate Final(s: Status) {
    (s.Succeeded? || s.NeedsReview? || s.Failed?)
  }

  /** The agent has renewed the lease and has not yet reported. */
  predicate Busy(pc: Pc) {
    pc.Renewed? || pc.Searching? || pc.Importing? || pc.ReadingBack? || pc.Executed? || pc.Reporting?
  }

  predicate Creating(pc: Pc) {
    pc.Searching? || pc.Importing? || pc.ReadingBack? || pc.Executed?
  }

  /** A claim carries the row's own id, remote id and payload. */
  ghost predicate Genuine(rows: Rows, act: ClaimedAction) {
    act.id in rows && act.remoteId == RemoteId(act.id) && act.order == rows[act.id].payload
  }

  ghost predicate Closed(rows: Rows, id: Id) {
    id in rows && Final(rows[id].status)
  }

  predicate Used(s: Status) {
    Final(s) || s.AwaitingApproval? || s.Approved? || s.Queued? || s.Claimed? || s.RetryScheduled? || s.Cancelled?
  }

  ghost predicate RowsInv(t: Table<Order>) {
    TableOk(t) && forall id :: id in t.actions ==> t.actions[id].attempts <= MAX_CLAIMS && Used(t.actions[id].status)
  }

  /** At most one action is journalled, and it is still leased to this device or already reported. */
  ghost predicate JournalInv(j: Journal, rows: Rows) {
    && (forall a, b :: a in j.claims && b in j.claims ==> a == b)
    && (forall id :: id in j.claims ==>
                       j.claims[id].id == id && Genuine(rows, j.claims[id]) && (Leased(rows, id) || Closed(rows, id)))
    && j.results.Keys <= j.claims.Keys
  }

  ghost predicate PcInv(pc: Pc, j: Journal, rows: Rows) {
    && (pc.GotClaim? ==> j.claims == map[] && Genuine(rows, pc.act) && Leased(rows, pc.act.id))
    && (!pc.Idle? && !pc.GotClaim? ==>
          && pc.act.id in j.claims && j.claims[pc.act.id] == pc.act
          && (Busy(pc) ==> Leased(rows, pc.act.id))
          && (Creating(pc) ==> pc.act.id !in j.results)
          && (pc.Reporting? ==> pc.act.id in j.results && j.results[pc.act.id] == pc.result)
          && (pc.Reported? ==> Closed(rows, pc.act.id)))
  }

  /** A voucher with one of our remote ids belongs to an action that is journalled or reported. */
  ghost predicate Owned(v: Voucher, j: Journal, rows: Rows) {
    forall id :: v.remoteId == RemoteId(id) ==> id in j.claims || Closed(rows, id)
  }

  ghost predicate OwnedInv(company: map<nat, Voucher>, seen: set<Voucher>, j: Journal, rows: Rows) {
    forall slot :: slot in company ==> company[slot] in seen && Owned(company[slot], j, rows)
  }

  /** A read-back is of a voucher the company really held. */
  ghost predicate Observed(seen: set<Voucher>, r: Result) {
    r.Accepted? ==> r.readback.voucher in seen && Honest(r.readback)
  }

  /** A MATCHED verification of the action exists, of a voucher the company held. */
  ghost predicate Verified(checks: map<Id, seq<Check>>, seen: set<Voucher>, id: Id, order: Order) {
    exists c :: c in Checks(checks, id) && c.differences == {} && c.readback.voucher in seen && Honest(c.readback)
                && SameVoucher(order, c.readback, RemoteId(id))
  }

  ghost predicate ProofInv(rows: Rows, checks: map<Id, seq<Check>>, seen: set<Voucher>, j: Journal) {
    && (forall id :: id in j.results ==> Observed(seen, j.results[id]))
    && (forall id :: id in rows && rows[id].status == Succeeded ==> Verified(checks, seen, id, rows[id].payload))
  }

  /** What every event keeps, whatever people do to the dates of vouchers. */
  ghost predicate Base(w: World) {
    && RowsInv(w.table)
    && JournalInv(w.journal, w.table.actions)
    && PcInv(w.pc, w.journal, w.table.actions)
    && OwnedInv(w.company, w.seen, w.journal, w.table.actions)
    && ProofInv(w.table.actions, w.checks, w.seen, w.journal)
    && (w.pc.Executed? ==> Observed(w.seen, w.pc.result))
  }

  /** While a restart could still search for a voucher, it stands under the date the search will use. */
  ghost predicate Dated(v: Voucher, j: Journal) {
    forall id :: v.remoteId == RemoteId(id) && id in j.claims && id !in j.results ==> v.date == j.claims[id].order.date
  }

  ghost predicate DatedInv(company: map<nat, Voucher>, j: Journal) {
    forall slot :: slot in company ==> Dated(company[slot], j)
  }

  /** At most one voucher for each remote id of ours. */
  ghost predicate Unique(company: map<nat, Voucher>) {
    forall id, s, t :: (s in company && t in company
                        && company[s].remoteId == RemoteId(id) && company[t].remoteId == RemoteId(id)) ==> s == t
  }

  /** Results that report_result turns into FAILED. */
  predicate Failing(r: Result) {
    r.Rejected? || (r.Accepted? && r.guid == "")
  }

  /** Nothing was written, or else the export that decided was misread. */
  ghost predicate Clean(company: map<nat, Voucher>, misread: set<Id>, id: Id) {
    id in misread || !Present(company, RemoteId(id))
  }

  ghost predicate FailureInv(rows: Rows, j: Journal, company: map<nat, Voucher>, misread: set<Id>) {
    && (forall id :: id in j.results && Failing(j.results[id]) ==> Clean(company, misread, id))
    && (forall id :: id in rows && rows[id].status == Failed ==> Clean(company, misread, id))
  }

  ghost predicate HandInv(w: World) {
    && (w.pc.Importing? ==> !Present(w.company, w.pc.act.remoteId))
    && (w.pc.Executed? && Failing(w.pc.result) ==> Clean(w.company, w.misread, w.pc.act.id))
  }

  ghost predicate Books(w: World) {
    && DatedInv(w.company, w.journal)
    && Unique(w.company)
    && FailureInv(w.table.actions, w.journal, w.company, w.misread)
    && HandInv(w)
  }

  ghost predicate Inv(w: World) {
    Base(w) && Books(w)
  }

  lemma InitialInv(w: World)
    requires Initial(w)
    ensures Inv(w)
  {
  }

  /** Nobody changes the date of a voucher that the agent may still have to search for. */
  predicate Timely(w: World, e: Event) {
    e.UserEdits? && MayEdit(w, e.slot, e.v) && e.v.date != w.company[e.slot].date ==> !Unsettled(w.journal, e.v.remoteId)
  }

  // ---- steps that leave leased and reported rows alone ---------------------------------------------

  /** Payloads stay, reported rows do not change and no row becomes reported. */
  predicate KeepsClosed(a: Row, b: Row) {
    b.payload == a.payload && (Final(a.status) ==> b == a) && (Final(b.status) ==> Final(a.status))
  }

  /** In addition, a leased row stays leased. */
  predicate KeepsLease(a: Row, b: Row) {
    KeepsClosed(a, b) && (a.status == Claimed && a.lease.Some? ==> b.status == Claimed && b.lease.Some?)
  }

  ghost predicate Gentle(rows: Rows, rows': Rows) {
    && (forall id :: id in rows ==> id in rows' && KeepsClosed(rows[id], rows'[id]))
    && (forall id :: id in rows' && id !in rows ==> !Final(rows'[id].status))
  }

  ghost predicate Mild(rows: Rows, rows': Rows) {
    && Gentle(rows, rows')
    && (forall id :: id in rows ==> KeepsLease(rows[id], rows'[id]))
  }

  lemma GentleKeepsRecords(w: World, rows: Rows)
    requires Base(w) && Gentle(w.table.actions, rows)
    ensures OwnedInv(w.company, w.seen, w.journal, rows)
    ensures ProofInv(rows, w.checks, w.seen, w.journal)
  {
  }

  lemma GentleKeepsFailures(w: World, rows: Rows)
    requires Books(w) && Gentle(w.table.actions, rows)
    ensures FailureInv(rows, w.journal, w.company, w.misread)
  {
  }

  lemma MildKeeps(w: World, table: Table<Order>)
    requires Base(w) && RowsInv(table) && Mild(w.table.actions, table.actions)
    ensures Base(w.(table := table))
    ensures Books(w) ==> Books(w.(table := table))
  {
    GentleKeepsRecords(w, table.actions);
  }

  lemma EngineIsMild(t: Table<Order>, u: Table<Order>)
    requires RowsInv(t) && TableOk(u) && EngineStep(t, u)
    ensures RowsInv(u) && Mild(t.actions, u.actions)
  {
    forall id | id in t.actions
      ensures Used(u.actions[id].status) && KeepsLease(t.actions[id], u.actions[id])
    {
      MoveIsMild(t.actions[id], u.actions[id]);
    }
  }

  lemma MoveIsMild(a: Row, b: Row)
    requires EngineMove(a.status, b.status) && Used(a.status) && b.payload == a.payload
    requires b.status == a.status ==> b == a
    ensures Used(b.status) && KeepsLease(a, b)
  {
  }

  predicate EngineEvent(e: Event) {
    e.Propose? || e.Approve? || e.Enqueue? || e.Cancel?
  }

  lemma EngineEvents(w: World, e: Event)
    requires TableOk(w.table) && EngineEvent(e)
    ensures var t := Next(w, e).table; TableOk(t) && EngineStep(w.table, t) && Next(w, e) == w.(table := t)
  {
    match e {
      case Propose(id, key, order) => ProposeIsEngineStep(w.table, id, key, order);
      case Approve(id, reviewed) => ApproveIsEngineStep(w.table, id, reviewed);
      case Enqueue(id) => QueueIsEngineStep(w.table, id);
      case Cancel(id) => CancelIsEngineStep(w.table, id);
    }
  }

  lemma EngineKeeps(w: World, e: Event)
    requires Base(w) && EngineEvent(e)
    ensures Base(Next(w, e)) && (Books(w) ==> Books(Next(w, e)))
  {
    EngineEvents(w, e);
    EngineIsMild(w.table, Next(w, e).table);
    MildKeeps(w, Next(w, e).table);
  }

  lemma RenewIsMild(t: Table<Order>, id: Id, now: int)
    requires RowsInv(t)
    ensures var rows := RenewRows(t.actions, id, now); RowsInv(t.(actions := rows)) && Mild(t.actions, rows)
  {
    if Leased(t.actions, id) {
      assert KeepsLease(t.actions[id], t.actions[id].(lease := Some(now + LEASE_SECONDS)));
    }
  }

  lemma RenewKeeps(w: World, reached: bool, lost: bool)
    requires Base(w)
    ensures Base(RenewStep(w, reached, lost)) && (Books(w) ==> Books(RenewStep(w, reached, lost)))
  {
    if w.pc.Holding? && reached {
      var table := w.table.(actions := RenewRows(w.table.actions, w.pc.act.id, w.now));
      RenewIsMild(w.table, w.pc.act.id, w.now);
      MildKeeps(w, table);
      assert PcInv(RenewStep(w, reached, lost).pc, w.journal, table.actions);
    }
  }

  // ---- the claim transaction, which only runs while the journal is empty -----------------------------

  lemma ReleasedRow(a: Row, now: int)
    requires Bound(a) && Used(a.status)
    ensures var b := Release(Lapse(a, now));
      Bound(b) && Used(b.status) && b.attempts == a.attempts && KeepsClosed(a, b) && (a.status == Approved ==> b == a)
  {
  }

  lemma RequeueFacts(t: Table<Order>, now: int)
    requires RowsInv(t)
    ensures var rows := Requeue(t.actions, now); RowsInv(t.(actions := rows)) && Gentle(t.actions, rows)
  {
    forall id | id in t.actions
      ensures var b := Release(Lapse(t.actions[id], now));
        Bound(b) && Used(b.status) && b.attempts == t.actions[id].attempts && KeepsClosed(t.actions[id], b)
        && (t.actions[id].status == Approved ==> b == t.actions[id])
    {
      ReleasedRow(t.actions[id], now);
    }
  }

  lemma TakeKeepsRows(t: Table<Order>, ready: Rows, now: int, pick: Option<Id>, gate: bool)
    requires RowsInv(t) && RowsInv(t.(actions := ready))
    ensures RowsInv(t.(actions := Take(ready, t.actions, now, pick, gate).0))
  {
  }

  lemma TakeIsGentle(before: Rows, ready: Rows, now: int, pick: Option<Id>, gate: bool)
    requires Gentle(before, ready) && Gentle(before, before)
    ensures Gentle(before, Take(ready, before, now, pick, gate).0)
  {
  }

  lemma TakeReplies(before: Rows, ready: Rows, now: int, pick: Option<Id>, gate: bool)
    ensures var (rows, act) := Take(ready, before, now, pick, gate);
      act.Some? ==> Genuine(rows, act.value) && Leased(rows, act.value.id)
  {
  }

  lemma GentleReflexive(rows: Rows)
    ensures Gentle(rows, rows)
  {
  }

  lemma TakeFacts(t: Table<Order>, ready: Rows, now: int, pick: Option<Id>, gate: bool)
    requires RowsInv(t) && RowsInv(t.(actions := ready)) && Gentle(t.actions, ready)
    ensures var (rows, act) := Take(ready, t.actions, now, pick, gate);
      && RowsInv(t.(actions := rows)) && Gentle(t.actions, rows)
      && (act.Some? ==> Genuine(rows, act.value) && Leased(rows, act.value.id))
  {
    TakeKeepsRows(t, ready, now, pick, gate);
    GentleReflexive(t.actions);
    TakeIsGentle(t.actions, ready, now, pick, gate);
    TakeReplies(t.actions, ready, now, pick, gate);
  }

  lemma ClaimRowsFacts(t: Table<Order>, now: int, pick: Option<Id>, gate: bool)
    requires RowsInv(t)
    ensures var (rows, act) := ClaimRows(t.actions, now, pick, gate);
      && RowsInv(t.(actions := rows)) && Gentle(t.actions, rows)
      && (act.Some? ==> Genuine(rows, act.value) && Leased(rows, act.value.id))
  {
    RequeueFacts(t, now);
    TakeFacts(t, Requeue(t.actions, now), now, pick, gate);
  }

  lemma ClaimKeeps(w: World, pick: Option<Id>, gate: bool, lost: bool)
    requires Base(w)
    ensures Base(ClaimStep(w, pick, gate, lost))
  {
    if w.pc == Idle && w.journal.claims == map[] {
      ClaimRowsFacts(w.table, w.now, pick, gate);
      GentleKeepsRecords(w, ClaimRows(w.table.actions, w.now, pick, gate).0);
    }
  }

  lemma ClaimKeepsBooks(w: World, pick: Option<Id>, gate: bool, lost: bool)
    requires Inv(w)
    ensures Books(ClaimStep(w, pick, gate, lost))
  {
    if w.pc == Idle && w.journal.claims == map[] {
      ClaimRowsFacts(w.table, w.now, pick, gate);
      GentleKeepsFailures(w, ClaimRows(w.table.actions, w.now, pick, gate).0);
    }
  }

  // ---- agent steps ------------------------------------------------------------------------------------

  lemma PollKeeps(w: World)
    requires Base(w)
    ensures Base(PollStep(w)) && (Books(w) ==> Books(PollStep(w)))
  {
  }

  lemma SaveClaimKeeps(w: World)
    requires Base(w)
    ensures Base(SaveClaimStep(w))
  {
    if w.pc.GotClaim? {
      var w' := SaveClaimStep(w);
      forall slot | slot in w.company ensures Owned(w.company[slot], w'.journal, w.table.actions) {
        assert Owned(w.company[slot], w.journal, w.table.actions);
      }
    }
  }

  /** A leased action that is not journalled has no voucher yet, so nothing can stand under a wrong date. */
  lemma SaveClaimKeepsBooks(w: World)
    requires Inv(w)
    ensures Books(SaveClaimStep(w))
  {
    if w.pc.GotClaim? {
      var w' := SaveClaimStep(w);
      forall slot | slot in w.company ensures Dated(w.company[slot], w'.journal) {
        assert Owned(w.company[slot], w.journal, w.table.actions);
      }
    }
  }

  lemma LoadKeeps(w: World)
    requires Base(w)
    ensures Base(LoadStep(w)) && (Books(w) ==> Books(LoadStep(w)))
  {
  }

  /** A register export that shows no such voucher proves there is none: its date is the searched one. */
  lemma NotListedIsAbsent(w: World)
    requires Inv(w) && w.pc.Searching? && Find(w.company, w.pc.act.order.date, w.pc.act.remoteId) == None
    ensures !Present(w.company, w.pc.act.remoteId)
  {
    forall slot | slot in w.company ensures w.company[slot].remoteId != w.pc.act.remoteId {
      assert Dated(w.company[slot], w.journal);
      assert !Listing(w.company, w.pc.act.order.date, w.pc.act.remoteId, slot);
    }
  }

  lemma FindFinds(company: map<nat, Voucher>, date: string, remoteId: string)
    ensures Find(company, date, remoteId).Some? ==>
      exists slot :: Listing(company, date, remoteId, slot) && Find(company, date, remoteId) == Some(company[slot])
    ensures Find(company, date, remoteId).None? ==> forall slot :: !Listing(company, date, remoteId, slot)
  {
  }

  lemma LookedIsObserved(w: World, act: ClaimedAction, reply: ExportReply)
    requires OwnedInv(w.company, w.seen, w.journal, w.table.actions)
    ensures var r := Looked(w, act, reply); r.Some? ==> Observed(w.seen, r.value)
  {
    FindFinds(w.company, act.order.date, act.remoteId);
  }

  /** What an export makes of an action fails exactly when it was refused, or showed an empty GUID. */
  lemma LookedFails(w: World, act: ClaimedAction, reply: ExportReply)
    requires Looked(w, act, reply).Some?
    ensures var v := Find(w.company, act.order.date, act.remoteId);
      Failing(Looked(w, act, reply).value) <==> reply.ExportDenied? || (reply.Listed? && v.Some? && v.value.guid == "")
  {
  }

  lemma LookedIsClean(w: World, act: ClaimedAction, reply: ExportReply)
    requires act.remoteId == RemoteId(act.id) && Looked(w, act, reply).Some? && Failing(Looked(w, act, reply).value)
    ensures Clean(w.company, Noted(w, act, reply), act.id)
  {
    LookedFails(w, act, reply);
  }

  /** History only grows what counts as explained. */
  lemma MisreadGrows(w: World, misread: set<Id>)
    requires FailureInv(w.table.actions, w.journal, w.company, w.misread) && w.misread <= misread
    ensures FailureInv(w.table.actions, w.journal, w.company, misread)
  {
  }

  lemma SearchKeeps(w: World, reply: ExportReply)
    requires Base(w)
    ensures Base(SearchStep(w, reply))
  {
    if w.pc.Searching? {
      LookedIsObserved(w, w.pc.act, reply);
    }
  }

  lemma SearchKeepsBooks(w: World, reply: ExportReply)
    requires Inv(w)
    ensures Books(SearchStep(w, reply))
  {
    if w.pc.Searching? {
      MisreadGrows(w, Noted(w, w.pc.act, reply));
      if Looked(w, w.pc.act, reply).None? {
        NotListedIsAbsent(w);
      } else if Failing(Looked(w, w.pc.act, reply).value) {
        LookedIsClean(w, w.pc.act, reply);
      }
    }
  }

  lemma ReadBackKeeps(w: World, reply: ExportReply)
    requires Base(w)
    ensures Base(ReadBackStep(w, reply))
  {
    if w.pc.ReadingBack? {
      LookedIsObserved(w, w.pc.act, reply);
    }
  }

  lemma ReadBackKeepsBooks(w: World, reply: ExportReply)
    requires Inv(w)
    ensures Books(ReadBackStep(w, reply))
  {
    if w.pc.ReadingBack? {
      MisreadGrows(w, Noted(w, w.pc.act, reply));
      if Looked(w, w.pc.act, reply).Some? && Failing(Looked(w, w.pc.act, reply).value) {
        LookedIsClean(w, w.pc.act, reply);
      }
    }
  }

  lemma ImportKeeps(w: World, slot: nat, stored: Option<Voucher>, answer: ImportReply)
    requires Base(w)
    ensures Base(ImportStep(w, slot, stored, answer))
  {
    if w.pc.Importing? && slot !in w.company && stored.Some? && Imports(w.pc.act, stored.value) {
      StoringKeepsOwned(w, slot, stored.value);
      MoreSeen(w, w.seen + {stored.value});
    }
  }

  lemma StoredIsOwn(act: ClaimedAction, v: Voucher)
    requires act.remoteId == RemoteId(act.id) && Imports(act, v)
    ensures forall id :: v.remoteId == RemoteId(id) ==> id == act.id
  {
    forall id | v.remoteId == RemoteId(id) ensures id == act.id {
      RemoteIdsDiffer(id, act.id);
    }
  }

  lemma StoringKeepsOwned(w: World, slot: nat, v: Voucher)
    requires Base(w) && w.pc.Importing? && slot !in w.company && Imports(w.pc.act, v)
    ensures OwnedInv(w.company[slot := v], w.seen + {v}, w.journal, w.table.actions)
  {
    StoredIsOwn(w.pc.act, v);
    forall s | s in w.company ensures Owned(w.company[s], w.journal, w.table.actions) {}
  }

  lemma StoringKeepsBooks(w: World, slot: nat, v: Voucher)
    requires Inv(w) && w.pc.Importing? && slot !in w.company && Imports(w.pc.act, v)
    ensures DatedInv(w.company[slot := v], w.journal)
    ensures Unique(w.company[slot := v])
    ensures FailureInv(w.table.actions, w.journal, w.company[slot := v], w.misread)
  {
    var company := w.company[slot := v];
    StoredIsOwn(w.pc.act, v);
    forall s | s in company ensures Dated(company[s], w.journal) {
      if s != slot {
        assert Dated(w.company[s], w.journal);
      }
    }
    forall id | id != w.pc.act.id && Clean(w.company, w.misread, id) ensures Clean(company, w.misread, id) {
      RemoteIdsDiffer(id, w.pc.act.id);
    }
  }

  lemma ImportKeepsBooks(w: World, slot: nat, stored: Option<Voucher>, answer: ImportReply)
    requires Inv(w)
    ensures Books(ImportStep(w, slot, stored, answer))
  {
    if w.pc.Importing? && slot !in w.company && stored.Some? && Imports(w.pc.act, stored.value) {
      StoringKeepsBooks(w, slot, stored.value);
    }
  }

  lemma MoreSeen(w: World, seen: set<Voucher>)
    requires ProofInv(w.table.actions, w.checks, w.seen, w.journal) && w.seen <= seen
    ensures ProofInv(w.table.actions, w.checks, seen, w.journal)
  {
  }

  lemma SaveResultKeeps(w: World)
    requires Base(w)
    ensures Base(SaveResultStep(w))
  {
    if w.pc.Executed? {
      forall slot | slot in w.company ensures Owned(w.company[slot], SaveResultStep(w).journal, w.table.actions) {
        assert Owned(w.company[slot], w.journal, w.table.actions);
      }
    }
  }

  lemma SaveResultKeepsBooks(w: World)
    requires Inv(w)
    ensures Books(SaveResultStep(w))
  {
    if w.pc.Executed? {
      forall slot | slot in w.company ensures Dated(w.company[slot], SaveResultStep(w).journal) {
        assert Dated(w.company[slot], w.journal);
      }
    }
  }

  lemma ReplacedRow(t: Table<Order>, id: Id, b: Row)
    requires RowsInv(t) && id in t.actions && t.actions[id].status == Claimed
    requires Bound(b) && Used(b.status) && b.attempts <= MAX_CLAIMS
    ensures RowsInv(t.(actions := t.actions[id := b]))
  {
  }

  function Cleared(w: World): bool
    requires w.pc.Reporting? && w.pc.act.id in w.table.actions
  {
    !Unread(w.pc.result) && Differences(w.table.actions[w.pc.act.id].payload, w.pc.result, w.pc.act.id) == {}
  }

  /** A report touches one row, and only its status and lease. */
  lemma ReportRowsFacts(w: World)
    requires Base(w) && w.pc.Reporting?
    ensures var (rows, checks, ok) := ReportRows(w.table.actions, w.checks, w.pc.act.id, w.pc.result);
      && ok && RowsInv(w.table.(actions := rows))
      && rows == w.table.actions[w.pc.act.id :=
                   w.table.actions[w.pc.act.id].(status := Verdict(w.pc.result, Cleared(w)), lease := None)]
  {
    var id, r := w.pc.act.id, w.pc.result;
    var b := w.table.actions[id].(status := Verdict(r, Cleared(w)), lease := None);
    assert Bound(w.table.actions[id]);
    ReplacedRow(w.table, id, b);
  }

  lemma ReportVerifies(w: World)
    requires Base(w) && w.pc.Reporting?
    ensures var (rows, checks, ok) := ReportRows(w.table.actions, w.checks, w.pc.act.id, w.pc.result);
      ProofInv(rows, checks, w.seen, w.journal)
  {
    var id, r := w.pc.act.id, w.pc.result;
    var a := w.table.actions[id];
    var (rows, checks, ok) := ReportRows(w.table.actions, w.checks, id, r);
    ReportRowsFacts(w);
    forall b | b in rows && rows[b].status == Succeeded ensures Verified(checks, w.seen, b, rows[b].payload) {
      if b == id {
        var c := Check(r.readback, Differences(a.payload, r, id));
        assert Checks(checks, id)[|Checks(w.checks, id)|] == c;
        assert Mismatches(a.payload, r.readback, RemoteId(id)) == {};
        NoMismatchIffSameVoucher(a.payload, r.readback, RemoteId(id));
      } else {
        assert Verified(w.checks, w.seen, b, rows[b].payload);
        assert Checks(checks, b) == Checks(w.checks, b);
      }
    }
  }

  lemma ReportKeeps(w: World, reached: bool, lost: bool)
    requires Base(w)
    ensures Base(ReportStep(w, reached, lost))
  {
    if w.pc.Reporting? && reached {
      var id := w.pc.act.id;
      var (rows, checks, ok) := ReportRows(w.table.actions, w.checks, id, w.pc.result);
      ReportRowsFacts(w);
      ReportVerifies(w);
      forall slot | slot in w.company ensures Owned(w.company[slot], w.journal, rows) {
        assert Owned(w.company[slot], w.journal, w.table.actions);
      }
    }
  }

  lemma ReportKeepsBooks(w: World, reached: bool, lost: bool)
    requires Inv(w)
    ensures Books(ReportStep(w, reached, lost))
  {
    if w.pc.Reporting? && reached {
      ReportRowsFacts(w);
    }
  }

  lemma CompleteKeeps(w: World)
    requires Base(w)
    ensures Base(CompleteStep(w)) && (Books(w) ==> Books(CompleteStep(w)))
  {
  }

  // ---- people working in Tally --------------------------------------------------------------------------

  lemma AddKeeps(w: World, slot: nat, v: Voucher)
    requires Base(w) && MayAdd(w, slot, v)
    ensures var u := w.(company := w.company[slot := v], seen := w.seen + {v}); Base(u) && (Books(w) ==> Books(u))
  {
    OursHaveIds(v.remoteId);
    MoreSeen(w, w.seen + {v});
    forall s | s in w.company ensures Owned(w.company[s], w.journal, w.table.actions) {}
    forall id ensures Present(w.company[slot := v], RemoteId(id)) ==> Present(w.company, RemoteId(id)) {}
  }

  lemma EditKeeps(w: World, slot: nat, v: Voucher)
    requires Base(w) && MayEdit(w, slot, v)
    ensures Base(w.(company := w.company[slot := v], seen := w.seen + {v}))
  {
    MoreSeen(w, w.seen + {v});
    assert Owned(w.company[slot], w.journal, w.table.actions);
  }

  lemma EditKeepsBooks(w: World, slot: nat, v: Voucher)
    requires Inv(w) && MayEdit(w, slot, v) && Timely(w, UserEdits(slot, v))
    ensures Books(w.(company := w.company[slot := v], seen := w.seen + {v}))
  {
    var company := w.company[slot := v];
    forall s | s in company ensures Dated(company[s], w.journal) {
      assert Dated(w.company[s], w.journal);
    }
    forall remoteId ensures Present(company, remoteId) ==> Present(w.company, remoteId) {}
  }

  lemma DeleteKeeps(w: World, slot: nat)
    requires Base(w)
    ensures var u := w.(company := w.company - {slot}); Base(u) && (Books(w) ==> Books(u))
  {
  }

  // ---- every run ------------------------------------------------------------------------------------------

  predicate UserEvent(e: Event) {
    e.UserAdds? || e.UserEdits? || e.UserDeletes? || e.Clock? || e.Crash?
  }

  predicate JournalEvent(e: Event) {
    e.SaveClaim? || e.LoadResult? || e.SaveResult? || e.Complete? || e.Poll?
  }

  lemma AddNextKeeps(w: World, e: Event)
    requires Base(w) && e.UserAdds?
    ensures Base(Next(w, e)) && (Books(w) ==> Books(Next(w, e)))
  {
    if MayAdd(w, e.slot, e.v) {
      AddKeeps(w, e.slot, e.v);
    }
  }

  lemma EditNextKeeps(w: World, e: Event)
    requires Base(w) && e.UserEdits?
    ensures Base(Next(w, e)) && (Books(w) && Timely(w, e) ==> Books(Next(w, e)))
  {
    if MayEdit(w, e.slot, e.v) {
      EditKeeps(w, e.slot, e.v);
      if Books(w) && Timely(w, e) {
        EditKeepsBooks(w, e.slot, e.v);
      }
    }
  }

  lemma ClockKeeps(w: World, now: int)
    requires Base(w)
    ensures Base(w.(now := now)) && (Books(w) ==> Books(w.(now := now)))
  {
  }

  lemma CrashKeeps(w: World)
    requires Base(w)
    ensures Base(w.(pc := Idle)) && (Books(w) ==> Books(w.(pc := Idle)))
  {
  }

  lemma IdleKeeps(w: World, e: Event)
    requires Base(w) && (e.Clock? || e.Crash?)
    ensures Base(Next(w, e)) && (Books(w) ==> Books(Next(w, e)))
  {
    if e.Clock? {
      ClockKeeps(w, w.now + e.seconds);
    } else {
      CrashKeeps(w);
    }
  }

  lemma DeleteNextKeeps(w: World, e: Event)
    requires Base(w) && e.UserDeletes?
    ensures Base(Next(w, e)) && (Books(w) ==> Books(Next(w, e)))
  {
    DeleteKeeps(w, e.slot);
  }

  lemma UserNextKeeps(w: World, e: Event)
    requires Base(w) && UserEvent(e)
    ensures Base(Next(w, e)) && (Books(w) && Timely(w, e) ==> Books(Next(w, e)))
  {
    if e.UserAdds? {
      AddNextKeeps(w, e);
    } else if e.UserEdits? {
      EditNextKeeps(w, e);
    } else if e.UserDeletes? {
      DeleteNextKeeps(w, e);
    } else {
      IdleKeeps(w, e);
    }
  }

  lemma ResumeNextKeeps(w: World, e: Event)
    requires Base(w) && (e.Poll? || e.LoadResult?)
    ensures Base(Next(w, e)) && (Books(w) ==> Books(Next(w, e)))
  {
    match e {
      case Poll => PollKeeps(w);
      case LoadResult => LoadKeeps(w);
    }
  }

  lemma StoreNextKeeps(w: World, e: Event)
    requires Base(w) && (e.SaveClaim? || e.SaveResult? || e.Complete?)
    ensures Base(Next(w, e))
  {
    match e {
      case SaveClaim => SaveClaimKeeps(w);
      case SaveResult => SaveResultKeeps(w);
      case Complete => CompleteKeeps(w);
    }
  }

  lemma StoreNextKeepsBooks(w: World, e: Event)
    requires Inv(w) && (e.SaveClaim? || e.SaveResult? || e.Complete?)
    ensures Books(Next(w, e))
  {
    match e {
      case SaveClaim => SaveClaimKeepsBooks(w);
      case SaveResult => SaveResultKeepsBooks(w);
      case Complete => CompleteKeeps(w);
    }
  }

  lemma JournalNextKeeps(w: World, e: Event)
    requires Base(w) && JournalEvent(e)
    ensures Base(Next(w, e))
  {
    if e.Poll? || e.LoadResult? {
      ResumeNextKeeps(w, e);
    } else {
      StoreNextKeeps(w, e);
    }
  }

  lemma JournalNextKeepsBooks(w: World, e: Event)
    requires Inv(w) && JournalEvent(e)
    ensures Books(Next(w, e))
  {
    if e.Poll? || e.LoadResult? {
      ResumeNextKeeps(w, e);
    } else {
      StoreNextKeepsBooks(w, e);
    }
  }

  lemma RemoteNextKeeps(w: World, e: Event)
    requires Base(w) && !EngineEvent(e) && !UserEvent(e) && !JournalEvent(e)
    ensures Base(Next(w, e))
  {
    match e {
      case Claim(pick, gate, lost) => ClaimKeeps(w, pick, gate, lost);
      case Renew(reached, lost) => RenewKeeps(w, reached, lost);
      case Search(reply) => SearchKeeps(w, reply);
      case Import(slot, stored, answer) => ImportKeeps(w, slot, stored, answer);
      case ReadBack(reply) => ReadBackKeeps(w, reply);
      case Report(reached, lost) => ReportKeeps(w, reached, lost);
    }
  }

  lemma RemoteNextKeepsBooks(w: World, e: Event)
    requires Inv(w) && !EngineEvent(e) && !UserEvent(e) && !JournalEvent(e)
    ensures Books(Next(w, e))
  {
    match e {
      case Claim(pick, gate, lost) => ClaimKeepsBooks(w, pick, gate, lost);
      case Renew(reached, lost) => RenewKeeps(w, reached, lost);
      case Search(reply) => SearchKeepsBooks(w, reply);
      case Import(slot, stored, answer) => ImportKeepsBooks(w, slot, stored, answer);
      case ReadBack(reply) => ReadBackKeepsBooks(w, reply);
      case Report(reached, lost) => ReportKeepsBooks(w, reached, lost);
    }
  }

  /** Every event keeps what concerns rows, journal and proofs. */
  lemma NextKeepsBase(w: World, e: Event)
    requires Base(w)
    ensures Base(Next(w, e))
  {
    if EngineEvent(e) {
      EngineKeeps(w, e);
    } else if UserEvent(e) {
      UserNextKeeps(w, e);
    } else if JournalEvent(e) {
      JournalNextKeeps(w, e);
    } else {
      RemoteNextKeeps(w, e);
    }
  }

  /** Every event but an untimely change of date keeps the books too. */
  lemma NextKeeps(w: World, e: Event)
    requires Inv(w) && Timely(w, e)
    ensures Inv(Next(w, e))
  {
    NextKeepsBase(w, e);
    if EngineEvent(e) {
      EngineKeeps(w, e);
    } else if UserEvent(e) {
      UserNextKeeps(w, e);
    } else if JournalEvent(e) {
      JournalNextKeepsBooks(w, e);
    } else {
      RemoteNextKeepsBooks(w, e);
    }
  }

  lemma {:induction false} RunKeepsBase(w: World, events: seq<Event>)
    requires Base(w)
    ensures Base(Run(w, events))
    decreases |events|
  {
    if events != [] {
      NextKeepsBase(w, events[0]);
      RunKeepsBase(Next(w, events[0]), events[1..]);
    }
  }

  /** No voucher is re-dated at an untimely moment of the run. */
  ghost predicate TimelyRun(w: World, events: seq<Event>)
    decreases |events|
  {
    events == [] || (Timely(w, events[0]) && TimelyRun(Next(w, events[0]), events[1..]))
  }

  lemma {:induction false} RunKeeps(w: World, events: seq<Event>)
    requires Inv(w) && TimelyRun(w, events)
    ensures Inv(Run(w, events))
    decreases |events|
  {
    if events != [] {
      NextKeeps(w, events[0]);
      RunKeeps(Next(w, events[0]), events[1..]);
    }
  }

  lemma ReachableBase(w: World, events: seq<Event>)
    requires Initial(w)
    ensures Base(Run(w, events))
  {
    InitialInv(w);
    RunKeepsBase(w, events);
  }

  lemma ReachableInv(w: World, events: seq<Event>)
    requires Initial(w) && TimelyRun(w, events)
    ensures Inv(Run(w, events))
  {
    InitialInv(w);
    RunKeeps(w, events);
  }

  /** Exactly once: whatever crashed or was lost, the company holds at most one voucher for an action. */
  lemma AtMostOneVoucherPerAction(w: World, events: seq<Event>, id: Id, s: nat, t: nat)
    requires Initial(w) && TimelyRun(w, events)
    requires var c := Run(w, events).company;
      s in c && t in c && c[s].remoteId == RemoteId(id) && c[t].remoteId == RemoteId(id)
    ensures s == t
  {
    ReachableInv(w, events);
  }

  /** One journal entry at a time; the cloud never takes a journalled action away; three claims at most. */
  lemma JournalHoldsOneLeasedAction(w: World, events: seq<Event>)
    requires Initial(w)
    ensures var u := Run(w, events);
      && (forall a, b :: a in u.journal.claims && b in u.journal.claims ==> a == b)
      && (forall id :: id in u.journal.claims ==> Leased(u.table.actions, id) || Closed(u.table.actions, id))
      && (forall id :: id in u.table.actions ==> u.table.actions[id].attempts <= MAX_CLAIMS)
  {
    ReachableBase(w, events);
  }

  /** A claim call that takes a leased row back, by expiry, only ever takes one that was never imported. */
  lemma ExpiryOnlyHitsUnimported(w: World, events: seq<Event>, pick: Option<Id>, gate: bool, lost: bool, id: Id)
    requires Initial(w)
    requires var u := Run(w, events);
      id in u.table.actions && u.table.actions[id].status == Claimed
      && Next(u, Claim(pick, gate, lost)).table.actions[id] != u.table.actions[id]
    ensures !Present(Run(w, events).company, RemoteId(id))
  {
    ReachableBase(w, events);
    var u := Run(w, events);
    assert Next(u, Claim(pick, gate, lost)) == ClaimStep(u, pick, gate, lost);
    assert u.journal.claims == map[];
    forall slot | slot in u.company ensures u.company[slot].remoteId != RemoteId(id) {
      assert Owned(u.company[slot], u.journal, u.table.actions);
    }
  }

  /** A cancelled action wrote nothing, and neither did one that is waiting to be claimed. */
  lemma UnclaimedActionHasNoVoucher(w: World, events: seq<Event>, id: Id)
    requires Initial(w)
    requires var rows := Run(w, events).table.actions;
      id in rows && !Final(rows[id].status) && rows[id].status != Claimed
    ensures !Present(Run(w, events).company, RemoteId(id))
  {
    ReachableBase(w, events);
    var u := Run(w, events);
    forall slot | slot in u.company ensures u.company[slot].remoteId != RemoteId(id) {
      assert Owned(u.company[slot], u.journal, u.table.actions);
    }
  }

  /** Nothing unapproved is claimed, and success means the approved voucher was read back from the books. */
  lemma SucceededMeansApprovedAndVerified(w: World, events: seq<Event>, id: Id)
    requires Initial(w) && id in Run(w, events).table.actions
    ensures var u := Run(w, events);
      var a := u.table.actions[id];
      && (PastApproval(a.status) ==> a.approvedHash == Some(Digest(a.payload)))
      && (a.status == Succeeded ==> Verified(u.checks, u.seen, id, a.payload))
  {
    ReachableBase(w, events);
  }

  /** Only an order whose total is its largest leg ever succeeds, however valid the others are. */
  lemma SucceededMeansLargestLeg(w: World, events: seq<Event>, id: Id)
    requires Initial(w) && id in Run(w, events).table.actions && Run(w, events).table.actions[id].status == Succeeded
    ensures var order := Run(w, events).table.actions[id].payload; VoucherTotal(order.entries) == order.total
  {
    SucceededMeansApprovedAndVerified(w, events, id);
    var u := Run(w, events);
    var order := u.table.actions[id].payload;
    var c :| c in Checks(u.checks, id) && Honest(c.readback) && SameVoucher(order, c.readback, RemoteId(id));
    VerifiedTotalIsLargestLeg(order, c.readback, RemoteId(id));
  }

  // ---- FAILED, and what is in the books -----------------------------------------------------------------

  /** The three steps that end an execution: save, report, and whether the reply comes back. */
  ghost function Closing(w: World, lost: bool): World {
    ReportStep(SaveResultStep(w), true, lost)
  }

  /** Every misread action has its voucher in the books. */
  ghost predicate MisreadInv(w: World) {
    forall id :: id in w.misread ==> Present(w.company, RemoteId(id))
  }

  lemma MisreadIsPresent(w: World, act: ClaimedAction, reply: ExportReply)
    requires act.remoteId == RemoteId(act.id) && MisreadInv(w)
    ensures forall id :: id in Noted(w, act, reply) ==> Present(w.company, RemoteId(id))
  {
    if Misreads(w, act, reply) {
      FindFinds(w.company, act.order.date, act.remoteId);
    }
  }

  lemma MoreIsPresent(company: map<nat, Voucher>, slot: nat, v: Voucher)
    requires slot in company ==> v.remoteId == company[slot].remoteId
    ensures forall remoteId :: Present(company, remoteId) ==> Present(company[slot := v], remoteId)
  {
    forall remoteId | Present(company, remoteId) ensures Present(company[slot := v], remoteId) {
      var s :| s in company && company[s].remoteId == remoteId;
      assert company[slot := v][s].remoteId == remoteId;
    }
  }

  lemma LooksKeepMisread(w: World, e: Event)
    requires Base(w) && MisreadInv(w) && (e.Search? || e.ReadBack?)
    ensures MisreadInv(Next(w, e))
  {
    if w.pc.Searching? || w.pc.ReadingBack? {
      MisreadIsPresent(w, w.pc.act, e.reply);
    }
  }

  lemma ImportKeepsMisread(w: World, slot: nat, stored: Option<Voucher>, answer: ImportReply)
    requires MisreadInv(w)
    ensures MisreadInv(ImportStep(w, slot, stored, answer))
  {
    if stored.Some? && slot !in w.company {
      MoreIsPresent(w.company, slot, stored.value);
    }
  }

  lemma UserKeepsMisread(w: World, e: Event)
    requires MisreadInv(w) && (e.UserAdds? || e.UserEdits?)
    ensures MisreadInv(UserStep(w, e))
  {
    if e.UserAdds? && MayAdd(w, e.slot, e.v) {
      MoreIsPresent(w.company, e.slot, e.v);
    } else if e.UserEdits? && MayEdit(w, e.slot, e.v) {
      MoreIsPresent(w.company, e.slot, e.v);
    }
  }

  lemma RestKeepsBooks(w: World, e: Event)
    requires !e.Search? && !e.ReadBack? && !e.Import? && !e.UserAdds? && !e.UserEdits? && !e.UserDeletes?
    ensures Next(w, e).company == w.company && Next(w, e).misread == w.misread
  {
  }

  lemma NextKeepsMisread(w: World, e: Event)
    requires Base(w) && MisreadInv(w) && !e.UserDeletes?
    ensures MisreadInv(Next(w, e))
  {
    if e.Search? || e.ReadBack? {
      LooksKeepMisread(w, e);
    } else if e.Import? {
      ImportKeepsMisread(w, e.slot, e.stored, e.answer);
    } else if e.UserAdds? || e.UserEdits? {
      UserKeepsMisread(w, e);
    } else {
      RestKeepsBooks(w, e);
    }
  }

  predicate NothingDeleted(events: seq<Event>) {
    forall i :: 0 <= i < |events| ==> !events[i].UserDeletes?
  }

  lemma {:induction false} RunKeepsMisread(w: World, events: seq<Event>)
    requires Base(w) && MisreadInv(w) && NothingDeleted(events)
    ensures MisreadInv(Run(w, events))
    decreases |events|
  {
    if events != [] {
      NextKeepsBase(w, events[0]);
      NextKeepsMisread(w, events[0]);
      RunKeepsMisread(Next(w, events[0]), events[1..]);
    }
  }

  /** FAILED means that nothing was written, unless an export was misread. */
  lemma FailedMeansUnwrittenUnlessMisread(w: World, events: seq<Event>, id: Id)
    requires Initial(w) && TimelyRun(w, events)
    requires var u := Run(w, events);
      id in u.table.actions && u.table.actions[id].status == Failed && id !in u.misread
    ensures !Present(Run(w, events).company, RemoteId(id))
  {
    ReachableInv(w, events);
    assert Clean(Run(w, events).company, Run(w, events).misread, id);
  }

  /** As long as nobody deletes vouchers, a FAILED action has its voucher in the books exactly when an export
      that looked for it was refused, or showed it without a GUID, while it stood there. */
  lemma FailedWithVoucherIffMisread(w: World, events: seq<Event>, id: Id)
    requires Initial(w) && TimelyRun(w, events) && NothingDeleted(events)
    requires var u := Run(w, events); id in u.table.actions && u.table.actions[id].status == Failed
    ensures var u := Run(w, events); Present(u.company, RemoteId(id)) <==> id in u.misread
  {
    InitialInv(w);
    RunKeepsMisread(w, events);
    if id !in Run(w, events).misread {
      FailedMeansUnwrittenUnlessMisread(w, events, id);
    }
  }
}
