/** Where a Tally action ends: what a report, a read-back, a search and an import lead to. */
module TallyOutcomes {
  import opened Options
  import opened FinanceActions
  import opened Canonical
  import opened TallyWrite
  import opened TallySafety
  import opened TallyRuns

  // ---- one report ------------------------------------------------------------------------------------------

  /** The read-back is the approved voucher, under the GUID that is reported. */
  ghost predicate Approves(order: Order, r: Result, id: Id)
    requires r.Accepted?
  {
    SameVoucher(order, r.readback, RemoteId(id)) && r.readback.voucher.guid == r.guid
  }

  lemma NoDifferenceIff(order: Order, r: Result, id: Id)
    requires r.Accepted?
    ensures Differences(order, r, id) == {} <==> Approves(order, r, id)
  {
    NoMismatchIffSameVoucher(order, r.readback, RemoteId(id));
  }

  /** Rejected is FAILED, unverified is NEEDS_REVIEW; an accepted voucher without a GUID is FAILED, and with one it
      SUCCEEDS exactly when the read-back is the approved voucher, which goes on record as a check. */
  lemma ReportDecides(rows: Rows, checks: map<Id, seq<Check>>, id: Id, r: Result)
    requires Leased(rows, id)
    ensures var (rows', checks', ok) := ReportRows(rows, checks, id, r);
      && ok && rows'.Keys == rows.Keys && (forall k :: k in rows && k != id ==> rows'[k] == rows[k])
      && rows'[id] == rows[id].(status := rows'[id].status, lease := None)
      && (r.Rejected? ==> rows'[id].status == Failed)
      && (r.Unverified? ==> rows'[id].status == NeedsReview)
      && (r.Accepted? && r.guid == "" ==> rows'[id].status == Failed)
      && (r.Accepted? && r.guid != "" ==>
            && (Approves(rows[id].payload, r, id) ==> rows'[id].status == Succeeded)
            && (!Approves(rows[id].payload, r, id) ==> rows'[id].status == NeedsReview))
  {
    if r.Accepted? {
      NoDifferenceIff(rows[id].payload, r, id);
    }
  }

  lemma ReportRecords(rows: Rows, checks: map<Id, seq<Check>>, id: Id, r: Result)
    requires Leased(rows, id)
    ensures var (rows', checks', ok) := ReportRows(rows, checks, id, r);
      && (forall k :: k != id ==> Checks(checks', k) == Checks(checks, k))
      && (!r.Accepted? || r.guid == "" ==> checks' == checks)
      && (r.Accepted? && r.guid != "" ==>
            exists c :: Checks(checks', id) == Checks(checks, id) + [c] && c.readback == r.readback
                        && (c.differences == {} <==> rows'[id].status == Succeeded))
  {
    if r.Accepted? && r.guid != "" {
      var c := Check(r.readback, Differences(rows[id].payload, r, id));
      assert Checks(ReportRows(rows, checks, id, r).1, id) == Checks(checks, id) + [c];
    }
  }

  // ---- one execution ---------------------------------------------------------------------------------------

  /** The voucher carries a GUID and is the one the order asks for, its total worked out from its legs. */
  ghost predicate Confirmed(order: Order, v: Voucher, id: Id) {
    v.guid != "" && SameVoucher(order, Readback(v, VoucherTotal(v.entries), order.companyGuid), RemoteId(id))
  }

  /** Where the action of an executed result ends, once it is saved and reported. */
  lemma ExecutionDecides(w: World, lost: bool)
    requires Base(w) && w.pc.Executed?
    ensures var u := Closing(w, lost);
      var act, r := w.pc.act, w.pc.result;
      && u.company == w.company && act.id in u.table.actions && u.table.actions[act.id].payload == act.order
      && (r.Rejected? ==> u.table.actions[act.id].status == Failed)
      && (r.Unverified? ==> u.table.actions[act.id].status == NeedsReview)
      && (r.Accepted? && r.guid == "" ==> u.table.actions[act.id].status == Failed)
      && (r.Accepted? && r.guid != "" ==>
            && (Approves(act.order, r, act.id) ==> u.table.actions[act.id].status == Succeeded)
            && (!Approves(act.order, r, act.id) ==> u.table.actions[act.id].status == NeedsReview))
  {
    SaveResultKeeps(w);
    ReportDecides(w.table.actions, w.checks, w.pc.act.id, w.pc.result);
    assert Genuine(w.table.actions, w.pc.act);
  }

  lemma LookedTells(w: World, act: ClaimedAction, reply: ExportReply)
    ensures var v := Find(w.company, act.order.date, act.remoteId);
      && (reply.ExportDenied? ==> Looked(w, act, reply) == Some(Rejected))
      && (reply.ExportBroken? ==> Looked(w, act, reply) == Some(Unverified))
      && (reply.Listed? && v.None? ==> Looked(w, act, reply) == None)
      && (reply.Listed? && v.Some? ==> Looked(w, act, reply) == Some(Success(v.value, act.order.companyGuid)))
  {
  }

  lemma SuccessApproves(order: Order, v: Voucher, id: Id)
    requires v.guid != ""
    ensures Approves(order, Success(v, order.companyGuid), id) <==> Confirmed(order, v, id)
  {
  }

  /** What the register shows decides: no GUID is FAILED, the approved voucher SUCCEEDS, any other is reviewed. */
  lemma ShownDecides(w: World, act: ClaimedAction, v: Voucher, lost: bool)
    requires Base(w) && w.pc == Executed(act, Success(v, act.order.companyGuid))
    ensures var u := Closing(w, lost);
      && u.company == w.company && act.id in u.table.actions
      && u.table.actions[act.id].status ==
           if v.guid == "" then Failed else if Confirmed(act.order, v, act.id) then Succeeded else NeedsReview
  {
    ExecutionDecides(w, lost);
    if v.guid != "" {
      SuccessApproves(act.order, v, act.id);
    }
  }

  lemma FailureDecides(w: World, act: ClaimedAction, r: Result, lost: bool)
    requires Base(w) && w.pc == Executed(act, r) && !r.Accepted?
    ensures var u := Closing(w, lost);
      && u.company == w.company && act.id in u.table.actions
      && u.table.actions[act.id].status == if r.Rejected? then Failed else NeedsReview
  {
    ExecutionDecides(w, lost);
  }

  /** After an import the read-back decides: refused with 401 or 403 it is FAILED, broken or without the voucher it is
      reviewed; the voucher it shows decides otherwise.  The books keep what was imported. */
  lemma ReadBackDecides(w: World, reply: ExportReply, lost: bool)
    requires Base(w) && w.pc.ReadingBack?
    ensures var u := Closing(ReadBackStep(w, reply), lost);
      var act := w.pc.act;
      var v := Find(w.company, act.order.date, act.remoteId);
      && u.company == w.company && act.id in u.table.actions
      && u.table.actions[act.id].status ==
           if reply.ExportDenied? then Failed
           else if reply.ExportBroken? || v.None? then NeedsReview
           else if v.value.guid == "" then Failed
           else if Confirmed(act.order, v.value, act.id) then Succeeded else NeedsReview
  {
    var act := w.pc.act;
    var v := Find(w.company, act.order.date, act.remoteId);
    LookedTells(w, act, reply);
    ReadBackKeeps(w, reply);
    if reply.Listed? && v.Some? {
      ShownDecides(ReadBackStep(w, reply), act, v.value, lost);
    } else {
      FailureDecides(ReadBackStep(w, reply), act, if reply.ExportDenied? then Rejected else Unverified, lost);
    }
  }

  /** The same of a search for a voucher that an earlier, interrupted execution left in the books. */
  lemma SearchDecides(w: World, reply: ExportReply, lost: bool)
    requires Inv(w) && w.pc.Searching? && Present(w.company, w.pc.act.remoteId)
    ensures var u := Closing(SearchStep(w, reply), lost);
      var act := w.pc.act;
      var v := Find(w.company, act.order.date, act.remoteId);
      && u.company == w.company && act.id in u.table.actions && v.Some?
      && u.table.actions[act.id].status ==
           if reply.ExportDenied? then Failed
           else if reply.ExportBroken? then NeedsReview
           else if v.value.guid == "" then Failed
           else if Confirmed(act.order, v.value, act.id) then Succeeded else NeedsReview
  {
    var act := w.pc.act;
    var v := Find(w.company, act.order.date, act.remoteId);
    if v.None? {
      NotListedIsAbsent(w);
    }
    LookedTells(w, act, reply);
    SearchKeeps(w, reply);
    if reply.Listed? {
      ShownDecides(SearchStep(w, reply), act, v.value, lost);
    } else {
      FailureDecides(SearchStep(w, reply), act, if reply.ExportDenied? then Rejected else Unverified, lost);
    }
  }

  /** Only a search that lists nothing is followed by an import. */
  lemma ImportFollowsEmptySearch(w: World, reply: ExportReply)
    requires Inv(w) && w.pc.Searching?
    ensures SearchStep(w, reply).pc.Importing? <==> reply.Listed? && !Present(w.company, w.pc.act.remoteId)
  {
    var act := w.pc.act;
    LookedTells(w, act, reply);
    FindFinds(w.company, act.order.date, act.remoteId);
    if Find(w.company, act.order.date, act.remoteId).None? {
      NotListedIsAbsent(w);
    }
  }

  /** An import that is not answered with `created` ends the execution: FAILED when Tally complains or refuses, which
      an honest Tally does without writing, and NEEDS_REVIEW when the answer is unclear. */
  lemma ImportDecides(w: World, slot: nat, stored: Option<Voucher>, answer: ImportReply, lost: bool)
    requires Base(w) && w.pc.Importing? && slot !in w.company && HonestImport(stored.Some?, answer)
    requires stored.Some? ==> Imports(w.pc.act, stored.value)
    ensures var v := ImportStep(w, slot, stored, answer);
      var act := w.pc.act;
      && v.company == (if stored.Some? then w.company[slot := stored.value] else w.company)
      && (answer.Created? ==> v.pc == ReadingBack(act))
      && (!answer.Created? ==>
            && act.id in Closing(v, lost).table.actions
            && Closing(v, lost).table.actions[act.id].status == if answer.ImportUnclear? then NeedsReview else Failed)
  {
    ImportKeeps(w, slot, stored, answer);
    if !answer.Created? {
      FailureDecides(ImportStep(w, slot, stored, answer), w.pc.act, ImportFailure(answer), lost);
    }
  }

  // ---- one claim ---------------------------------------------------------------------------------------------

  /** Queued, waiting for a retry, or held by a device whose lease has run out; and claimed less than three times. */
  predicate Takeable(a: Row, now: int) {
    && a.attempts < 3
    && (a.status.Queued? || a.status.RetryScheduled? || (a.status.Claimed? && a.lease.Some? && a.lease.value < now))
  }

  lemma TakeableRow(a: Row, now: int)
    ensures Claimable(Release(Lapse(a, now))) <==> Takeable(a, now)
  {
  }

  /** The claim takes a row exactly when it may be taken, the gate is open and its payload is valid; it then holds the
      row for ninety seconds and counts the claim. */
  lemma ClaimDecides(rows: Rows, now: int, id: Id, gate: bool)
    ensures var (rows', act) := ClaimRows(rows, now, Some(id), gate);
      && (act.Some? <==> id in rows && Takeable(rows[id], now) && gate && Valid(rows[id].payload))
      && (act.None? ==> rows' == rows)
      && (act.Some? ==>
            && act.value == ClaimedAction(id, RemoteId(id), rows[id].payload) && id in rows'
            && rows'[id] == rows[id].(status := Claimed, lease := Some(now + 90), attempts := rows[id].attempts + 1))
  {
    if id in rows {
      TakeableRow(rows[id], now);
    }
  }

  /** Of the other rows it only lets go of lapsed leases, and queues what may be tried again. */
  lemma ClaimLeavesOthers(rows: Rows, now: int, pick: Option<Id>, gate: bool, k: Id)
    requires k in rows && pick != Some(k)
    ensures var a, rows' := rows[k], ClaimRows(rows, now, pick, gate).0;
      && k in rows'
      && rows'[k].payload == a.payload && rows'[k].attempts == a.attempts
      && (rows'[k] != a ==> a.status.RetryScheduled? || (a.status.Claimed? && a.lease.Some? && a.lease.value < now))
      && (rows'[k] != a ==> rows'[k].status == if a.attempts < 3 then Queued else RetryScheduled)
  {
  }

  /** A claim or a renewal keeps every other claim away for ninety seconds. */
  lemma LeaseProtects(rows: Rows, id: Id, now: int, later: int, pick: Option<Id>, gate: bool)
    requires Leased(rows, id) && later <= now + 90
    ensures var held := RenewRows(rows, id, now);
      var (rows', act) := ClaimRows(held, later, pick, gate);
      id in rows' && rows'[id] == held[id] && (act.Some? ==> act.value.id != id)
      && held[id].lease == Some(now + 90)
  {
    if pick.Some? {
      ClaimDecides(RenewRows(rows, id, now), later, pick.value, gate);
    }
  }

  // ---- one run that succeeds ------------------------------------------------------------------------------------

  lemma SampleConfirmed(order: Order, v: Voucher)
    requires order == SAMPLE && v == STORED
    ensures Confirmed(order, v, "1")
  {
    assert VoucherTotal(SAMPLE.entries) == 11800 by {
      assert SAMPLE.entries[1..] == [Entry("P", -11800)] && SAMPLE.entries[1..][1..] == [];
    }
  }

  lemma SampleFound(company: map<nat, Voucher>, slot: nat)
    requires slot in company && company[slot] == STORED
    requires forall s :: s in company && s != slot ==> company[s].remoteId != RemoteId("1")
    ensures Find(company, SAMPLE.date, RemoteId("1")) == Some(STORED)
  {
    assert Listing(company, SAMPLE.date, RemoteId("1"), slot);
    FindFinds(company, SAMPLE.date, RemoteId("1"));
  }

  lemma ClosingSteps(u: World, reply: ExportReply, lost: bool)
    ensures Run(u, [ReadBack(reply), SaveResult, Report(true, lost)]) == Closing(ReadBackStep(u, reply), lost)
  {
    ThreeSteps(u, ReadBack(reply), SaveResult, Report(true, lost));
  }

  lemma ConfirmedSucceeds(u: World, act: ClaimedAction, v: Voucher, lost: bool)
    requires Base(u) && u.pc == ReadingBack(act) && Find(u.company, act.order.date, act.remoteId) == Some(v)
    requires Confirmed(act.order, v, act.id)
    ensures var t := Run(u, [ReadBack(Listed), SaveResult, Report(true, lost)]);
      act.id in t.table.actions && t.table.actions[act.id].status == Succeeded && t.company == u.company
  {
    ClosingSteps(u, Listed, lost);
    ReadBackDecides(u, Listed, lost);
  }

  lemma SampleSearchAndImport(u: World, slot: nat)
    requires u.pc == Searching(TAKEN) && slot !in u.company && !Present(u.company, RemoteId("1"))
    ensures var v := Run(u, [Search(Listed), Import(slot, Some(STORED), Created)]);
      v.pc == ReadingBack(TAKEN) && v.journal == u.journal && v.company == u.company[slot := STORED]
  {
    SampleImported(u, slot);
    TwoSteps(u, Search(Listed), Import(slot, Some(STORED), Created));
  }

  function WritingOnce(slot: nat): seq<Event> {
    Queueing() + Claiming() + [Search(Listed), Import(slot, Some(STORED), Created)]
  }

  lemma WrittenOnce(w: World, slot: nat)
    requires Initial(w) && slot !in w.company
    ensures var u := Run(w, WritingOnce(slot));
      u.pc == ReadingBack(TAKEN) && u.journal == TAKEN_JOURNAL && u.company == w.company[slot := STORED]
  {
    QueueingRun(w);
    ClaimingRun(Run(w, Queueing()));
    RunConcat(w, Queueing(), Claiming());
    RunConcat(w, Queueing() + Claiming(), [Search(Listed), Import(slot, Some(STORED), Created)]);
    RemoteIdsDiffer("1", "1");
    SampleSearchAndImport(Run(w, Queueing() + Claiming()), slot);
  }

  /** From the proposal to SUCCEEDED: the import commits, the register shows it, and it is the one voucher added. */
  lemma SampleSucceeds(w: World, slot: nat, lost: bool)
    requires Initial(w) && slot !in w.company
    ensures var u := Run(w, WritingOnce(slot) + [ReadBack(Listed), SaveResult, Report(true, lost)]);
      && "1" in u.table.actions && u.table.actions["1"].status == Succeeded
      && u.company == w.company[slot := STORED]
  {
    var u := Run(w, WritingOnce(slot));
    WrittenOnce(w, slot);
    ReachableBase(w, WritingOnce(slot));
    RemoteIdsDiffer("1", "1");
    SampleFound(u.company, slot);
    SampleConfirmed(TAKEN.order, STORED);
    ConfirmedSucceeds(u, TAKEN, STORED, lost);
    RunConcat(w, WritingOnce(slot), [ReadBack(Listed), SaveResult, Report(true, lost)]);
  }
}
