/** What a Tally agent can still do from any state it is in: finish the action it holds, or write it again. */
module TallyRecovery {
  import opened Options
  import opened FinanceActions
  import opened Canonical
  import opened TallyWrite
  import opened TallySafety
  import opened TallyRuns
  import opened TallyOutcomes

  // ---- an action without a saved result is still leased ----------------------------------------------------

  ghost predicate Held(w: World) {
    forall id :: id in w.journal.claims && id !in w.journal.results ==> Leased(w.table.actions, id)
  }

  lemma MildKeepsHeld(w: World, u: World)
    requires Held(w) && u.journal == w.journal && Mild(w.table.actions, u.table.actions)
    ensures Held(u)
  {
  }

  lemma EngineKeepsHeld(w: World, e: Event)
    requires Base(w) && Held(w) && EngineEvent(e)
    ensures Held(Next(w, e))
  {
    EngineEvents(w, e);
    EngineIsMild(w.table, Next(w, e).table);
    MildKeepsHeld(w, Next(w, e));
  }

  lemma ReportKeepsHeld(w: World, reached: bool, lost: bool)
    requires Base(w) && Held(w)
    ensures Held(ReportStep(w, reached, lost))
  {
    if w.pc.Reporting? {
      ReportRowsFacts(w);
    }
  }

  lemma JournalKeepsHeld(w: World, e: Event)
    requires Base(w) && Held(w) && JournalEvent(e)
    ensures Held(Next(w, e))
  {
  }

  lemma RestKeepsHeld(w: World, e: Event)
    requires Base(w) && Held(w) && !EngineEvent(e) && !JournalEvent(e) && !e.Report? && !e.Claim? && !e.Renew?
    ensures Held(Next(w, e))
  {
    RestKeepsTable(w, e);
  }

  lemma LeaseKeepsHeld(w: World, e: Event)
    requires Base(w) && Held(w) && (e.Claim? || e.Renew?)
    ensures Held(Next(w, e))
  {
    if e.Renew? && w.pc.Holding? {
      RenewIsMild(w.table, w.pc.act.id, w.now);
    }
  }

  lemma NextKeepsHeld(w: World, e: Event)
    requires Base(w) && Held(w)
    ensures Held(Next(w, e))
  {
    if EngineEvent(e) {
      EngineKeepsHeld(w, e);
    } else if JournalEvent(e) {
      JournalKeepsHeld(w, e);
    } else if e.Report? {
      ReportKeepsHeld(w, e.reached, e.lost);
    } else if e.Claim? || e.Renew? {
      LeaseKeepsHeld(w, e);
    } else {
      RestKeepsHeld(w, e);
    }
  }

  lemma {:induction false} RunKeepsHeld(w: World, events: seq<Event>)
    requires Base(w) && Held(w)
    ensures Held(Run(w, events))
    decreases |events|
  {
    if events != [] {
      NextKeepsBase(w, events[0]);
      NextKeepsHeld(w, events[0]);
      RunKeepsHeld(Next(w, events[0]), events[1..]);
    }
  }

  lemma ReachableHeld(w: World, events: seq<Event>)
    requires Initial(w)
    ensures Held(Run(w, events))
  {
    InitialInv(w);
    RunKeepsHeld(w, events);
  }

  // ---- taking a journalled action up again ----------------------------------------------------------------------

  /** Wherever the agent is, it may crash, come back, renew the lease and look for a saved result. */
  function Resuming(): seq<Event> {
    [Crash, Poll] + [Renew(true, false), LoadResult]
  }

  ghost function Resumed(w: World, act: ClaimedAction): World {
    w.(table := w.table.(actions := RenewRows(w.table.actions, act.id, w.now)),
       pc := if act.id in w.journal.results then Reporting(act, w.journal.results[act.id]) else Searching(act))
  }

  lemma CrashAndPoll(w: World, act: ClaimedAction)
    requires w.journal.claims == map[act.id := act]
    ensures Run(w, [Crash, Poll]) == w.(pc := Holding(act))
  {
    TwoSteps(w, Crash, Poll);
    PollResumes(w.(pc := Idle), act.id, act);
  }

  lemma RenewAndLoadSteps(w: World, act: ClaimedAction)
    requires w.pc == Holding(act) && Leased(w.table.actions, act.id)
    ensures Run(w, [Renew(true, false), LoadResult]) == Resumed(w, act)
  {
    TwoSteps(w, Renew(true, false), LoadResult);
  }

  lemma ResumeSteps(w: World, act: ClaimedAction)
    requires w.journal.claims == map[act.id := act] && Leased(w.table.actions, act.id)
    ensures Run(w, Resuming()) == Resumed(w, act)
  {
    CrashAndPoll(w, act);
    RenewAndLoadSteps(w.(pc := Holding(act)), act);
    RunConcat(w, [Crash, Poll], [Renew(true, false), LoadResult]);
  }

  /** The one entry of the journal. */
  lemma OnlyEntry(w: World, id: Id)
    requires Base(w) && id in w.journal.claims
    ensures var act := w.journal.claims[id];
      act.id == id && act.remoteId == RemoteId(id) && w.journal.claims == map[id := act]
  {
    assert Genuine(w.table.actions, w.journal.claims[id]);
  }

  // ---- an agent stops for good exactly when it is stuck -------------------------------------------------------

  /** Without a saved result a broken export is enough to get one. */
  function Finishing(saved: bool): seq<Event> {
    (if saved then [] else [Search(ExportBroken), SaveResult]) + [Report(true, false), Complete]
  }

  lemma ReportAndComplete(u: World, act: ClaimedAction, r: Result)
    requires u.pc == Reporting(act, r) && Leased(u.table.actions, act.id) && u.journal.claims == map[act.id := act]
    ensures Run(u, [Report(true, false), Complete]).journal.claims == map[]
  {
    TwoSteps(u, Report(true, false), Complete);
    assert ReportStep(u, true, false).pc == Reported(act);
  }

  lemma BreakAndSave(u: World, act: ClaimedAction)
    requires u.pc == Searching(act)
    ensures var v := Run(u, [Search(ExportBroken), SaveResult]);
      v.pc == Reporting(act, Unverified) && v.table == u.table && v.journal.claims == u.journal.claims
  {
    TwoSteps(u, Search(ExportBroken), SaveResult);
  }

  lemma FinishSteps(u: World, act: ClaimedAction)
    requires Leased(u.table.actions, act.id) && u.journal.claims == map[act.id := act]
    requires u.pc == if act.id in u.journal.results then Reporting(act, u.journal.results[act.id]) else Searching(act)
    ensures Run(u, Finishing(act.id in u.journal.results)).journal.claims == map[]
  {
    var tail := [Report(true, false), Complete];
    if act.id in u.journal.results {
      assert Finishing(true) == tail;
      ReportAndComplete(u, act, u.journal.results[act.id]);
    } else {
      BreakAndSave(u, act);
      ReportAndComplete(Run(u, [Search(ExportBroken), SaveResult]), act, Unverified);
      RunConcat(u, [Search(ExportBroken), SaveResult], tail);
    }
  }

  /** A leased action can be reported and its entry deleted. */
  lemma LeasedCanFinish(w: World, id: Id)
    requires Base(w) && id in w.journal.claims && Leased(w.table.actions, id)
    ensures Run(w, Resuming() + Finishing(id in w.journal.results)).journal.claims == map[]
  {
    OnlyEntry(w, id);
    var act := w.journal.claims[id];
    ResumeSteps(w, act);
    FinishSteps(Resumed(w, act), act);
    RunConcat(w, Resuming(), Finishing(id in w.journal.results));
  }

  lemma ReportedCanFinish(w: World, id: Id)
    requires Base(w) && id in w.journal.claims && w.pc.Reported?
    ensures Run(w, [Complete]).journal.claims == map[]
  {
    OnlyEntry(w, id);
    RunCons(w, Complete, []);
  }

  /** Not stuck: leased, or just reported. */
  lemma LeasedOrReported(w: World, id: Id)
    requires Base(w) && id in w.journal.claims && !Stuck(w, id)
    ensures Leased(w.table.actions, id) || w.pc.Reported?
  {
    OnlyEntry(w, id);
  }

  ghost predicate CanFinish(w: World) {
    exists events :: Run(w, events).journal.claims == map[]
  }

  lemma NotStuckCanFinish(w: World, id: Id)
    requires Base(w) && id in w.journal.claims && !Stuck(w, id)
    ensures CanFinish(w)
  {
    LeasedOrReported(w, id);
    if Leased(w.table.actions, id) {
      LeasedCanFinish(w, id);
    } else {
      ReportedCanFinish(w, id);
    }
  }

  /** From every state that is reached, some run empties the journal exactly when no entry is stuck. */
  lemma CanFinishIffNotStuck(w: World, before: seq<Event>)
    requires Initial(w)
    ensures CanFinish(Run(w, before)) <==> forall id :: !Stuck(Run(w, before), id)
  {
    var u := Run(w, before);
    ReachableBase(w, before);
    if id :| Stuck(u, id) {
      forall events ensures Run(u, events).journal.claims != map[] {
        RunStaysStuck(u, events, id);
      }
    } else if id :| id in u.journal.claims {
      NotStuckCanFinish(u, id);
    } else {
      assert Run(u, []).journal.claims == map[];
    }
  }

  // ---- a voucher re-dated at the wrong moment ------------------------------------------------------------------

  /** The agent takes its action up again, does not find the voucher and imports another. */
  function WritingAgain(other: nat, v: Voucher): seq<Event> {
    Resuming() + [Search(Listed), Import(other, Some(v), Created)]
  }

  ghost predicate Unlisted(company: map<nat, Voucher>, act: ClaimedAction) {
    forall s :: !Listing(company, act.order.date, act.remoteId, s)
  }

  lemma ImportSteps(u: World, act: ClaimedAction, other: nat, v: Voucher)
    requires u.pc == Searching(act) && other !in u.company && Imports(act, v)
    requires Unlisted(u.company, act)
    ensures Run(u, [Search(Listed), Import(other, Some(v), Created)]).company == u.company[other := v]
  {
    FindFinds(u.company, act.order.date, act.remoteId);
    TwoSteps(u, Search(Listed), Import(other, Some(v), Created));
  }

  lemma WritesAgain(u: World, id: Id, other: nat, v: Voucher)
    requires Base(u) && id in u.journal.claims && id !in u.journal.results && Leased(u.table.actions, id)
    requires Imports(u.journal.claims[id], v) && Unlisted(u.company, u.journal.claims[id]) && other !in u.company
    ensures Run(u, WritingAgain(other, v)).company == u.company[other := v]
  {
    OnlyEntry(u, id);
    var act := u.journal.claims[id];
    ResumeSteps(u, act);
    ImportSteps(Resumed(u, act), act, other, v);
    RunConcat(u, Resuming(), [Search(Listed), Import(other, Some(v), Created)]);
  }

  /** A voucher that is moved away from the date of its order is not listed there any more. */
  lemma MovedAway(w: World, slot: nat, v: Voucher, id: Id)
    requires Inv(w) && MayEdit(w, slot, v) && v.remoteId == RemoteId(id)
    requires id in w.journal.claims && id !in w.journal.results && v.date != w.company[slot].date
    ensures Unlisted(w.company[slot := v], w.journal.claims[id])
  {
    assert Dated(w.company[slot], w.journal);
    assert Genuine(w.table.actions, w.journal.claims[id]);
  }

  lemma EditForm(w: World, slot: nat, v: Voucher)
    requires MayEdit(w, slot, v)
    ensures Next(w, UserEdits(slot, v)) == w.(company := w.company[slot := v], seen := w.seen + {v})
  {
  }

  lemma WritesAgainAfterEdit(w: World, slot: nat, v: Voucher, id: Id, other: nat, again: Voucher)
    requires Inv(w) && Held(w) && MayEdit(w, slot, v) && v.date != w.company[slot].date && v.remoteId == RemoteId(id)
    requires id in w.journal.claims && id !in w.journal.results
    requires other !in w.company && Imports(w.journal.claims[id], again)
    ensures Run(w.(company := w.company[slot := v], seen := w.seen + {v}), WritingAgain(other, again)).company
            == w.company[slot := v][other := again]
  {
    MovedAway(w, slot, v, id);
    EditKeeps(w, slot, v);
    WritesAgain(w.(company := w.company[slot := v], seen := w.seen + {v}), id, other, again);
  }

  /** Whatever the agent is doing, after an untimely change of date it can write the voucher a second time. */
  lemma UntimelyRedateDuplicates(w: World, slot: nat, v: Voucher, id: Id, other: nat, again: Voucher)
    requires Inv(w) && Held(w) && MayEdit(w, slot, v) && v.date != w.company[slot].date && v.remoteId == RemoteId(id)
    requires id in w.journal.claims && id !in w.journal.results
    requires other !in w.company && Imports(w.journal.claims[id], again)
    ensures var c := Run(Next(w, UserEdits(slot, v)), WritingAgain(other, again)).company;
      slot in c && other in c && slot != other && c[slot].remoteId == c[other].remoteId == RemoteId(id)
  {
    OnlyEntry(w, id);
    EditForm(w, slot, v);
    WritesAgainAfterEdit(w, slot, v, id, other, again);
  }

  lemma {:induction false} FreeSlot(slots: set<nat>) returns (free: nat)
    ensures forall s :: s in slots ==> s < free
    decreases |slots|
  {
    free := 0;
    if s :| s in slots {
      var rest := FreeSlot(slots - {s});
      assert forall k :: k in slots && k != s ==> k in slots - {s};
      free := if rest > s then rest else s + 1;
    }
  }

  /** Every timely continuation holds at most one voucher of each action. */
  ghost predicate StaysUnique(w: World) {
    forall events :: TimelyRun(w, events) ==> Unique(Run(w, events).company)
  }

  lemma TimelyStaysUnique(w: World, e: Event)
    requires Inv(w) && Timely(w, e)
    ensures StaysUnique(Next(w, e))
  {
    NextKeeps(w, e);
    forall events | TimelyRun(Next(w, e), events) ensures Unique(Run(Next(w, e), events).company) {
      RunKeeps(Next(w, e), events);
    }
  }

  lemma TwoAreNotUnique(company: map<nat, Voucher>, slot: nat, other: nat, id: Id)
    requires slot in company && other in company && slot != other
    requires company[slot].remoteId == company[other].remoteId == RemoteId(id)
    ensures !Unique(company)
  {
  }

  lemma RedatedIsNotUnique(w: World, slot: nat, v: Voucher, id: Id)
    requires Inv(w) && Held(w) && MayEdit(w, slot, v) && v.date != w.company[slot].date && v.remoteId == RemoteId(id)
    requires id in w.journal.claims && id !in w.journal.results
    ensures !StaysUnique(Next(w, UserEdits(slot, v)))
  {
    OnlyEntry(w, id);
    var other := FreeSlot(w.company.Keys);
    var again := v.(date := w.journal.claims[id].order.date);
    var u := Next(w, UserEdits(slot, v));
    UntimelyRedateDuplicates(w, slot, v, id, other, again);
    TwoAreNotUnique(Run(u, WritingAgain(other, again)).company, slot, other, id);
    NoEditsIsTimely(u, WritingAgain(other, again));
  }

  lemma UntimelyDoesNot(w: World, slot: nat, v: Voucher)
    requires Inv(w) && Held(w) && MayEdit(w, slot, v) && !Timely(w, UserEdits(slot, v))
    ensures !StaysUnique(Next(w, UserEdits(slot, v)))
  {
    var id :| id in w.journal.claims && w.journal.claims[id].remoteId == v.remoteId && id !in w.journal.results;
    OnlyEntry(w, id);
    RedatedIsNotUnique(w, slot, v, id);
  }

  /** The exact condition: in every state that is reached, whatever the agent is doing, re-dating a voucher is safe
      for ever after exactly when its action is not journalled without a result. */
  lemma RedatingIsSafeIffTimely(w: World, before: seq<Event>, slot: nat, v: Voucher)
    requires Initial(w) && TimelyRun(w, before) && MayEdit(Run(w, before), slot, v)
    ensures var u := Run(w, before);
      Timely(u, UserEdits(slot, v)) <==> StaysUnique(Next(u, UserEdits(slot, v)))
  {
    var u := Run(w, before);
    ReachableInv(w, before);
    ReachableHeld(w, before);
    if Timely(u, UserEdits(slot, v)) {
      TimelyStaysUnique(u, UserEdits(slot, v));
    } else {
      UntimelyDoesNot(u, slot, v);
    }
  }

  // ---- one such run from the start -----------------------------------------------------------------------------

  lemma WritingOnceIsTimely(w: World, slot: nat)
    requires Initial(w)
    ensures Inv(Run(w, WritingOnce(slot))) && Held(Run(w, WritingOnce(slot)))
  {
    NoEditsIsTimely(w, WritingOnce(slot));
    ReachableInv(w, WritingOnce(slot));
    ReachableHeld(w, WritingOnce(slot));
  }

  /** The voucher is imported and re-dated, the agent crashes, comes back and imports it again. */
  lemma RedatedVoucherIsWrittenTwice(w: World, slot: nat, other: nat, date: string)
    requires Initial(w) && slot !in w.company && other !in w.company && slot != other && date != SAMPLE.date
    ensures var u := Next(Run(w, WritingOnce(slot)), UserEdits(slot, STORED.(date := date)));
      var c := Run(u, WritingAgain(other, STORED)).company;
      slot in c && other in c && c[slot].remoteId == c[other].remoteId == RemoteId("1")
  {
    WrittenOnce(w, slot);
    WritingOnceIsTimely(w, slot);
    UntimelyRedateDuplicates(Run(w, WritingOnce(slot)), slot, STORED.(date := date), "1", other, STORED);
  }
}
