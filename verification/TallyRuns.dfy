/** Runs of the Tally write protocol: what never changes, where the agent gets stuck, and one run in full. */
module TallyRuns {
  import opened Options
  import opened FinanceActions
  import opened Canonical
  import opened TallyWrite
  import opened TallySafety

  lemma {:induction false} RunConcat(w: World, first: seq<Event>, second: seq<Event>)
    ensures Run(w, first + second) == Run(Run(w, first), second)
    decreases |first|
  {
    if first == [] {
      assert first + second == second;
    } else {
      assert (first + second)[0] == first[0] && (first + second)[1..] == first[1..] + second;
      RunConcat(Next(w, first[0]), first[1..], second);
    }
  }

  /** A run with all its states, in which nobody edits a voucher. */
  datatype History = History(states: seq<World>, events: seq<Event>)

  ghost predicate StepAt(h: History, i: int)
    requires |h.states| == |h.events| + 1 && 0 <= i < |h.events|
  {
    h.states[i + 1] == Next(h.states[i], h.events[i]) && !h.events[i].UserEdits?
  }

  ghost predicate Lawful(start: World, h: History) {
    && |h.states| == |h.events| + 1
    && h.states[0] == start
    && forall i :: 0 <= i < |h.events| ==> StepAt(h, i)
  }

  function Last(h: History): World
    requires |h.states| > 0
  {
    h.states[|h.states| - 1]
  }

  function Extend(h: History, e: Event, w: World): History {
    History(h.states + [w], h.events + [e])
  }

  lemma Extended(start: World, h: History, e: Event)
    requires Lawful(start, h) && !e.UserEdits?
    ensures Lawful(start, Extend(h, e, Next(Last(h), e)))
  {
    var g := Extend(h, e, Next(Last(h), e));
    forall i | 0 <= i < |g.events| ensures StepAt(g, i) {
      if i < |h.events| {
        assert StepAt(h, i);
      }
    }
  }

  lemma RunAppend(w: World, events: seq<Event>, e: Event)
    ensures Run(w, events + [e]) == Next(Run(w, events), e)
  {
    RunConcat(w, events, [e] + []);
    RunCons(Run(w, events), e, []);
    assert events + ([e] + []) == events + [e];
  }

  lemma {:induction false} LawfulIsRun(start: World, h: History)
    requires Lawful(start, h)
    ensures Last(h) == Run(start, h.events)
    decreases |h.events|
  {
    if h.events != [] {
      var k := |h.events| - 1;
      var g := History(h.states[..k + 1], h.events[..k]);
      forall i | 0 <= i < k ensures StepAt(g, i) {
        assert StepAt(h, i);
      }
      LawfulIsRun(start, g);
      RunAppend(start, g.events, h.events[k]);
      assert g.events + [h.events[k]] == h.events && StepAt(h, k);
    }
  }

  lemma LawfulIsTimely(start: World, h: History)
    requires Lawful(start, h)
    ensures TimelyRun(start, h.events)
  {
    forall i | 0 <= i < |h.events| ensures !h.events[i].UserEdits? {
      assert StepAt(h, i);
    }
    NoEditsIsTimely(start, h.events);
  }

  lemma {:induction false} NoEditsIsTimely(w: World, events: seq<Event>)
    requires forall i :: 0 <= i < |events| ==> !events[i].UserEdits?
    ensures TimelyRun(w, events)
    decreases |events|
  {
    if events != [] {
      NoEditsIsTimely(Next(w, events[0]), events[1..]);
    }
  }

  lemma RunCons(w: World, e: Event, rest: seq<Event>)
    ensures Run(w, [e] + rest) == Run(Next(w, e), rest)
  {
  }

  lemma PollResumes(w: World, id: Id, act: ClaimedAction)
    requires w.pc == Idle && w.journal.claims == map[id := act]
    ensures PollStep(w) == w.(pc := Holding(act))
  {
    assert id in w.journal.claims;
    assert forall k :: k in w.journal.claims ==> w.journal.claims[k] == act;
  }

  // ---- the payload of an action is fixed for ever --------------------------------------------------------

  ghost predicate OrdersKept(rows: Rows, rows': Rows) {
    forall id :: id in rows ==> id in rows' && rows'[id].payload == rows[id].payload
  }

  lemma ClaimKeepsOrders(w: World, e: Event)
    requires RowsInv(w.table) && e.Claim?
    ensures OrdersKept(w.table.actions, Next(w, e).table.actions)
  {
    ClaimRowsFacts(w.table, w.now, e.pick, e.gate);
  }

  lemma ReportKeepsOrders(w: World, reached: bool, lost: bool)
    requires Base(w)
    ensures OrdersKept(w.table.actions, ReportStep(w, reached, lost).table.actions)
  {
    if w.pc.Reporting? {
      ReportRowsFacts(w);
    }
  }

  lemma RestKeepsTable(w: World, e: Event)
    requires !EngineEvent(e) && !e.Claim? && !e.Report? && !e.Renew?
    ensures Next(w, e).table == w.table
  {
  }

  lemma NextKeepsOrders(w: World, e: Event)
    requires Base(w)
    ensures OrdersKept(w.table.actions, Next(w, e).table.actions)
  {
    if EngineEvent(e) {
      EngineEvents(w, e);
    } else if e.Claim? {
      ClaimKeepsOrders(w, e);
    } else if e.Report? {
      ReportKeepsOrders(w, e.reached, e.lost);
    } else if !e.Renew? {
      RestKeepsTable(w, e);
    }
  }

  /** A stored payload and its hash never change, whatever happens. */
  lemma {:induction false} RunKeepsPayloads(w: World, events: seq<Event>)
    requires Base(w)
    ensures PayloadsKept(w.table, Run(w, events).table)
    decreases |events|
  {
    if events != [] {
      var u := Next(w, events[0]);
      NextKeepsOrders(w, events[0]);
      NextKeepsBase(w, events[0]);
      RunKeepsPayloads(u, events[1..]);
      forall id | id in w.table.actions ensures u.table.actions[id].payloadHash == w.table.actions[id].payloadHash {
        assert Bound(w.table.actions[id]) && Bound(u.table.actions[id]);
      }
    }
  }

  // ---- a reported action that stays in the journal stops the agent --------------------------------------------------------

  /** The journal holds an action the cloud has already closed, and no report is under way. */
  ghost predicate Stuck(w: World, id: Id) {
    id in w.journal.claims && Closed(w.table.actions, id) && (w.pc.Idle? || w.pc.Holding?)
  }

  ghost predicate ClaimsKept(rows: Rows, rows': Rows) {
    forall id :: id in rows ==> id in rows' && rows'[id].attempts == rows[id].attempts
  }

  lemma EngineStaysStuck(w: World, e: Event, id: Id)
    requires Base(w) && Stuck(w, id) && EngineEvent(e)
    ensures Stuck(Next(w, e), id) && Next(w, e).journal == w.journal
    ensures ClaimsKept(w.table.actions, Next(w, e).table.actions)
  {
    EngineEvents(w, e);
    EngineIsMild(w.table, Next(w, e).table);
  }

  /** Resuming the entry and renewing its lease is all the agent still tries. */
  lemma AgentStaysStuck(w: World, e: Event, id: Id)
    requires Base(w) && Stuck(w, id) && (e.Poll? || e.Renew? || e.Claim?)
    ensures Stuck(Next(w, e), id) && Next(w, e).journal == w.journal && Next(w, e).table == w.table
  {
  }

  lemma RestStaysStuck(w: World, e: Event, id: Id)
    requires Stuck(w, id) && !EngineEvent(e) && !e.Poll? && !e.Renew? && !e.Claim?
    ensures Stuck(Next(w, e), id) && Next(w, e).journal == w.journal && Next(w, e).table == w.table
  {
  }

  lemma NextStaysStuck(w: World, e: Event, id: Id)
    requires Base(w) && Stuck(w, id)
    ensures Stuck(Next(w, e), id) && Next(w, e).journal == w.journal
    ensures ClaimsKept(w.table.actions, Next(w, e).table.actions)
  {
    if EngineEvent(e) {
      EngineStaysStuck(w, e, id);
    } else if e.Poll? || e.Renew? || e.Claim? {
      AgentStaysStuck(w, e, id);
    } else {
      RestStaysStuck(w, e, id);
    }
  }

  lemma {:induction false} RunStaysStuck(w: World, events: seq<Event>, id: Id)
    requires Base(w) && Stuck(w, id)
    ensures var u := Run(w, events);
      Stuck(u, id) && u.journal == w.journal && ClaimsKept(w.table.actions, u.table.actions)
    decreases |events|
  {
    if events != [] {
      NextStaysStuck(w, events[0], id);
      NextKeepsBase(w, events[0]);
      RunStaysStuck(Next(w, events[0]), events[1..], id);
    }
  }

  /** A reported action that is still journalled stops the agent: in every run that follows the journal never
      changes again and no action that exists now is ever claimed again, because the renewal that precedes a
      replay is refused. */
  lemma ClosedEntryStopsTheAgent(w: World, before: seq<Event>, after: seq<Event>, id: Id)
    requires Initial(w)
    requires var u := Run(w, before);
      id in u.journal.claims && Closed(u.table.actions, id) && (u.pc.Idle? || u.pc.Holding?)
    ensures var u := Run(w, before);
      var v := Run(u, after);
      v.journal == u.journal && ClaimsKept(u.table.actions, v.table.actions)
  {
    ReachableBase(w, before);
    RunStaysStuck(Run(w, before), after, id);
  }

  /** That state is reached by a report whose reply is lost ... */
  lemma LostReplySticks(r: World)
    requires Base(r) && r.pc.Reporting?
    ensures Stuck(ReportStep(r, true, true), r.pc.act.id)
  {
  }

  /** ... and by a crash between a report and the deletion of its journal entry. */
  lemma CrashAfterReportSticks(r: World)
    requires Base(r) && r.pc.Reported?
    ensures Stuck(Next(r, Crash), r.pc.act.id)
  {
  }

  /** So both stop the agent, whenever they happen. */
  lemma LostReportReplyStopsTheAgent(w: World, before: seq<Event>, e: Event, after: seq<Event>)
    requires Initial(w)
    requires var r := Run(w, before); (r.pc.Reporting? && e == Report(true, true)) || (r.pc.Reported? && e == Crash)
    ensures var u := Next(Run(w, before), e);
      var v := Run(u, after);
      v.journal == u.journal && u.journal.claims != map[] && ClaimsKept(u.table.actions, v.table.actions)
  {
    ReachableBase(w, before);
    var r := Run(w, before);
    NextKeepsBase(r, e);
    if e.Crash? {
      CrashAfterReportSticks(r);
    } else {
      LostReplySticks(r);
    }
    RunStaysStuck(Next(r, e), after, r.pc.act.id);
  }

  // ---- one run, from the proposal to a FAILED action whose voucher is in the books ---------------------------

  const SAMPLE: Order := Order(Purchase, "20260715", "C", "V", "P", 11800, "", "", "",
                               [Entry("V", 11800), Entry("P", -11800)], [])

  const STORED: Voucher := Voucher("G", RemoteId("1"), "7", "20260715", "Purchase", "V", "", "", SAMPLE.entries, [])

  function Queueing(): seq<Event> {
    [Propose("1", "k", SAMPLE), Approve("1", Digest(SAMPLE)), Enqueue("1")]
  }

  function Claiming(): seq<Event> {
    [Claim(Some("1"), true, false), SaveClaim, Renew(true, false), LoadResult]
  }

  function Writing(slot: nat): seq<Event> {
    [Search(Listed), Import(slot, Some(STORED), Created), ReadBack(ExportDenied), SaveResult, Report(true, false)]
  }

  const TAKEN: ClaimedAction := ClaimedAction("1", RemoteId("1"), SAMPLE)

  const TAKEN_JOURNAL: Journal := Journal(map["1" := TAKEN], map[])

  /** Row "1" holds the sample, approved, with this status. */
  ghost predicate SampleIs(w: World, s: Status) {
    "1" in w.table.actions && w.table.actions["1"].payload == SAMPLE && w.table.actions["1"].status == s
  }

  lemma ThreeSteps(w: World, a: Event, b: Event, c: Event)
    ensures Run(w, [a, b, c]) == Next(Next(Next(w, a), b), c)
  {
    assert [a, b, c] == [a] + ([b] + ([c] + []));
    RunCons(w, a, [b] + ([c] + []));
    RunCons(Next(w, a), b, [c] + []);
    RunCons(Next(Next(w, a), b), c, []);
  }

  lemma QueueingSteps(t: Table<Order>)
    requires t == Table(map[], map[], map[])
    ensures var u := QueueRow(ApproveRow(ProposeRow(t, "1", "k", SAMPLE), "1", Digest(SAMPLE)), "1");
      && "1" in u.actions && u.actions["1"].payload == SAMPLE && u.actions["1"].status == Queued
      && u.actions["1"].attempts == 0
  {
  }

  lemma QueueingRun(w: World)
    requires Initial(w)
    ensures var u := Run(w, Queueing());
      SampleIs(u, Queued) && u.table.actions["1"].attempts == 0 && u == w.(table := u.table)
  {
    QueueingSteps(w.table);
    ThreeSteps(w, Queueing()[0], Queueing()[1], Queueing()[2]);
  }

  lemma FourSteps(w: World, a: Event, b: Event, c: Event, d: Event)
    ensures Run(w, [a, b, c, d]) == Next(Next(Next(Next(w, a), b), c), d)
  {
    assert [a, b, c, d] == [a] + ([b] + ([c] + ([d] + [])));
    RunCons(w, a, [b] + ([c] + ([d] + [])));
    RunCons(Next(w, a), b, [c] + ([d] + []));
    RunCons(Next(Next(w, a), b), c, [d] + []);
    RunCons(Next(Next(Next(w, a), b), c), d, []);
  }

  lemma SampleClaimed(u: World)
    requires SampleIs(u, Queued) && u.table.actions["1"].attempts == 0 && u.pc == Idle && u.journal.claims == map[]
    ensures var v := ClaimStep(u, Some("1"), true, false);
      SampleIs(v, Claimed) && Leased(v.table.actions, "1") && v.pc == GotClaim(TAKEN) && v.company == u.company
      && v.journal == u.journal
  {
  }

  lemma TwoSteps(w: World, a: Event, b: Event)
    ensures Run(w, [a, b]) == Next(Next(w, a), b)
  {
    assert [a, b] == [a] + ([b] + []);
    RunCons(w, a, [b] + []);
    RunCons(Next(w, a), b, []);
  }

  lemma ClaimAndSave(u: World)
    requires SampleIs(u, Queued) && u.table.actions["1"].attempts == 0 && u.pc == Idle && u.journal == Journal(map[], map[])
    ensures var v := Run(u, [Claim(Some("1"), true, false), SaveClaim]);
      SampleIs(v, Claimed) && Leased(v.table.actions, "1") && v.pc == Holding(TAKEN) && v.company == u.company
      && v.journal == TAKEN_JOURNAL
  {
    SampleClaimed(u);
    TwoSteps(u, Claim(Some("1"), true, false), SaveClaim);
  }

  lemma RenewAndLoad(u: World)
    requires SampleIs(u, Claimed) && Leased(u.table.actions, "1") && u.pc == Holding(TAKEN) && u.journal == TAKEN_JOURNAL
    ensures var v := Run(u, [Renew(true, false), LoadResult]);
      SampleIs(v, Claimed) && Leased(v.table.actions, "1") && v.pc == Searching(TAKEN) && v.company == u.company
      && v.journal == TAKEN_JOURNAL
  {
  }

  lemma ClaimingRun(u: World)
    requires SampleIs(u, Queued) && u.table.actions["1"].attempts == 0 && u.pc == Idle && u.journal == Journal(map[], map[])
    ensures var v := Run(u, Claiming());
      SampleIs(v, Claimed) && Leased(v.table.actions, "1") && v.pc == Searching(TAKEN) && v.company == u.company
      && v.journal == TAKEN_JOURNAL
  {
    var first := [Claim(Some("1"), true, false), SaveClaim];
    assert Claiming() == first + [Renew(true, false), LoadResult];
    ClaimAndSave(u);
    RenewAndLoad(Run(u, first));
    RunConcat(u, first, [Renew(true, false), LoadResult]);
  }

  lemma SampleImported(u: World, slot: nat)
    requires u.pc == Searching(TAKEN) && slot !in u.company && !Present(u.company, RemoteId("1"))
    ensures var v := ImportStep(SearchStep(u, Listed), slot, Some(STORED), Created);
      v == u.(company := u.company[slot := STORED], seen := u.seen + {STORED}, pc := ReadingBack(TAKEN))
  {
  }

  lemma SampleRefused(u: World, slot: nat)
    requires SampleIs(u, Claimed) && Leased(u.table.actions, "1") && u.pc == ReadingBack(TAKEN)
    requires slot in u.company && u.company[slot] == STORED
    ensures var v := SaveResultStep(ReadBackStep(u, ExportDenied));
      v.table == u.table && v.pc == Reporting(TAKEN, Rejected) && v.company == u.company
  {
  }

  lemma SampleReported(u: World)
    requires SampleIs(u, Claimed) && Leased(u.table.actions, "1") && u.pc == Reporting(TAKEN, Rejected)
    ensures var v := ReportStep(u, true, false); SampleIs(v, Failed) && v.company == u.company
  {
  }

  lemma WritingRun(u: World, slot: nat)
    requires SampleIs(u, Claimed) && Leased(u.table.actions, "1") && u.pc == Searching(TAKEN)
    requires slot !in u.company && !Present(u.company, RemoteId("1"))
    ensures var v := Run(u, Writing(slot)); SampleIs(v, Failed) && Present(v.company, RemoteId("1"))
  {
    SampleImported(u, slot);
    var u2 := ImportStep(SearchStep(u, Listed), slot, Some(STORED), Created);
    SampleRefused(u2, slot);
    var u4 := SaveResultStep(ReadBackStep(u2, ExportDenied));
    SampleReported(u4);
    WritingSteps(u, slot);
    assert ReportStep(u4, true, false).company[slot].remoteId == RemoteId("1");
  }

  lemma WritingSteps(u: World, slot: nat)
    ensures Run(u, Writing(slot)) ==
      ReportStep(SaveResultStep(ReadBackStep(ImportStep(SearchStep(u, Listed), slot, Some(STORED), Created), ExportDenied)), true, false)
  {
    var q := Writing(slot);
    assert q == [q[0], q[1], q[2], q[3]] + ([q[4]] + []);
    RunConcat(u, [q[0], q[1], q[2], q[3]], [q[4]] + []);
    FourSteps(u, q[0], q[1], q[2], q[3]);
    RunCons(Run(u, [q[0], q[1], q[2], q[3]]), q[4], []);
  }

  /** One such run from the start: the import commits and the read-back is answered with 403, which the agent
      takes for a definite rejection. */
  lemma FailedActionCanHaveItsVoucher(w: World, slot: nat)
    requires Initial(w) && slot !in w.company
    ensures var v := Run(w, Queueing() + Claiming() + Writing(slot));
      SampleIs(v, Failed) && Present(v.company, RemoteId("1"))
  {
    QueueingRun(w);
    var u := Run(w, Queueing());
    ClaimingRun(u);
    RunConcat(w, Queueing(), Claiming());
    RunConcat(w, Queueing() + Claiming(), Writing(slot));
    RemoteIdsDiffer("1", "1");
    WritingRun(Run(u, Claiming()), slot);
  }
}
