/**
 The same protocol in the form it is written in: the cloud's row updates, the agent's journal tables and
 one poll of the agent, proved to be steps of the state machine.  `Net` says what each remote call of one
 poll meets and after which step the process dies, if it does.
 */
module TallyAgent {
  import opened Options
  import opened FinanceActions
  import opened Canonical
  import opened TallyWrite
  import opened TallySafety
  import opened TallyRuns
  import opened TallyOutcomes

  /** finance_actions and verification_results, as the three device endpoints see them. */
  class ActionTable {
    var rows: Rows
    var checks: map<Id, seq<Check>>
    var now: int

    constructor ()
      ensures rows == map[] && checks == map[] && now == 0
    {
      rows, checks, now := map[], map[], 0;
    }

    method ClaimAction(gate: bool) returns (reply: Option<ClaimedAction>, ghost pick: Option<Id>)
      modifies this`rows
      ensures (rows, reply) == ClaimRows(old(rows), now, pick, gate)
      ensures pick.None? ==> forall id :: id in old(rows) ==> !Takeable(old(rows)[id], now)
      ensures pick.Some? ==> pick.value in old(rows) && Takeable(old(rows)[pick.value], now)
    {
      var before := rows;
      rows := map id | id in rows :: Lapse(rows[id], now);
      rows := map id | id in rows :: Release(rows[id]);
      assert rows == Requeue(before, now);
      forall id | id in before ensures Claimable(rows[id]) <==> Takeable(before[id], now) {
        TakeableRow(before[id], now);
      }
      reply, pick := None, None;
      if id :| id in rows && Claimable(rows[id]) {
        pick := Some(id);
        if gate && Valid(rows[id].payload) {
          reply := Some(ClaimedAction(id, RemoteId(id), rows[id].payload));
          rows := rows[id := rows[id].(status := Claimed, lease := Some(now + LEASE_SECONDS), attempts := rows[id].attempts + 1)];
        } else {
          rows := before;  // the transaction rolls back
        }
      }
    }

    method RenewLease(id: Id) returns (ok: bool)
      modifies this`rows
      ensures ok == Leased(old(rows), id) && rows == RenewRows(old(rows), id, now)
    {
      ok := id in rows && rows[id].status == Claimed && rows[id].lease.Some?;
      if ok {
        rows := rows[id := rows[id].(lease := Some(now + LEASE_SECONDS))];
      }
    }

    method ReportResult(id: Id, r: Result) returns (ok: bool)
      modifies this`rows, this`checks
      ensures (rows, checks, ok) == ReportRows(old(rows), old(checks), id, r)
      ensures ok == Leased(old(rows), id)
    {
      ok := id in rows && rows[id].status == Claimed && rows[id].lease.Some?;
      if !ok {
        return;
      }
      var a := rows[id];
      rows := rows[id := a.(status := Executing)];
      if !r.Accepted? || r.guid == "" {
        rows := rows[id := a.(status := if r.Unverified? then NeedsReview else Failed, lease := None)];
        assert rows == old(rows)[id := rows[id]];
        return;
      }
      var differences := Differences(a.payload, r, id);
      rows := rows[id := a.(status := ProviderAccepted)];
      rows := rows[id := a.(status := Verifying)];
      checks := checks[id := Checks(checks, id) + [Check(r.readback, differences)]];
      rows := rows[id := a.(status := if differences == {} then Succeeded else NeedsReview, lease := None)];
      assert rows == old(rows)[id := rows[id]];
    }
  }

  /** The agent's SQLite tables claimed_actions and unsent_results. */
  class JournalStore {
    var claims: map<Id, ClaimedAction>
    var results: map<Id, Result>

    ghost function Entries(): Journal
      reads this
    {
      Journal(claims, results)
    }

    constructor ()
      ensures Entries() == Journal(map[], map[])
    {
      claims, results := map[], map[];
    }

    /** INSERT OR IGNORE: an entry that exists stays. */
    method SaveClaim(act: ClaimedAction)
      modifies this`claims
      ensures claims == if act.id in old(claims) then old(claims) else old(claims)[act.id := act]
    {
      if act.id !in claims {
        claims := claims[act.id := act];
      }
    }

    method PendingClaim() returns (act: Option<ClaimedAction>)
      ensures act.None? <==> claims == map[]
      ensures act.Some? ==> exists id :: id in claims && claims[id] == act.value
    {
      act := None;
      if id :| id in claims {
        act := Some(claims[id]);
      }
    }

    method PendingResult(id: Id) returns (r: Option<Result>)
      ensures r == if id in results then Some(results[id]) else None
    {
      r := if id in results then Some(results[id]) else None;
    }

    method SaveResult(id: Id, r: Result)
      modifies this`results
      ensures results == old(results)[id := r]
    {
      results := results[id := r];
    }

    method CompleteAction(id: Id)
      modifies this
      ensures Entries() == Journal(old(claims) - {id}, old(results) - {id})
    {
      results := results - {id};
      claims := claims - {id};
    }
  }

  /** What one poll meets: every reply, whether it is lost, and the step after which the process dies. */
  datatype Net = Net(
    gate: bool, claimLost: bool, renewed: bool, renewLost: bool,
    search: ExportReply, commits: bool, slot: nat, guid: string, number: string, gst: seq<GstDetail>, answer: ImportReply,
    readBack: ExportReply, reported: bool, reportLost: bool, dies: nat)

  /** Nothing dies and nothing is lost. */
  predicate Quiet(net: Net) {
    net.dies == 0 && !net.claimLost && net.renewed && !net.renewLost && net.reported && !net.reportLost
  }

  /** Tally's side of the import: the voucher of the request, under a GUID, a number and the duty heads of its ledgers. */
  function Stored(act: ClaimedAction, net: Net): Voucher {
    var o := act.order;
    Voucher(net.guid, act.remoteId, net.number, o.date, KindName(o.kind), o.party, o.reference, o.narration, o.entries, net.gst)
  }

  /** An imported voucher is the one the next register export shows. */
  lemma ImportedIsFound(company: map<nat, Voucher>, date: string, id: Id, slot: nat, v: Voucher)
    requires Unique(company) && slot !in company && v.remoteId == RemoteId(id) && v.date == date
    requires forall s :: s in company && company[s].remoteId == RemoteId(id) ==> company[s].date == date
    requires Find(company, date, RemoteId(id)) == None
    ensures Unique(company[slot := v]) && Find(company[slot := v], date, RemoteId(id)) == Some(v)
  {
    FindFinds(company, date, RemoteId(id));
    FindFinds(company[slot := v], date, RemoteId(id));
    assert Listing(company[slot := v], date, RemoteId(id), slot);
    forall s | s in company ensures company[s].remoteId != RemoteId(id) {
      assert !Listing(company, date, RemoteId(id), s);
    }
  }

  /** The result of an import and of the read-back that follows it. */
  predicate Imported(act: ClaimedAction, net: Net, r: Result) {
    r == if net.answer.ImportUnclear? then Unverified
         else if !net.answer.Created? then Rejected
         else if net.readBack.ExportDenied? then Rejected
         else if net.readBack.ExportBroken? then Unverified
         else Success(Stored(act, net), act.order.companyGuid)
  }

  /** The result of an undisturbed execution beside these books. */
  ghost predicate Makes(company: map<nat, Voucher>, act: ClaimedAction, net: Net, r: Result) {
    var v := Find(company, act.order.date, act.remoteId);
    if net.search.ExportDenied? then r == Rejected
    else if net.search.ExportBroken? then r == Unverified
    else if v.Some? then r == Success(v.value, act.order.companyGuid)
    else Imported(act, net, r)
  }

  /** The books after it: something is imported only if the search shows that nothing is there. */
  ghost function Booked(company: map<nat, Voucher>, act: ClaimedAction, net: Net): map<nat, Voucher> {
    if net.search.Listed? && Find(company, act.order.date, act.remoteId).None? && net.commits
    then company[net.slot := Stored(act, net)] else company
  }

  /** Renewed and then reported. */
  predicate Settles(rows: Rows, checks: map<Id, seq<Check>>, now: int, act: ClaimedAction, r: Result,
                    rows': Rows, checks': map<Id, seq<Check>>) {
    (rows', checks', true) == ReportRows(RenewRows(rows, act.id, now), checks, act.id, r)
  }

  // ---- what an undisturbed poll comes to -----------------------------------------------------------------

  /** Where the shown voucher puts the action. */
  ghost function Judged(act: ClaimedAction, v: Voucher): Status {
    if v.guid == "" then Failed else if Confirmed(act.order, v, act.id) then Succeeded else NeedsReview
  }

  /** The action's end, by what the exports and the import answer: a refused export, a refused or complained-about
      import is FAILED, an unclear one is reviewed, and a shown voucher decides. */
  ghost predicate EndsIn(company: map<nat, Voucher>, act: ClaimedAction, net: Net, s: Status) {
    var v := Find(company, act.order.date, act.remoteId);
    s == if net.search.ExportDenied? then Failed
         else if net.search.ExportBroken? then NeedsReview
         else if v.Some? then Judged(act, v.value)
         else if net.answer.ImportUnclear? then NeedsReview
         else if !net.answer.Created? || net.readBack.ExportDenied? then Failed
         else if net.readBack.ExportBroken? then NeedsReview
         else Judged(act, Stored(act, net))
  }

  /** The same of a saved result that is only reported again. */
  ghost predicate ReplayEndsIn(act: ClaimedAction, r: Result, s: Status) {
    s == if r.Unverified? then NeedsReview
         else if r.Rejected? || r.guid == "" then Failed
         else if Approves(act.order, r, act.id) then Succeeded else NeedsReview
  }

  /** The journalled action; without one any that may be claimed, or none if there is none. */
  ghost predicate Chosen(w: World, act: Option<ClaimedAction>, gate: bool) {
    var rows := w.table.actions;
    if w.journal.claims != map[] then act.Some? && w.journal.claims == map[act.value.id := act.value]
    else if act.Some? then
      act.value.id in rows && Takeable(rows[act.value.id], w.now) && gate
      && act.value == ClaimedAction(act.value.id, RemoteId(act.value.id), rows[act.value.id].payload)
    else gate && (forall id :: id in rows ==> Valid(rows[id].payload)) ==> forall id :: id in rows ==> !Takeable(rows[id], w.now)
  }

  /** The journal is empty, and action and books are where the evidence puts them. */
  ghost predicate Delivered(w: World, u: World, act: ClaimedAction, net: Net) {
    && u.journal == Journal(map[], map[]) && act.id in u.table.actions
    && if act.id in w.journal.results
       then u.company == w.company && ReplayEndsIn(act, w.journal.results[act.id], u.table.actions[act.id].status)
       else u.company == Booked(w.company, act, net) && EndsIn(w.company, act, net, u.table.actions[act.id].status)
  }

  /** An action of this table, with at most one voucher, under the date of its order, unless a result is saved. */
  ghost predicate Fitting(w: World, act: ClaimedAction) {
    && act.id in w.table.actions && w.table.actions[act.id].payload == act.order && act.remoteId == RemoteId(act.id)
    && (act.id !in w.journal.results ==> Sound(w.company, act))
  }

  /** What the books owe to the protocol while an action is taken up. */
  ghost predicate Sound(company: map<nat, Voucher>, act: ClaimedAction) {
    && act.remoteId == RemoteId(act.id) && Unique(company)
    && forall s :: s in company && company[s].remoteId == act.remoteId ==> company[s].date == act.order.date
  }

  ghost predicate Pollable(w: World) {
    && (forall a, b :: a in w.journal.claims && b in w.journal.claims ==> a == b)
    && (forall id :: id in w.journal.claims ==> w.journal.claims[id].id == id && Fitting(w, w.journal.claims[id]))
    && w.journal.results.Keys <= w.journal.claims.Keys
    && (w.journal.claims == map[] ==>
          forall id :: id in w.table.actions && Takeable(w.table.actions[id], w.now) ==>
            Fitting(w, ClaimedAction(id, RemoteId(id), w.table.actions[id].payload)))
  }

  lemma JournalledIsFitting(w: World, id: Id)
    requires Inv(w) && id in w.journal.claims
    ensures w.journal.claims[id].id == id && Fitting(w, w.journal.claims[id])
  {
    var act := w.journal.claims[id];
    assert Genuine(w.table.actions, act);
    forall s | s in w.company && w.company[s].remoteId == act.remoteId && id !in w.journal.results
      ensures w.company[s].date == act.order.date
    {
      assert Dated(w.company[s], w.journal);
    }
  }

  lemma TakeableIsFitting(w: World, id: Id)
    requires Inv(w) && w.journal.claims == map[] && id in w.table.actions && Takeable(w.table.actions[id], w.now)
    ensures Fitting(w, ClaimedAction(id, RemoteId(id), w.table.actions[id].payload))
  {
    forall s | s in w.company ensures w.company[s].remoteId != RemoteId(id) {
      assert Owned(w.company[s], w.journal, w.table.actions);
    }
  }

  lemma InvIsPollable(w: World)
    requires Inv(w)
    ensures Pollable(w)
  {
    forall id | id in w.journal.claims ensures w.journal.claims[id].id == id && Fitting(w, w.journal.claims[id]) {
      JournalledIsFitting(w, id);
    }
    if w.journal.claims == map[] {
      forall id | id in w.table.actions && Takeable(w.table.actions[id], w.now)
        ensures Fitting(w, ClaimedAction(id, RemoteId(id), w.table.actions[id].payload))
      {
        TakeableIsFitting(w, id);
      }
    }
  }

  /** What the result of an execution, once reported, makes of the row. */
  lemma SettledEnds(rows: Rows, checks: map<Id, seq<Check>>, now: int, act: ClaimedAction, r: Result, rows': Rows, checks': map<Id, seq<Check>>)
    requires Leased(rows, act.id) && rows[act.id].payload == act.order && Settles(rows, checks, now, act, r, rows', checks')
    ensures act.id in rows' && ReplayEndsIn(act, r, rows'[act.id].status)
  {
    ReportDecides(RenewRows(rows, act.id, now), checks, act.id, r);
  }

  lemma MadeEnds(company: map<nat, Voucher>, act: ClaimedAction, net: Net, r: Result, s: Status)
    requires Makes(company, act, net, r) && ReplayEndsIn(act, r, s)
    ensures EndsIn(company, act, net, s)
  {
    var v := Find(company, act.order.date, act.remoteId);
    if v.Some? && v.value.guid != "" {
      SuccessApproves(act.order, v.value, act.id);
    }
    if net.guid != "" {
      SuccessApproves(act.order, Stored(act, net), act.id);
    }
  }

  /** The rows after an action is taken up: as they were, or with the claim. */
  ghost predicate TakenFrom(w: World, rows: Rows, act: ClaimedAction, gate: bool) {
    if w.journal.claims != map[] then rows == w.table.actions
    else (rows, Some(act)) == ClaimRows(w.table.actions, w.now, Some(act.id), gate)
  }

  lemma TakenFits(w: World, rows: Rows, act: ClaimedAction, gate: bool)
    requires Pollable(w) && TakenFrom(w, rows, act, gate)
    requires w.journal.claims != map[] ==> w.journal.claims == map[act.id := act]
    ensures Fitting(w, act) && act.id in rows && rows[act.id].payload == act.order
    ensures w.journal.results.Keys <= {act.id} && (w.journal.claims == map[] ==> Leased(rows, act.id))
  {
    if w.journal.claims == map[] {
      ClaimDecides(w.table.actions, w.now, act.id, gate);
    } else {
      assert act.id in w.journal.claims;
    }
  }

  lemma ChosenIs(w: World, rows: Rows, act: ClaimedAction, gate: bool)
    requires TakenFrom(w, rows, act, gate) && (w.journal.claims != map[] ==> w.journal.claims == map[act.id := act])
    ensures Chosen(w, Some(act), gate)
  {
    if w.journal.claims == map[] {
      ClaimDecides(w.table.actions, w.now, act.id, gate);
    }
  }

  lemma DeliveredIs(w: World, rows: Rows, checks: map<Id, seq<Check>>, act: ClaimedAction, net: Net, r: Result, u: World)
    requires Leased(rows, act.id) && rows[act.id].payload == act.order
    requires Settles(rows, checks, w.now, act, r, u.table.actions, u.checks) && u.journal == Journal(map[], map[])
    requires if act.id in w.journal.results then r == w.journal.results[act.id] && u.company == w.company
             else Makes(w.company, act, net, r) && u.company == Booked(w.company, act, net)
    ensures Delivered(w, u, act, net)
  {
    SettledEnds(rows, checks, w.now, act, r, u.table.actions, u.checks);
    if act.id !in w.journal.results {
      MadeEnds(w.company, act, net, r, u.table.actions[act.id].status);
    }
  }

  class Agent {
    const cloud: ActionTable
    const db: JournalStore
    var company: map<nat, Voucher>
    ghost var seen: set<Voucher>
    ghost var misread: set<Id>
    ghost var keys: map<string, Id>
    ghost var desk: map<Id, DeskStep>
    ghost var pc: Pc

    constructor (cloud: ActionTable, db: JournalStore)
      ensures this.cloud == cloud && this.db == db && pc == Idle && company == map[]
    {
      this.cloud, this.db := cloud, db;
      company, seen, misread, keys, desk, pc := map[], {}, {}, map[], map[], Idle;
    }

    ghost function Here(): World
      reads this, cloud, db
    {
      World(Table(cloud.rows, keys, desk), cloud.checks, cloud.now, db.Entries(), pc, company, seen, misread)
    }

    /** The steps taken since `start`. */
    ghost predicate On(start: World, h: History)
      reads this, cloud, db
    {
      Lawful(start, h) && Last(h) == Here()
    }

    // -- one method for each step of a poll -----------------------------------------------------------

    method Claim(net: Net, ghost start: World, ghost past: History) returns (act: Option<ClaimedAction>, ghost h: History)
      requires On(start, past) && pc == Idle && db.claims == map[]
      modifies this`pc, cloud`rows
      ensures On(start, h) && pc == if act.Some? then GotClaim(act.value) else Idle
      ensures act.Some? ==> (cloud.rows, act) == ClaimRows(old(cloud.rows), cloud.now, Some(act.value.id), net.gate)
      ensures act.None? && net.gate && !net.claimLost && (forall id :: id in old(cloud.rows) ==> Valid(old(cloud.rows)[id].payload))
              ==> forall id :: id in old(cloud.rows) ==> !Takeable(old(cloud.rows)[id], cloud.now)
    {
      ghost var rows := cloud.rows;
      var reply, pick := cloud.ClaimAction(net.gate);
      act := if net.claimLost then None else reply;
      pc := if act.Some? then GotClaim(act.value) else Idle;
      if pick.Some? {
        ClaimDecides(rows, cloud.now, pick.value, net.gate);
      }
      Extended(start, past, Event.Claim(pick, net.gate, net.claimLost));
      h := Extend(past, Event.Claim(pick, net.gate, net.claimLost), Here());
    }

    method Resume(ghost start: World, ghost past: History) returns (act: Option<ClaimedAction>, ghost h: History)
      requires On(start, past) && pc == Idle
      requires forall a, b :: a in db.claims && b in db.claims ==> a == b
      requires forall id :: id in db.claims ==> db.claims[id].id == id
      modifies this`pc
      ensures On(start, h) && pc == if act.Some? then Holding(act.value) else Idle
      ensures if db.claims == map[] then act == None else act.Some? && db.claims == map[act.value.id := act.value]
    {
      h := past;
      act := db.PendingClaim();
      if act.Some? {
        assert db.claims == map[act.value.id := act.value];
        PollResumes(Here(), act.value.id, act.value);
        Extended(start, past, Poll);
        pc := Holding(act.value);
        h := Extend(past, Poll, Here());
      }
    }

    method Keep(act: ClaimedAction, ghost start: World, ghost past: History) returns (ghost h: History)
      requires On(start, past) && pc == GotClaim(act)
      modifies this`pc, db`claims
      ensures On(start, h) && pc == Holding(act)
      ensures db.claims == if act.id in old(db.claims) then old(db.claims) else old(db.claims)[act.id := act]
    {
      Extended(start, past, Event.SaveClaim);
      db.SaveClaim(act);
      pc := Holding(act);
      h := Extend(past, Event.SaveClaim, Here());
    }

    method RenewLease(act: ClaimedAction, net: Net, ghost start: World, ghost past: History) returns (ok: bool, ghost h: History)
      requires On(start, past) && pc == Holding(act)
      modifies this`pc, cloud`rows
      ensures On(start, h) && pc == if ok then Renewed(act) else Idle
      ensures ok <==> net.renewed && !net.renewLost && Leased(old(cloud.rows), act.id)
      ensures ok ==> cloud.rows == RenewRows(old(cloud.rows), act.id, cloud.now)
    {
      Extended(start, past, Event.Renew(net.renewed, net.renewLost));
      ok := false;
      if net.renewed {
        ok := cloud.RenewLease(act.id);
      }
      ok := ok && !net.renewLost;
      pc := if ok then Renewed(act) else Idle;
      h := Extend(past, Event.Renew(net.renewed, net.renewLost), Here());
    }

    method SavedResult(act: ClaimedAction, ghost start: World, ghost past: History)
      returns (r: Option<Result>, ghost h: History)
      requires On(start, past) && pc == Renewed(act)
      modifies this`pc
      ensures On(start, h) && pc == if r.Some? then Reporting(act, r.value) else Searching(act)
      ensures r == if act.id in db.results then Some(db.results[act.id]) else None
    {
      Extended(start, past, LoadResult);
      r := db.PendingResult(act.id);
      pc := if r.Some? then Reporting(act, r.value) else Searching(act);
      h := Extend(past, LoadResult, Here());
    }

    /** The register of the voucher's date, searched for the remote id. */
    method Lookup(act: ClaimedAction) returns (v: Option<Voucher>)
      requires Unique(company) && act.remoteId == RemoteId(act.id)
      ensures v == Find(company, act.order.date, act.remoteId)
    {
      v := None;
      if slot :| slot in company && company[slot].date == act.order.date && company[slot].remoteId == act.remoteId {
        assert Listing(company, act.order.date, act.remoteId, slot);
        v := Some(company[slot]);
      } else {
        assert forall slot :: !Listing(company, act.order.date, act.remoteId, slot);
      }
    }

    /** One register export and what action_result makes of it. */
    method Look(act: ClaimedAction, reply: ExportReply) returns (r: Option<Result>)
      requires Unique(company) && act.remoteId == RemoteId(act.id)
      ensures r == Looked(Here(), act, reply)
    {
      if !reply.Listed? {
        return Some(ExportFailure(reply));
      }
      var v := Lookup(act);
      r := if v.Some? then Some(Success(v.value, act.order.companyGuid)) else None;
    }

    method Search(act: ClaimedAction, net: Net, ghost start: World, ghost past: History)
      returns (r: Option<Result>, ghost h: History)
      requires On(start, past) && pc == Searching(act) && Unique(company) && act.remoteId == RemoteId(act.id)
      modifies this`pc, this`misread
      ensures On(start, h) && pc == if r.Some? then Executed(act, r.value) else Importing(act)
      ensures var v := Find(company, act.order.date, act.remoteId);
        r == if net.search.ExportDenied? then Some(Rejected)
             else if net.search.ExportBroken? then Some(Unverified)
             else if v.Some? then Some(Success(v.value, act.order.companyGuid)) else None
    {
      Extended(start, past, Event.Search(net.search));
      LookedTells(Here(), act, net.search);
      misread := Noted(Here(), act, net.search);
      r := Look(act, net.search);
      pc := if r.Some? then Executed(act, r.value) else Importing(act);
      h := Extend(past, Event.Search(net.search), Here());
    }

    method Import(act: ClaimedAction, net: Net, ghost start: World, ghost past: History)
      returns (r: Option<Result>, ghost h: History)
      requires On(start, past) && pc == Importing(act) && net.slot !in company && HonestImport(net.commits, net.answer)
      modifies this`pc, this`company, this`seen
      ensures On(start, h) && pc == if r.Some? then Executed(act, r.value) else ReadingBack(act)
      ensures r == if net.answer.Created? then None else if net.answer.ImportUnclear? then Some(Unverified) else Some(Rejected)
      ensures company == if net.commits then old(company)[net.slot := Stored(act, net)] else old(company)
    {
      ghost var e := Event.Import(net.slot, if net.commits then Some(Stored(act, net)) else None, net.answer);
      Extended(start, past, e);
      if net.commits {
        company := company[net.slot := Stored(act, net)];
        seen := seen + {Stored(act, net)};
      }
      r := if net.answer.Created? then None else Some(ImportFailure(net.answer));
      pc := if r.Some? then Executed(act, r.value) else ReadingBack(act);
      h := Extend(past, e, Here());
    }

    method ReadBack(act: ClaimedAction, net: Net, ghost start: World, ghost past: History) returns (r: Result, ghost h: History)
      requires On(start, past) && pc == ReadingBack(act) && Unique(company) && act.remoteId == RemoteId(act.id)
      modifies this`pc, this`misread
      ensures On(start, h) && pc == Executed(act, r)
      ensures var v := Find(company, act.order.date, act.remoteId);
        r == if net.readBack.ExportDenied? then Rejected
             else if net.readBack.Listed? && v.Some? then Success(v.value, act.order.companyGuid) else Unverified
    {
      Extended(start, past, Event.ReadBack(net.readBack));
      LookedTells(Here(), act, net.readBack);
      misread := Noted(Here(), act, net.readBack);
      var found := Look(act, net.readBack);
      r := if found.Some? then found.value else Unverified;
      pc := Executed(act, r);
      h := Extend(past, Event.ReadBack(net.readBack), Here());
    }

    method SaveResult(act: ClaimedAction, r: Result, ghost start: World, ghost past: History) returns (ghost h: History)
      requires On(start, past) && pc == Executed(act, r)
      modifies this`pc, db`results
      ensures On(start, h) && pc == Reporting(act, r) && db.results == old(db.results)[act.id := r]
    {
      Extended(start, past, Event.SaveResult);
      db.SaveResult(act.id, r);
      pc := Reporting(act, r);
      h := Extend(past, Event.SaveResult, Here());
    }

    method Report(act: ClaimedAction, r: Result, net: Net, ghost start: World, ghost past: History)
      returns (ok: bool, ghost h: History)
      requires On(start, past) && pc == Reporting(act, r)
      modifies this`pc, cloud`rows, cloud`checks
      ensures On(start, h) && pc == if ok then Reported(act) else Idle
      ensures ok <==> net.reported && !net.reportLost && Leased(old(cloud.rows), act.id)
      ensures ok ==> (cloud.rows, cloud.checks, true) == ReportRows(old(cloud.rows), old(cloud.checks), act.id, r)
    {
      Extended(start, past, Event.Report(net.reported, net.reportLost));
      ok := false;
      if net.reported {
        ok := cloud.ReportResult(act.id, r);
      }
      ok := ok && !net.reportLost;
      pc := if ok then Reported(act) else Idle;
      h := Extend(past, Event.Report(net.reported, net.reportLost), Here());
    }

    method Complete(act: ClaimedAction, ghost start: World, ghost past: History) returns (ghost h: History)
      requires On(start, past) && pc == Reported(act)
      modifies this`pc, db
      ensures On(start, h) && pc == Idle
      ensures db.Entries() == Journal(old(db.claims) - {act.id}, old(db.results) - {act.id})
    {
      Extended(start, past, Event.Complete);
      db.CompleteAction(act.id);
      pc := Idle;
      h := Extend(past, Event.Complete, Here());
    }

    /** The process dies here if `net` says so, and loses everything but the journal. */
    method MayDie(step: nat, net: Net, ghost start: World, ghost past: History) returns (dead: bool, ghost h: History)
      requires On(start, past)
      modifies this`pc
      ensures On(start, h) && (dead <==> net.dies == step)
      ensures if dead then pc == Idle else h == past && pc == old(pc)
    {
      dead := net.dies == step;
      h := past;
      if dead {
        Extended(start, past, Crash);
        pc := Idle;
        h := Extend(past, Crash, Here());
      }
    }

    // -- poll_now and what it calls ---------------------------------------------------------------------

    ghost predicate Ready(net: Net)
      reads this
    {
      net.slot !in company && HonestImport(net.commits, net.answer)
    }

    method ReportAndComplete(act: ClaimedAction, r: Result, net: Net, ghost start: World, ghost past: History)
      returns (ghost h: History)
      requires On(start, past) && pc == Reporting(act, r)
      modifies this`pc, cloud`rows, cloud`checks, db
      ensures On(start, h) && pc == Idle
      ensures Quiet(net) && Leased(old(cloud.rows), act.id) ==>
        && db.Entries() == Journal(old(db.claims) - {act.id}, old(db.results) - {act.id})
        && (cloud.rows, cloud.checks, true) == ReportRows(old(cloud.rows), old(cloud.checks), act.id, r)
    {
      var ok;
      ok, h := Report(act, r, net, start, past);
      if !ok {
        return;
      }
      var dead;
      dead, h := MayDie(8, net, start, h);
      if dead {
        return;
      }
      h := Complete(act, start, h);
    }

    /** The import of a voucher that was not found, and its read-back. */
    method Create(act: ClaimedAction, net: Net, ghost start: World, ghost past: History)
      returns (r: Option<Result>, ghost h: History)
      requires On(start, past) && pc == Importing(act) && Ready(net) && Sound(company, act)
      requires Find(company, act.order.date, act.remoteId) == None
      modifies this`pc, this`misread, this`company, this`seen
      ensures On(start, h) && pc == if r.Some? then Executed(act, r.value) else Idle
      ensures Quiet(net) ==> r.Some? && Imported(act, net, r.value)
      ensures company == if net.commits then old(company)[net.slot := Stored(act, net)] else old(company)
    {
      ImportedIsFound(company, act.order.date, act.id, net.slot, Stored(act, net));
      r, h := Import(act, net, start, past);
      if r.Some? {
        return;
      }
      var dead, after;
      dead, h := MayDie(5, net, start, h);
      if dead {
        return;
      }
      after, h := ReadBack(act, net, start, h);
      r := Some(after);
    }

    method CreateVoucher(act: ClaimedAction, net: Net, ghost start: World, ghost past: History)
      returns (r: Option<Result>, ghost h: History)
      requires On(start, past) && pc == Searching(act) && Ready(net) && Sound(company, act)
      modifies this`pc, this`misread, this`company, this`seen
      ensures On(start, h) && pc == if r.Some? then Executed(act, r.value) else Idle
      ensures Quiet(net) ==> r.Some? && Makes(old(company), act, net, r.value) && company == Booked(old(company), act, net)
    {
      r, h := Search(act, net, start, past);
      if r.Some? {
        return;
      }
      var dead;
      dead, h := MayDie(4, net, start, h);
      if dead {
        return;
      }
      r, h := Create(act, net, start, h);
    }

    /** Create the voucher, save the result and report it. */
    method Execute(act: ClaimedAction, net: Net, ghost start: World, ghost past: History)
      returns (ghost result: Result, ghost h: History)
      requires On(start, past) && pc == Searching(act) && Ready(net) && Sound(company, act)
      modifies this`pc, this`misread, this`company, this`seen, cloud`rows, cloud`checks, db
      ensures On(start, h) && pc == Idle
      ensures Quiet(net) && Leased(old(cloud.rows), act.id) ==>
        && db.Entries() == Journal(old(db.claims) - {act.id}, old(db.results) - {act.id})
        && (cloud.rows, cloud.checks, true) == ReportRows(old(cloud.rows), old(cloud.checks), act.id, result)
        && Makes(old(company), act, net, result) && company == Booked(old(company), act, net)
    {
      result := Unverified;
      ghost var results := db.results;
      var created, dead;
      created, h := CreateVoucher(act, net, start, past);
      if created.None? {
        return;
      }
      result := created.value;
      dead, h := MayDie(6, net, start, h);
      if dead {
        return;
      }
      h := SaveResult(act, created.value, start, h);
      assert db.results - {act.id} == results - {act.id};
      dead, h := MayDie(7, net, start, h);
      if dead {
        return;
      }
      h := ReportAndComplete(act, created.value, net, start, h);
    }

    /** A saved result is reported again; without one the voucher is created. */
    method Deliver(act: ClaimedAction, net: Net, ghost start: World, ghost past: History)
      returns (ghost result: Result, ghost h: History)
      requires On(start, past) && pc == Renewed(act) && Ready(net)
      requires act.id !in db.results ==> Sound(company, act)
      modifies this`pc, this`misread, this`company, this`seen, cloud`rows, cloud`checks, db
      ensures On(start, h) && pc == Idle
      ensures Quiet(net) && Leased(old(cloud.rows), act.id) ==>
        && db.Entries() == Journal(old(db.claims) - {act.id}, old(db.results) - {act.id})
        && (cloud.rows, cloud.checks, true) == ReportRows(old(cloud.rows), old(cloud.checks), act.id, result)
        && (if act.id in old(db.results) then result == old(db.results)[act.id] && company == old(company)
            else Makes(old(company), act, net, result) && company == Booked(old(company), act, net))
    {
      var saved;
      saved, h := SavedResult(act, start, past);
      if saved.Some? {
        result := saved.value;
        h := ReportAndComplete(act, saved.value, net, start, h);
      } else {
        result, h := Execute(act, net, start, h);
      }
    }

    /** The renewal that goes before everything else. */
    method ProcessPending(act: ClaimedAction, net: Net, ghost start: World, ghost past: History)
      returns (ghost result: Result, ghost h: History)
      requires On(start, past) && pc == Holding(act) && Ready(net)
      requires act.id !in db.results ==> Sound(company, act)
      modifies this`pc, this`misread, this`company, this`seen, cloud`rows, cloud`checks, db
      ensures On(start, h) && pc == Idle
      ensures Quiet(net) && Leased(old(cloud.rows), act.id) ==>
        && db.Entries() == Journal(old(db.claims) - {act.id}, old(db.results) - {act.id})
        && Settles(old(cloud.rows), old(cloud.checks), cloud.now, act, result, cloud.rows, cloud.checks)
        && (if act.id in old(db.results) then result == old(db.results)[act.id] && company == old(company)
            else Makes(old(company), act, net, result) && company == Booked(old(company), act, net))
    {
      result := Unverified;
      var ok, dead;
      ok, h := RenewLease(act, net, start, past);
      if !ok {
        return;
      }
      dead, h := MayDie(3, net, start, h);
      if dead {
        return;
      }
      result, h := Deliver(act, net, start, h);
    }

    /** What is in the journal is taken up; only with an empty journal is a new action claimed, and kept. */
    method TakeUp(net: Net, ghost start: World, ghost past: History) returns (act: Option<ClaimedAction>, ghost h: History)
      requires On(start, past) && pc == Idle
      requires forall a, b :: a in db.claims && b in db.claims ==> a == b
      requires forall id :: id in db.claims ==> db.claims[id].id == id
      modifies this`pc, cloud`rows, db`claims
      ensures On(start, h) && pc == if act.Some? then Holding(act.value) else Idle
      ensures act.Some? ==> db.claims == map[act.value.id := act.value]
      ensures old(db.claims) != map[] ==> cloud.rows == old(cloud.rows) && db.claims == old(db.claims)
      ensures old(db.claims) != map[] && Quiet(net) ==> act.Some?
      ensures act.Some? && old(db.claims) == map[] ==>
        (cloud.rows, act) == ClaimRows(old(cloud.rows), cloud.now, Some(act.value.id), net.gate)
      ensures act.None? && old(db.claims) == map[] && Quiet(net) && net.gate
              && (forall id :: id in old(cloud.rows) ==> Valid(old(cloud.rows)[id].payload))
              ==> forall id :: id in old(cloud.rows) ==> !Takeable(old(cloud.rows)[id], cloud.now)
    {
      var dead;
      act, h := Resume(start, past);
      if act.None? {
        act, h := Claim(net, start, h);
        if act.None? {
          return;
        }
        dead, h := MayDie(1, net, start, h);
        if dead {
          act := None;
          return;
        }
        h := Keep(act.value, start, h);
      }
      dead, h := MayDie(2, net, start, h);
      if dead {
        act := None;
      }
    }

    method WorkOn(act: ClaimedAction, net: Net, ghost w: World, ghost start: World, ghost past: History) returns (ghost h: History)
      requires On(start, past) && pc == Holding(act) && Ready(net) && Pollable(w)
      requires TakenFrom(w, cloud.rows, act, net.gate) && db.claims == map[act.id := act] && db.results == w.journal.results
      requires (w.journal.claims != map[] ==> w.journal.claims == db.claims) && company == w.company && cloud.now == w.now
      modifies this`pc, this`misread, this`company, this`seen, cloud`rows, cloud`checks, db
      ensures On(start, h) && pc == Idle
      ensures Quiet(net) && Leased(old(cloud.rows), act.id) ==> Delivered(w, Here(), act, net)
    {
      TakenFits(w, cloud.rows, act, net.gate);
      ghost var rows, checks, result := cloud.rows, cloud.checks, Unverified;
      result, h := ProcessPending(act, net, start, past);
      if Quiet(net) && Leased(rows, act.id) {
        assert db.Entries() == Journal(map[], map[]);
        DeliveredIs(w, rows, checks, act, net, result, Here());
      }
    }

    method Work(net: Net, ghost start: World, ghost past: History) returns (ghost act: Option<ClaimedAction>, ghost h: History)
      requires On(start, past) && pc == Idle && Ready(net) && Pollable(Here())
      modifies this`pc, this`misread, this`company, this`seen, cloud`rows, cloud`checks, db
      ensures On(start, h) && pc == Idle
      ensures Quiet(net) ==> Chosen(old(Here()), act, net.gate)
      ensures Quiet(net) && act.Some? && (old(db.claims) != map[] ==> Leased(old(cloud.rows), act.value.id)) ==>
        Delivered(old(Here()), Here(), act.value, net)
    {
      ghost var w := Here();
      var taken;
      taken, h := TakeUp(net, start, past);
      act := taken;
      if taken.Some? {
        ChosenIs(w, cloud.rows, taken.value, net.gate);
        TakenFits(w, cloud.rows, taken.value, net.gate);
        h := WorkOn(taken.value, net, w, start, h);
      }
    }

    /** One poll, whatever it meets and wherever it dies, is a run of the protocol and keeps its invariant.  If nothing
        dies and nothing is lost, it takes up what is journalled, or else what may be claimed, and as long as the
        cloud still leases that to the agent it leaves the journal empty, and action and books where the evidence
        puts them. */
    method PollNow(net: Net) returns (ghost act: Option<ClaimedAction>, ghost events: seq<Event>)
      requires Inv(Here()) && pc == Idle && Ready(net)
      modifies this`pc, this`misread, this`company, this`seen, cloud`rows, cloud`checks, db
      ensures Here() == Run(old(Here()), events) && Inv(Here()) && pc == Idle
      ensures Quiet(net) ==> Chosen(old(Here()), act, net.gate)
      ensures Quiet(net) && act.Some? && (old(db.claims) != map[] ==> Leased(old(cloud.rows), act.value.id)) ==>
        Delivered(old(Here()), Here(), act.value, net)
    {
      ghost var start := Here();
      ghost var h := History([start], []);
      InvIsPollable(start);
      act, h := Work(net, start, h);
      LawfulIsRun(start, h);
      LawfulIsTimely(start, h);
      RunKeeps(start, h.events);
      events := h.events;
    }
  }
}
