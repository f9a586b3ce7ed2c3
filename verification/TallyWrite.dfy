/**
 The Tally write protocol: the cloud action table, the desktop agent with its durable journal, and the
 local Tally company, as one state machine.  The agent may crash between any two of its steps and any
 reply may be lost.

 Assumptions: one active device with one poll loop; a request is processed before its client gives up
 or not at all; a committed import is visible in the next register export; people working in Tally may
 add, change, re-date and delete vouchers, but they do not type remote ids of the form firmos:... and do
 not change one.
 The write gate of the claim endpoint is an arbitrary boolean.
 */
module TallyWrite {
  import opened Options
  import opened FinanceActions
  import opened Canonical

  const LEASE_SECONDS := 90
  const MAX_CLAIMS := 3

  type Row = Action<Order>
  type Rows = map<Id, Row>

  /** The claim reply, which is also what the journal keeps. */
  datatype ClaimedAction = ClaimedAction(id: Id, remoteId: string, order: Order)

  /** Reports: PROVIDER_ACCEPTED, FAILED (a definite rejection) and AMBIGUOUS. */
  datatype Result = Accepted(guid: string, readback: Readback) | Rejected | Unverified

  datatype Journal = Journal(claims: map<Id, ClaimedAction>, results: map<Id, Result>)

  /** A row of verification_results; its status is MATCHED exactly when `differences` is empty. */
  datatype Check = Check(readback: Readback, differences: set<Field>)

  /** Where the agent's one poll is. */
  datatype Pc =
    | Idle
    | GotClaim(act: ClaimedAction)
    | Holding(act: ClaimedAction)
    | Renewed(act: ClaimedAction)
    | Searching(act: ClaimedAction)
    | Importing(act: ClaimedAction)
    | ReadingBack(act: ClaimedAction)
    | Executed(act: ClaimedAction, result: Result)
    | Reporting(act: ClaimedAction, result: Result)
    | Reported(act: ClaimedAction)

  /** `seen` and `misread` are history: every voucher version the company ever held, and every action whose
      voucher stood in the books when Tally refused an export that looked for it or showed it without a GUID. */
  datatype World = World(
    table: Table<Order>, checks: map<Id, seq<Check>>, now: int,
    journal: Journal, pc: Pc,
    company: map<nat, Voucher>, seen: set<Voucher>, misread: set<Id>)

  datatype ExportReply = Listed | ExportDenied | ExportBroken

  /** How the import reply reads: created exactly one, errors or ignored lines, 401/403, anything else. */
  datatype ImportReply = Created | LineErrors | ImportDenied | ImportUnclear

  datatype Event =
    | Propose(id: Id, key: string, order: Order)
    | Approve(id: Id, reviewed: Digest<Order>)
    | Enqueue(id: Id)
    | Cancel(id: Id)
    | Clock(seconds: nat)
    | Poll
    | Claim(pick: Option<Id>, gate: bool, lost: bool)
    | SaveClaim
    | Renew(reached: bool, lost: bool)
    | LoadResult
    | Search(reply: ExportReply)
    | Import(slot: nat, stored: Option<Voucher>, answer: ImportReply)
    | ReadBack(reply: ExportReply)
    | SaveResult
    | Report(reached: bool, lost: bool)
    | Complete
    | Crash
    | UserAdds(slot: nat, v: Voucher)
    | UserEdits(slot: nat, v: Voucher)
    | UserDeletes(slot: nat)

  // ---- the cloud side --------------------------------------------------------------------------

  function Lapse(a: Row, now: int): Row {
    if a.status == Claimed && a.lease.Some? && a.lease.value < now then a.(status := RetryScheduled, lease := None) else a
  }

  function Release(a: Row): Row {
    if a.status == RetryScheduled && a.attempts < MAX_CLAIMS then a.(status := Queued) else a
  }

  /** The two bulk updates that open the claim transaction. */
  function Requeue(rows: Rows, now: int): Rows {
    map id | id in rows :: Release(Lapse(rows[id], now))
  }

  predicate Claimable(a: Row) {
    a.status == Queued && a.attempts < MAX_CLAIMS
  }

  /** Any claimable row may be the one taken: SKIP LOCKED passes over rows another transaction holds.
      A refused gate or an invalid payload raises, which rolls the requeue back too. */
  function ClaimRows(rows: Rows, now: int, pick: Option<Id>, gate: bool): (Rows, Option<ClaimedAction>) {
    Take(Requeue(rows, now), rows, now, pick, gate)
  }

  function Take(ready: Rows, rows: Rows, now: int, pick: Option<Id>, gate: bool): (Rows, Option<ClaimedAction>) {
    if pick.None? then (ready, None)
    else if !(pick.value in ready && Claimable(ready[pick.value]) && gate && Valid(ready[pick.value].payload)) then (rows, None)
    else
      var a := ready[pick.value];
      (ready[pick.value := a.(status := Claimed, lease := Some(now + LEASE_SECONDS), attempts := a.attempts + 1)],
       Some(ClaimedAction(pick.value, RemoteId(pick.value), a.payload)))
  }

  predicate Leased(rows: Rows, id: Id) {
    id in rows && rows[id].status == Claimed && rows[id].lease.Some?
  }

  function RenewRows(rows: Rows, id: Id, now: int): Rows {
    if Leased(rows, id) then rows[id := rows[id].(lease := Some(now + LEASE_SECONDS))] else rows
  }

  /** What the read-back of an accepted report differs in, its GUID included. */
  function Differences(order: Order, r: Result, id: Id): set<Field>
    requires r.Accepted?
  {
    Mismatches(order, r.readback, RemoteId(id)) + When(r.readback.voucher.guid != r.guid, GuidField)
  }

  /** A report that report_result does not look at further: an error, or a voucher without GUID or read-back. */
  predicate Unread(r: Result) {
    !r.Accepted? || r.guid == ""
  }

  /** Where report_result leaves the action; `clean` says that the read-back differs in nothing. */
  function Verdict(r: Result, clean: bool): Status {
    if Unread(r) then (if r.Unverified? then NeedsReview else Failed) else if clean then Succeeded else NeedsReview
  }

  /** The same as the chain of UPDATE statements it is written as, each one checked by the trigger. */
  function Settle(a: Row, r: Result, clean: bool): Option<Row> {
    var executing := Move(a, Executing, false);
    if executing.None? then None
    else if Unread(r) then
      Move(executing.value.(lease := None), if r.Unverified? then NeedsReview else Failed, false)
    else
      var accepted := Move(executing.value, ProviderAccepted, false);
      if accepted.None? then None
      else
        var verifying := Move(accepted.value, Verifying, false);
        if verifying.None? then None
        else Move(verifying.value.(lease := None), if clean then Succeeded else NeedsReview, clean)
  }

  /** The trigger lets every one of those updates through on a claimed row, and they add up to the verdict. */
  lemma SettleIsVerdict(a: Row, r: Result, clean: bool)
    requires a.status == Claimed
    ensures Settle(a, r, clean) == Some(a.(status := Verdict(r, clean), lease := None))
  {
  }

  function Checks(checks: map<Id, seq<Check>>, id: Id): seq<Check> {
    if id in checks then checks[id] else []
  }

  function ReportRows(rows: Rows, checks: map<Id, seq<Check>>, id: Id, r: Result): (Rows, map<Id, seq<Check>>, bool) {
    if !Leased(rows, id) then (rows, checks, false)
    else if Unread(r) then (rows[id := rows[id].(status := Verdict(r, false), lease := None)], checks, true)
    else
      var check := Check(r.readback, Differences(rows[id].payload, r, id));
      (rows[id := rows[id].(status := Verdict(r, check.differences == {}), lease := None)],
       checks[id := Checks(checks, id) + [check]], true)
  }

  // ---- the agent side --------------------------------------------------------------------------

  /** A voucher in the register of `date` that carries the remote id; parse_vouchers(..).find(..). */
  ghost predicate Listing(company: map<nat, Voucher>, date: string, remoteId: string, slot: nat) {
    slot in company && company[slot].date == date && company[slot].remoteId == remoteId
  }

  ghost predicate Present(company: map<nat, Voucher>, remoteId: string) {
    exists slot :: slot in company && company[slot].remoteId == remoteId
  }

  ghost function Find(company: map<nat, Voucher>, date: string, remoteId: string): Option<Voucher> {
    if exists slot :: Listing(company, date, remoteId, slot) then
      var slot :| Listing(company, date, remoteId, slot);
      Some(company[slot])
    else None
  }

  function Success(v: Voucher, companyGuid: string): Result {
    Accepted(v.guid, Readback(v, VoucherTotal(v.entries), companyGuid))
  }

  /** action_result on an error: only an import error and a refused request count as definite. */
  function ExportFailure(reply: ExportReply): Result
    requires !reply.Listed?
  {
    if reply.ExportDenied? then Rejected else Unverified
  }

  function ImportFailure(reply: ImportReply): Result
    requires !reply.Created?
  {
    if reply.ImportUnclear? then Unverified else Rejected
  }

  /** A Tally that answers truthfully: `created` only after a commit, a rejection only without one. */
  predicate HonestImport(committed: bool, reply: ImportReply) {
    match reply
    case Created => committed
    case LineErrors => !committed
    case ImportDenied => !committed
    case ImportUnclear => true
  }

  /** The counts of an import reply. */
  datatype ImportCounts = ImportCounts(created: int, altered: int, combined: int, ignored: int, errors: int, lineErrors: nat)

  /** require_created. */
  function ReadCounts(c: ImportCounts): ImportReply {
    if c.errors > 0 || c.ignored > 0 || c.lineErrors > 0 then LineErrors
    else if c.created == 1 && c.altered == 0 && c.combined == 0 then Created
    else ImportUnclear
  }

  /** A Tally that counts truthfully the one voucher it is asked to create: without a complaint the counts add up. */
  predicate Truthful(committed: bool, c: ImportCounts) {
    && (c.errors > 0 || c.ignored > 0 || c.lineErrors > 0 ==> !committed)
    && c.created + c.altered + c.combined == (if committed then 1 else 0)
    && c.created >= 0 && c.altered >= 0 && c.combined >= 0
  }

  /** Reading the counts strictly keeps a truthful Tally honest; `created` is read only from a new voucher. */
  lemma StrictReadingIsHonest(committed: bool, c: ImportCounts)
    requires Truthful(committed, c)
    ensures HonestImport(committed, ReadCounts(c))
    ensures ReadCounts(c).Created? <==> committed && c.created == 1
    ensures ReadCounts(c).LineErrors? <==> c.errors > 0 || c.ignored > 0 || c.lineErrors > 0
  {
  }

  /** The voucher Tally stores for the agent's request carries its remote id and its date. */
  predicate Imports(act: ClaimedAction, v: Voucher) {
    v.remoteId == act.remoteId && v.date == act.order.date
  }

  /** The action is journalled and no result has been saved for it, so a restart will search again. */
  predicate Unsettled(j: Journal, remoteId: string) {
    exists id | id in j.claims :: j.claims[id].remoteId == remoteId && id !in j.results
  }

  // ---- one step --------------------------------------------------------------------------------

  ghost function CloudStep(w: World, e: Event): World
    requires e.Propose? || e.Approve? || e.Enqueue? || e.Cancel? || e.Clock?
  {
    match e
    case Propose(id, key, order) => w.(table := ProposeRow(w.table, id, key, order))
    case Approve(id, reviewed) => w.(table := ApproveRow(w.table, id, reviewed))
    case Enqueue(id) => w.(table := QueueRow(w.table, id))
    case Cancel(id) => w.(table := CancelRow(w.table, id))
    case Clock(seconds) => w.(now := w.now + seconds)
  }

  /** poll_now resumes the journal before it asks for new work. */
  ghost function PollStep(w: World): World {
    if w.pc != Idle || w.journal.claims == map[] then w
    else
      var id :| id in w.journal.claims;
      w.(pc := Holding(w.journal.claims[id]))
  }

  ghost function ClaimStep(w: World, pick: Option<Id>, gate: bool, lost: bool): World {
    if w.pc != Idle || w.journal.claims != map[] then w
    else
      var (rows, act) := ClaimRows(w.table.actions, w.now, pick, gate);
      w.(table := w.table.(actions := rows),
         pc := if act.Some? && !lost then GotClaim(act.value) else Idle)
  }

  ghost function SaveClaimStep(w: World): World {
    if !w.pc.GotClaim? then w
    else w.(journal := w.journal.(claims := if w.pc.act.id in w.journal.claims then w.journal.claims
                                            else w.journal.claims[w.pc.act.id := w.pc.act]),
            pc := Holding(w.pc.act))
  }

  ghost function RenewStep(w: World, reached: bool, lost: bool): World {
    if !w.pc.Holding? then w
    else if !reached then w.(pc := Idle)
    else w.(table := w.table.(actions := RenewRows(w.table.actions, w.pc.act.id, w.now)),
            pc := if lost || !Leased(w.table.actions, w.pc.act.id) then Idle else Renewed(w.pc.act))
  }

  /** A saved result is replayed; only without one is the voucher created. */
  ghost function LoadStep(w: World): World {
    if !w.pc.Renewed? then w
    else if w.pc.act.id in w.journal.results then w.(pc := Reporting(w.pc.act, w.journal.results[w.pc.act.id]))
    else w.(pc := Searching(w.pc.act))
  }

  /** What the agent makes of a voucher it finds, or of an export it does not get. */
  ghost function Looked(w: World, act: ClaimedAction, reply: ExportReply): Option<Result> {
    if !reply.Listed? then Some(ExportFailure(reply))
    else match Find(w.company, act.order.date, act.remoteId)
      case Some(v) => Some(Success(v, act.order.companyGuid))
      case None => None
  }

  /** The export was refused, or showed no GUID, although the voucher stands in the books. */
  ghost predicate Misreads(w: World, act: ClaimedAction, reply: ExportReply) {
    || (reply.ExportDenied? && Present(w.company, act.remoteId))
    || (reply.Listed? && Find(w.company, act.order.date, act.remoteId).Some?
        && Find(w.company, act.order.date, act.remoteId).value.guid == "")
  }

  ghost function Noted(w: World, act: ClaimedAction, reply: ExportReply): set<Id> {
    if Misreads(w, act, reply) then w.misread + {act.id} else w.misread
  }

  ghost function SearchStep(w: World, reply: ExportReply): World {
    if !w.pc.Searching? then w
    else
      var act := w.pc.act;
      w.(misread := Noted(w, act, reply),
         pc := match Looked(w, act, reply) case Some(r) => Executed(act, r) case None => Importing(act))
  }

  ghost function ImportStep(w: World, slot: nat, stored: Option<Voucher>, answer: ImportReply): World {
    if !w.pc.Importing? || slot in w.company || !HonestImport(stored.Some?, answer)
       || (stored.Some? && !Imports(w.pc.act, stored.value)) then w
    else
      var act := w.pc.act;
      var pc' := if answer.Created? then ReadingBack(act) else Executed(act, ImportFailure(answer));
      if stored.None? then w.(pc := pc')
      else w.(pc := pc', company := w.company[slot := stored.value], seen := w.seen + {stored.value})
  }

  ghost function ReadBackStep(w: World, reply: ExportReply): World {
    if !w.pc.ReadingBack? then w
    else
      var act := w.pc.act;
      w.(misread := Noted(w, act, reply),
         pc := match Looked(w, act, reply) case Some(r) => Executed(act, r) case None => Executed(act, Unverified))
  }

  ghost function SaveResultStep(w: World): World {
    if !w.pc.Executed? then w
    else w.(journal := w.journal.(results := w.journal.results[w.pc.act.id := w.pc.result]),
            pc := Reporting(w.pc.act, w.pc.result))
  }

  ghost function ReportStep(w: World, reached: bool, lost: bool): World {
    if !w.pc.Reporting? then w
    else if !reached then w.(pc := Idle)
    else
      var (rows, checks, ok) := ReportRows(w.table.actions, w.checks, w.pc.act.id, w.pc.result);
      w.(table := w.table.(actions := rows), checks := checks, pc := if ok && !lost then Reported(w.pc.act) else Idle)
  }

  ghost function CompleteStep(w: World): World {
    if !w.pc.Reported? then w
    else w.(journal := Journal(w.journal.claims - {w.pc.act.id}, w.journal.results - {w.pc.act.id}), pc := Idle)
  }

  predicate MayAdd(w: World, slot: nat, v: Voucher) {
    slot !in w.company && !Ours(v.remoteId)
  }

  predicate MayEdit(w: World, slot: nat, v: Voucher) {
    slot in w.company && v.remoteId == w.company[slot].remoteId
  }

  ghost function UserStep(w: World, e: Event): World
    requires e.UserAdds? || e.UserEdits? || e.UserDeletes?
  {
    match e
    case UserAdds(slot, v) =>
      if MayAdd(w, slot, v) then w.(company := w.company[slot := v], seen := w.seen + {v}) else w
    case UserEdits(slot, v) =>
      if MayEdit(w, slot, v) then w.(company := w.company[slot := v], seen := w.seen + {v}) else w
    case UserDeletes(slot) => w.(company := w.company - {slot})
  }

  ghost function Next(w: World, e: Event): World {
    match e
    case Propose(_, _, _) => CloudStep(w, e)
    case Approve(_, _) => CloudStep(w, e)
    case Enqueue(_) => CloudStep(w, e)
    case Cancel(_) => CloudStep(w, e)
    case Clock(_) => CloudStep(w, e)
    case Poll => PollStep(w)
    case Claim(pick, gate, lost) => ClaimStep(w, pick, gate, lost)
    case SaveClaim => SaveClaimStep(w)
    case Renew(reached, lost) => RenewStep(w, reached, lost)
    case LoadResult => LoadStep(w)
    case Search(reply) => SearchStep(w, reply)
    case Import(slot, stored, answer) => ImportStep(w, slot, stored, answer)
    case ReadBack(reply) => ReadBackStep(w, reply)
    case SaveResult => SaveResultStep(w)
    case Report(reached, lost) => ReportStep(w, reached, lost)
    case Complete => CompleteStep(w)
    case Crash => w.(pc := Idle)
    case UserAdds(_, _) => UserStep(w, e)
    case UserEdits(_, _) => UserStep(w, e)
    case UserDeletes(_) => UserStep(w, e)
  }

  ghost function Run(w: World, events: seq<Event>): World
    decreases |events|
  {
    if events == [] then w else Run(Next(w, events[0]), events[1..])
  }

  /** A fresh table and journal beside a company that may already hold any number of ordinary vouchers. */
  ghost predicate Initial(w: World) {
    && w.table == Table(map[], map[], map[]) && w.checks == map[] && w.journal == Journal(map[], map[])
    && w.pc == Idle && w.misread == {}
    && (forall slot :: slot in w.company ==> !Ours(w.company[slot].remoteId) && w.company[slot] in w.seen)
  }
}
