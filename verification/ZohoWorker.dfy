/**
 The Zoho write path: the job table beside the action table, any number of workers, the retry scheduler,
 and a provider whose POST reply can be lost.

 Every statement outside a transaction is a step of its own, so a worker may die, and a cancel or an
 approval may interleave, between any two of them.  Assumptions: a POST is processed before its client
 gives up or not at all; a committed object is found by the next search for its reference; people working
 in Zoho may add, change and delete objects but do not change the reference of one.
 */
module ZohoWorker {
  import opened Options
  import opened FinanceActions

  const MAX_ATTEMPTS := 5

  type WorkerId = string
  type ObjectId = string

  /** The approved payload: its search key (reference or invoice number) and everything else. */
  datatype Bill = Bill(reference: string, body: string)

  /** `maker` is history: the action whose POST created the object, if one did. */
  datatype Object = Object(reference: string, body: string, maker: Option<Id>)

  type Row = Action<Bill>

  datatype Job = Job(status: Status, attempts: nat, owner: Option<WorkerId>)

  /** A row of verification_results. */
  datatype Check = Check(snapshot: Object, matched: bool)

  datatype Db = Db(
    table: Table<Bill>, jobs: map<Id, Job>, attempts: map<(Id, nat), Status>, deadLetters: set<Id>,
    checks: map<Id, seq<Check>>)

  /** Where a worker is with the job it claimed; `n` is the attempt count it read at the claim. */
  datatype Pc =
    | Asleep
    | Dead
    | Took(id: Id, n: nat)
    | Searching(id: Id, n: nat)
    | Posting(id: Id, n: nat)
    | Recovering(id: Id, n: nat)
    | Found(id: Id, n: nat, oid: ObjectId)
    | Accepted(id: Id, n: nat, oid: ObjectId)
    | ReadingBack(id: Id, n: nat, oid: ObjectId)
    | Matching(id: Id, n: nat, snapshot: Object)
    | Differing(id: Id, n: nat, snapshot: Object)
    | Finishing(id: Id, n: nat, outcome: Status, guarded: bool)

  datatype System = System(db: Db, cancelling: set<Id>, objects: map<ObjectId, Object>, workers: map<WorkerId, Pc>)

  datatype PostReply = Created | MissingId | Lost | RateLimited | Unauthorized | Refused

  datatype Event =
    | Propose(id: Id, key: string, bill: Bill)
    | Approve(id: Id, reviewed: Digest<Bill>)
    | Enqueue(id: Id)
    | InsertJob(id: Id)
    | Cancel(id: Id)
    | CancelJob(id: Id)
    | Tick(due: set<Id>)
    | Claim(w: WorkerId, id: Id)
    | Begin(w: WorkerId, blocked: bool)
    | Reject(w: WorkerId, registered: bool)
    | Search(w: WorkerId, answered: bool, detailed: bool)
    | Post(w: WorkerId, created: Option<ObjectId>, reply: PostReply)
    | Recover(w: WorkerId, answered: bool, detailed: bool)
    | NoteAccepted(w: WorkerId)
    | NoteVerifying(w: WorkerId)
    | ReadBack(w: WorkerId, answered: bool)
    | Conclude(w: WorkerId)
    | RecordMismatch(w: WorkerId)
    | Finish(w: WorkerId)
    | Explode(w: WorkerId)
    | Kill(w: WorkerId)
    | Adds(oid: ObjectId, value: Object)
    | Edits(oid: ObjectId, value: Object)
    | Deletes(oid: ObjectId)

  // ---- transactions on the database ------------------------------------------------------------------

  function InsertJobTx(db: Db, id: Id): Db {
    if !(id in db.table.desk && db.table.desk[id] == MustInsertJob) then db
    else db.(table := db.table.(desk := db.table.desk - {id}),
             jobs := if id in db.jobs then db.jobs else db.jobs[id := Job(Queued, 0, None)])
  }

  function CancelJobTx(db: Db, id: Id): Db {
    if id in db.jobs && db.jobs[id].status == Queued
    then db.(jobs := db.jobs[id := db.jobs[id].(status := Cancelled)]) else db
  }

  predicate Due(db: Db, due: set<Id>, id: Id) {
    id in due && id in db.jobs && db.jobs[id].status == RetryScheduled
  }

  /** `due` are the jobs whose available_at has passed. */
  function TickTx(db: Db, due: set<Id>): Db {
    db.(table := db.table.(actions := map id | id in db.table.actions ::
          if Due(db, due, id) && db.table.actions[id].status == RetryScheduled
          then db.table.actions[id].(status := Queued) else db.table.actions[id]),
        jobs := map id | id in db.jobs ::
          if Due(db, due, id) then db.jobs[id].(status := Queued) else db.jobs[id])
  }

  /** None: nothing to claim, or the new attempt row would break UNIQUE(job_id, attempt_number). */
  function ClaimTx(db: Db, w: WorkerId, id: Id): Option<Db> {
    if !(id in db.jobs && db.jobs[id].status == Queued && id in db.table.actions) then None
    else
      var n := db.jobs[id].attempts + 1;
      var a := db.table.actions[id];
      if (id, n) in db.attempts then None
      else Some(db.(table := db.table.(actions := db.table.actions[id := if a.status == Queued then a.(status := Claimed) else a]),
                    jobs := db.jobs[id := Job(Claimed, n, Some(w))],
                    attempts := db.attempts[(id, n) := Claimed]))
  }

  /** An UPDATE of one action's status; None when the trigger raises. */
  function StatusTx(db: Db, id: Id, to: Status): Option<Db> {
    if id !in db.table.actions then Some(db)
    else match Move(db.table.actions[id], to, false)
      case None => None
      case Some(a) => Some(db.(table := db.table.(actions := db.table.actions[id := a])))
  }

  function CountAttempt(db: Db, id: Id): Db {
    if id !in db.table.actions then db
    else db.(table := db.table.(actions := db.table.actions[id :=
              db.table.actions[id].(attempts := db.table.actions[id].attempts + 1)]))
  }

  /** The job's and the attempt's share of _finish. */
  function CloseJob(db: Db, id: Id, n: nat, status: Status): Db {
    db.(jobs := if id in db.jobs then db.jobs[id := db.jobs[id].(status := status, owner := None)] else db.jobs,
        attempts := if (id, n) in db.attempts then db.attempts[(id, n) := status] else db.attempts,
        deadLetters := if status == DeadLetter && id in db.jobs then db.deadLetters + {id} else db.deadLetters)
  }

  /** _finish: a retry of the fifth attempt becomes a dead letter, by way of FAILED. */
  function FinishTx(db: Db, id: Id, n: nat, outcome: Status): Option<Db> {
    if outcome == RetryScheduled && n >= MAX_ATTEMPTS then
      var failed := StatusTx(db, id, Failed);
      if failed.None? then None
      else
        var dead := StatusTx(failed.value, id, DeadLetter);
        if dead.None? then None else Some(CloseJob(dead.value, id, n, DeadLetter))
    else
      var moved := StatusTx(db, id, outcome);
      if moved.None? then None else Some(CloseJob(moved.value, id, n, outcome))
  }

  function Checks(db: Db, id: Id): seq<Check> {
    if id in db.checks then db.checks[id] else []
  }

  function Record(db: Db, id: Id, check: Check): Db {
    db.(checks := db.checks[id := Checks(db, id) + [check]])
  }

  /** Verification, SUCCEEDED, attempt and job in one transaction. */
  function ConcludeTx(db: Db, id: Id, n: nat, snapshot: Object): Option<Db> {
    if id !in db.table.actions then None
    else match Move(db.table.actions[id], Succeeded, true)
      case None => None
      case Some(a) =>
        Some(CloseJob(Record(db, id, Check(snapshot, true)).(table := db.table.(actions := db.table.actions[id := a])),
                      id, n, Succeeded))
  }

  // ---- the provider --------------------------------------------------------------------------------------

  predicate Same(bill: Bill, o: Object) {
    o.reference == bill.reference && o.body == bill.body
  }

  function Candidates(objects: map<ObjectId, Object>, reference: string): set<ObjectId> {
    set o | o in objects && objects[o].reference == reference
  }

  /** One search by reference: what it makes of the candidates.  None means that there are none. */
  datatype Sought = Nobody | Unique(oid: ObjectId) | Unclear

  ghost function Seek(objects: map<ObjectId, Object>, bill: Bill, answered: bool, detailed: bool): Sought {
    var c := Candidates(objects, bill.reference);
    if !answered then Unclear
    else if c == {} then Nobody
    else
      var o :| o in c;
      if c == {o} && detailed && Same(bill, objects[o]) then Unique(o) else Unclear
  }

  // ---- one step --------------------------------------------------------------------------------------------

  function At(s: System, w: WorkerId): Pc {
    if w in s.workers then s.workers[w] else Asleep
  }

  function Go(s: System, w: WorkerId, pc: Pc): System {
    s.(workers := s.workers[w := pc])
  }

  ghost function TableStep(s: System, e: Event): System
    requires e.Propose? || e.Approve? || e.Enqueue? || e.Cancel?
  {
    match e
    case Propose(id, key, bill) => s.(db := s.db.(table := ProposeRow(s.db.table, id, key, bill)))
    case Approve(id, reviewed) => s.(db := s.db.(table := ApproveRow(s.db.table, id, reviewed)))
    case Enqueue(id) => s.(db := s.db.(table := QueueRow(s.db.table, id)))
    case Cancel(id) =>
      s.(db := s.db.(table := CancelRow(s.db.table, id)),
         cancelling := if Cancellable(s.db.table, id) then s.cancelling + {id} else s.cancelling)
  }

  ghost function CancelJobStep(s: System, id: Id): System {
    if id !in s.cancelling then s else s.(db := CancelJobTx(s.db, id), cancelling := s.cancelling - {id})
  }

  ghost function ClaimStep(s: System, w: WorkerId, id: Id): System {
    if At(s, w) != Asleep then s
    else match ClaimTx(s.db, w, id)
      case None => s
      case Some(db) => Go(s.(db := db), w, Took(id, db.jobs[id].attempts))
  }

  /** Preconditions first; an action with a verification on record never runs again.  An UPDATE that the
      trigger refuses here is outside the try block and ends the worker process. */
  ghost function BeginStep(s: System, w: WorkerId, blocked: bool): System {
    var pc := At(s, w);
    if !pc.Took? then s
    else if blocked || Checks(s.db, pc.id) != [] then Go(s, w, Finishing(pc.id, pc.n, Failed, false))
    else match StatusTx(s.db, pc.id, Executing)
      case None => Go(s, w, Dead)
      case Some(db) => Go(s.(db := CountAttempt(db, pc.id)), w, Searching(pc.id, pc.n))
  }

  /** No connector is registered for the operation, or the payload cannot be turned into a request. */
  ghost function RejectStep(s: System, w: WorkerId, registered: bool): System {
    var pc := At(s, w);
    if !pc.Searching? then s
    else Go(s, w, if registered then Finishing(pc.id, pc.n, NeedsReview, true) else Finishing(pc.id, pc.n, Failed, false))
  }

  /** A payload that no longer has the approved hash is refused before the provider is asked anything. */
  ghost function SearchStep(s: System, w: WorkerId, answered: bool, detailed: bool): System {
    var pc := At(s, w);
    if !pc.Searching? || pc.id !in s.db.table.actions then s
    else if s.db.table.actions[pc.id].payloadHash != Digest(s.db.table.actions[pc.id].payload)
    then Go(s, w, Finishing(pc.id, pc.n, NeedsReview, true))
    else match Seek(s.objects, s.db.table.actions[pc.id].payload, answered, detailed)
      case Nobody => Go(s, w, Posting(pc.id, pc.n))
      case Unique(o) => Go(s, w, Found(pc.id, pc.n, o))
      case Unclear => Go(s, w, Finishing(pc.id, pc.n, NeedsReview, true))
  }

  function AfterPost(id: Id, n: nat, created: Option<ObjectId>, reply: PostReply): Pc
    requires reply.Created? ==> created.Some?
  {
    match reply
    case Created => Found(id, n, created.value)
    case Lost => Recovering(id, n)
    case RateLimited => Finishing(id, n, RetryScheduled, true)
    case Unauthorized => Finishing(id, n, AuthExpired, true)
    case MissingId => Finishing(id, n, NeedsReview, true)
    case Refused => Finishing(id, n, NeedsReview, true)
  }

  /** The provider may commit the object whatever it answers; it answers with an id only if it did. */
  ghost function PostStep(s: System, w: WorkerId, created: Option<ObjectId>, reply: PostReply): System {
    var pc := At(s, w);
    if !pc.Posting? || pc.id !in s.db.table.actions || (reply.Created? && created.None?)
       || (created.Some? && created.value in s.objects) then s
    else
      var bill := s.db.table.actions[pc.id].payload;
      var t := if created.None? then s
               else s.(objects := s.objects[created.value := Object(bill.reference, bill.body, Some(pc.id))]);
      Go(t, w, AfterPost(pc.id, pc.n, created, reply))
  }

  ghost function RecoverStep(s: System, w: WorkerId, answered: bool, detailed: bool): System {
    var pc := At(s, w);
    if !pc.Recovering? || pc.id !in s.db.table.actions then s
    else match Seek(s.objects, s.db.table.actions[pc.id].payload, answered, detailed)
      case Unique(o) => Go(s, w, Found(pc.id, pc.n, o))
      case _ => Go(s, w, Finishing(pc.id, pc.n, NeedsReview, true))
  }

  /** A refused UPDATE inside the try block is retried as UNEXPECTED_CONNECTOR_FAILURE. */
  ghost function NoteStep(s: System, w: WorkerId, to: Status, next: Pc): System
    requires At(s, w).Found? || At(s, w).Accepted?
  {
    var pc := At(s, w);
    match StatusTx(s.db, pc.id, to)
    case None => Go(s, w, Finishing(pc.id, pc.n, RetryScheduled, false))
    case Some(db) => Go(s.(db := db), w, next)
  }

  ghost function ReadBackStep(s: System, w: WorkerId, answered: bool): System {
    var pc := At(s, w);
    if !pc.ReadingBack? || pc.id !in s.db.table.actions then s
    else if !answered || pc.oid !in s.objects then Go(s, w, Finishing(pc.id, pc.n, NeedsReview, true))
    else if Same(s.db.table.actions[pc.id].payload, s.objects[pc.oid])
    then Go(s, w, Matching(pc.id, pc.n, s.objects[pc.oid]))
    else Go(s, w, Differing(pc.id, pc.n, s.objects[pc.oid]))
  }

  ghost function ConcludeStep(s: System, w: WorkerId): System {
    var pc := At(s, w);
    if !pc.Matching? then s
    else match ConcludeTx(s.db, pc.id, pc.n, pc.snapshot)
      case None => Go(s, w, Finishing(pc.id, pc.n, RetryScheduled, false))
      case Some(db) => Go(s.(db := db), w, Asleep)
  }

  ghost function RecordMismatchStep(s: System, w: WorkerId): System {
    var pc := At(s, w);
    if !pc.Differing? then s
    else Go(s.(db := Record(s.db, pc.id, Check(pc.snapshot, false))), w, Finishing(pc.id, pc.n, NeedsReview, true))
  }

  /** A _finish that raises inside the try block is followed by a second one; outside it, by the end of the process. */
  ghost function FinishStep(s: System, w: WorkerId): System {
    var pc := At(s, w);
    if !pc.Finishing? then s
    else match FinishTx(s.db, pc.id, pc.n, pc.outcome)
      case None => Go(s, w, if pc.guarded then Finishing(pc.id, pc.n, RetryScheduled, false) else Dead)
      case Some(db) => Go(s.(db := db), w, Asleep)
  }

  predicate Trying(pc: Pc) {
    pc.Searching? || pc.Posting? || pc.Recovering? || pc.Found? || pc.Accepted? || pc.ReadingBack?
    || pc.Matching? || pc.Differing? || (pc.Finishing? && pc.guarded)
  }

  /** Any other exception: caught inside the try block, fatal outside it. */
  ghost function ExplodeStep(s: System, w: WorkerId): System {
    var pc := At(s, w);
    if Trying(pc) then Go(s, w, Finishing(pc.id, pc.n, RetryScheduled, false))
    else if pc.Took? || pc.Finishing? then Go(s, w, Dead) else s
  }

  ghost function OutsideStep(s: System, e: Event): System
    requires e.Adds? || e.Edits? || e.Deletes?
  {
    match e
    case Adds(o, v) => if o in s.objects || v.maker.Some? then s else s.(objects := s.objects[o := v])
    case Edits(o, v) =>
      if o in s.objects && v.reference == s.objects[o].reference && v.maker == s.objects[o].maker
      then s.(objects := s.objects[o := v]) else s
    case Deletes(o) => s.(objects := s.objects - {o})
  }

  ghost function Next(s: System, e: Event): System {
    match e
    case Propose(_, _, _) => TableStep(s, e)
    case Approve(_, _) => TableStep(s, e)
    case Enqueue(_) => TableStep(s, e)
    case Cancel(_) => TableStep(s, e)
    case InsertJob(id) => s.(db := InsertJobTx(s.db, id))
    case CancelJob(id) => CancelJobStep(s, id)
    case Tick(due) => s.(db := TickTx(s.db, due))
    case Claim(w, id) => ClaimStep(s, w, id)
    case Begin(w, blocked) => BeginStep(s, w, blocked)
    case Reject(w, registered) => RejectStep(s, w, registered)
    case Search(w, answered, detailed) => SearchStep(s, w, answered, detailed)
    case Post(w, created, reply) => PostStep(s, w, created, reply)
    case Recover(w, answered, detailed) => RecoverStep(s, w, answered, detailed)
    case NoteAccepted(w) => if At(s, w).Found? then NoteStep(s, w, ProviderAccepted, Accepted(At(s, w).id, At(s, w).n, At(s, w).oid)) else s
    case NoteVerifying(w) => if At(s, w).Accepted? then NoteStep(s, w, Verifying, ReadingBack(At(s, w).id, At(s, w).n, At(s, w).oid)) else s
    case ReadBack(w, answered) => ReadBackStep(s, w, answered)
    case Conclude(w) => ConcludeStep(s, w)
    case RecordMismatch(w) => RecordMismatchStep(s, w)
    case Finish(w) => FinishStep(s, w)
    case Explode(w) => ExplodeStep(s, w)
    case Kill(w) => Go(s, w, Dead)
    case Adds(_, _) => OutsideStep(s, e)
    case Edits(_, _) => OutsideStep(s, e)
    case Deletes(_) => OutsideStep(s, e)
  }

  ghost function Run(s: System, events: seq<Event>): System
    decreases |events|
  {
    if events == [] then s else Run(Next(s, events[0]), events[1..])
  }

  /** Empty tables and sleeping workers beside a provider that may already hold any objects of its own. */
  ghost predicate Initial(s: System) {
    && s.db == Db(Table(map[], map[], map[]), map[], map[], {}, map[])
    && s.cancelling == {} && s.workers == map[]
    && (forall o :: o in s.objects ==> s.objects[o].maker == None)
  }
}
