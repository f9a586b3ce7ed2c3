/** What every run of the Zoho write path keeps. */
module ZohoSafety {
  import opened Options
  import opened FinanceActions
  import opened ZohoWorker

  /** The action statuses that go with a job status. */
  predicate Agree(job: Status, action: Status) {
    match job
    case Queued => action.Queued? || action.Cancelled?
    case RetryScheduled => action.RetryScheduled? || action.Cancelled?
    case Claimed => action.Claimed? || action.Cancelled? || action.Executing? || action.ProviderAccepted? || action.Verifying?
    case DeadLetter => action.DeadLetter?
    case Failed => action.Failed?
    case NeedsReview => action.NeedsReview?
    case AuthExpired => action.AuthExpired?
    case Succeeded => action.Succeeded?
    case Cancelled => action.Cancelled?
    case _ => false
  }

  predicate JobOk(j: Job, a: Row) {
    && Agree(j.status, a.status)
    && j.attempts <= MAX_ATTEMPTS
    && (j.status.Queued? || j.status.RetryScheduled? ==> j.attempts < MAX_ATTEMPTS)
    && (j.status.Claimed? ==> j.attempts >= 1 && j.owner.Some?)
    && (j.status.DeadLetter? ==> j.attempts == MAX_ATTEMPTS)
    && (a.status.Executing? ==> a.attempts >= 1)
  }

  /** An action without a job has got no further than the queue. */
  predicate Early(s: Status) {
    s.AwaitingApproval? || s.Approved? || s.Queued? || s.Cancelled?
  }

  ghost predicate JobsInv(db: Db) {
    && (forall id :: id in db.jobs ==> id in db.table.actions && JobOk(db.jobs[id], db.table.actions[id]))
    && (forall id :: id in db.table.actions && id !in db.jobs ==> Early(db.table.actions[id].status))
    && (forall id :: id in db.deadLetters <==> id in db.jobs && db.jobs[id].status == DeadLetter)
  }

  /** Attempt rows are numbered 1 up to the job's attempt count, without gaps. */
  ghost predicate AttemptsInv(db: Db) {
    forall id, k: nat :: (id, k) in db.attempts <==> id in db.jobs && 1 <= k <= db.jobs[id].attempts
  }

  /** The approver's third and the canceller's second statement only meet rows their first ones left behind. */
  ghost predicate Queueable(t: Table<Bill>) {
    forall id :: id in t.desk && t.desk[id] == MustInsertJob ==> id in t.actions && PastDesk(t.actions[id].status)
  }

  predicate PastDesk(s: Status) {
    !s.AwaitingApproval? && !s.Approved?
  }

  ghost predicate Cancelling(ids: set<Id>, rows: map<Id, Row>) {
    forall id :: id in ids ==> id in rows && rows[id].status == Cancelled
  }

  ghost predicate DeskInv(s: System) {
    Queueable(s.db.table) && Cancelling(s.cancelling, s.db.table.actions)
  }

  predicate Working(pc: Pc) {
    !pc.Asleep? && !pc.Dead?
  }

  /** The action status that goes with a point of run_finance_action. */
  predicate Fits(pc: Pc, s: Status) {
    && (pc.Took? ==> s.Claimed? || s.Cancelled?)
    && (pc.Searching? || pc.Posting? || pc.Recovering? || pc.Found? ==> s.Executing?)
    && (pc.Accepted? ==> s.ProviderAccepted?)
    && (pc.ReadingBack? || pc.Matching? || pc.Differing? ==> s.Verifying?)
    && (pc.Finishing? ==> pc.outcome.Failed? || pc.outcome.NeedsReview? || pc.outcome.RetryScheduled? || pc.outcome.AuthExpired?)
  }

  /** A worker that is at work owns its claimed job. */
  ghost predicate PcOk(pc: Pc, w: WorkerId, db: Db) {
    Working(pc) ==>
      && pc.id in db.jobs && pc.id in db.table.actions
      && db.jobs[pc.id] == Job(Claimed, pc.n, Some(w))
      && Fits(pc, db.table.actions[pc.id].status)
      && (pc.Matching? ==> Same(db.table.actions[pc.id].payload, pc.snapshot))
  }

  ghost predicate WorkersInv(s: System) {
    forall w :: w in s.workers ==> PcOk(s.workers[w], w, s.db)
  }

  /** Created by the action's own POST. */
  predicate Made(o: Object, id: Id) {
    o.maker == Some(id)
  }

  ghost predicate ObjectsInv(objects: map<ObjectId, Object>, rows: map<Id, Row>) {
    && (forall o, id :: o in objects && Made(objects[o], id) ==>
                          id in rows && objects[o].reference == rows[id].payload.reference && rows[id].attempts >= 1)
    && (forall o, p, id :: o in objects && p in objects && Made(objects[o], id) && Made(objects[p], id) ==> o == p)
  }

  /** A worker about to POST has just seen that there is nothing under the reference. */
  ghost predicate PostInv(s: System) {
    forall w, o :: w in s.workers && s.workers[w].Posting? && o in s.objects ==> !Made(s.objects[o], s.workers[w].id)
  }

  ghost predicate Verified(db: Db, id: Id)
    requires id in db.table.actions
  {
    exists c :: c in Checks(db, id) && c.matched && Same(db.table.actions[id].payload, c.snapshot)
  }

  ghost predicate ProofInv(db: Db) {
    forall id :: id in db.table.actions && db.table.actions[id].status == Succeeded ==> Verified(db, id)
  }

  ghost predicate DbInv(db: Db) {
    TableOk(db.table) && JobsInv(db) && AttemptsInv(db) && ProofInv(db)
  }

  ghost predicate Inv(s: System) {
    && DbInv(s.db) && DeskInv(s) && WorkersInv(s) && ObjectsInv(s.objects, s.db.table.actions) && PostInv(s)
  }

  lemma InitialInv(s: System)
    requires Initial(s)
    ensures Inv(s)
  {
  }

  // ---- the HTTP side --------------------------------------------------------------------------------

  lemma EngineMoveAgrees(j: Job, a: Row, b: Row)
    requires JobOk(j, a) && EngineMove(a.status, b.status) && b.attempts == a.attempts
    ensures JobOk(j, b)
    ensures j.status == Claimed ==> b.status == a.status
    ensures b.status == Succeeded ==> a.status == Succeeded
  {
  }

  lemma EngineKeepsDb(db: Db, table: Table<Bill>)
    requires DbInv(db) && TableOk(table) && EngineStep(db.table, table)
    ensures DbInv(db.(table := table))
  {
    var db' := db.(table := table);
    forall id | id in db.jobs ensures JobOk(db.jobs[id], table.actions[id]) {
      EngineMoveAgrees(db.jobs[id], db.table.actions[id], table.actions[id]);
    }
    forall id | id in table.actions && id !in db.jobs ensures Early(table.actions[id].status) {
      if id in db.table.actions {
        assert Early(db.table.actions[id].status) && EngineMove(db.table.actions[id].status, table.actions[id].status);
      }
    }
    forall id | id in table.actions && table.actions[id].status == Succeeded ensures Verified(db', id) {
      if id in db.table.actions {
        assert EngineMove(db.table.actions[id].status, table.actions[id].status);
        assert Verified(db, id);
        assert Checks(db', id) == Checks(db, id);
      }
    }
  }

  lemma EngineKeepsWorkers(s: System, table: Table<Bill>)
    requires Inv(s) && TableOk(table) && EngineStep(s.db.table, table)
    ensures WorkersInv(s.(db := s.db.(table := table)))
    ensures ObjectsInv(s.objects, table.actions)
  {
    forall w | w in s.workers ensures PcOk(s.workers[w], w, s.db.(table := table)) {
      assert PcOk(s.workers[w], w, s.db);
      if Working(s.workers[w]) {
        var id := s.workers[w].id;
        EngineMoveAgrees(s.db.jobs[id], s.db.table.actions[id], table.actions[id]);
      }
    }
  }

  predicate EngineEvent(e: Event) {
    e.Propose? || e.Approve? || e.Enqueue? || e.Cancel?
  }

  lemma EngineEvents(s: System, e: Event)
    requires TableOk(s.db.table) && EngineEvent(e)
    ensures var t := Next(s, e).db.table;
      && TableOk(t) && EngineStep(s.db.table, t)
      && Next(s, e) == s.(db := s.db.(table := t), cancelling := Next(s, e).cancelling)
  {
    match e {
      case Propose(id, key, bill) => ProposeIsEngineStep(s.db.table, id, key, bill);
      case Approve(id, reviewed) => ApproveIsEngineStep(s.db.table, id, reviewed);
      case Enqueue(id) => QueueIsEngineStep(s.db.table, id);
      case Cancel(id) => CancelIsEngineStep(s.db.table, id);
    }
  }

  lemma EngineMoveKeepsDesk(a: Status, b: Status)
    requires EngineMove(a, b)
    ensures PastDesk(a) ==> PastDesk(b)
    ensures a.Cancelled? ==> b.Cancelled?
  {
  }

  lemma EngineKeepsQueueable(t: Table<Bill>, u: Table<Bill>)
    requires Queueable(t) && EngineStep(t, u)
    requires forall id :: id in u.desk && u.desk[id] == MustInsertJob ==>
      (id in t.desk && t.desk[id] == MustInsertJob) || (id in u.actions && u.actions[id].status == Queued)
    ensures Queueable(u)
  {
  }

  lemma EngineKeepsCancelling(ids: set<Id>, t: Table<Bill>, u: Table<Bill>)
    requires Cancelling(ids, t.actions) && EngineStep(t, u)
    ensures Cancelling(ids, u.actions)
  {
  }

  lemma EngineKeepsDesk(s: System, e: Event)
    requires DeskInv(s) && TableOk(s.db.table) && EngineEvent(e)
    ensures DeskInv(Next(s, e))
  {
    EngineEvents(s, e);
    EngineKeepsQueueable(s.db.table, Next(s, e).db.table);
    EngineKeepsCancelling(s.cancelling, s.db.table, Next(s, e).db.table);
  }

  lemma EngineKeeps(s: System, e: Event)
    requires Inv(s) && EngineEvent(e)
    ensures Inv(Next(s, e))
  {
    EngineEvents(s, e);
    EngineKeepsDb(s.db, Next(s, e).db.table);
    EngineKeepsWorkers(s, Next(s, e).db.table);
    EngineKeepsDesk(s, e);
  }

  // ---- transactions that touch one action and its job ---------------------------------------------------

  /** db' differs from db at most in the action, job, dead letter and verifications of `id`. */
  ghost predicate OnlyAt(db: Db, db': Db, id: Id) {
    && id in db.jobs && id in db.table.actions && id in db'.jobs && id in db'.table.actions
    && db'.table == db.table.(actions := db.table.actions[id := db'.table.actions[id]])
    && db'.jobs == db.jobs[id := db'.jobs[id]]
    && (forall k :: k != id ==> (k in db'.deadLetters <==> k in db.deadLetters) && Checks(db', k) == Checks(db, k))
  }

  lemma OnlyAtKeepsTable(db: Db, db': Db, id: Id)
    requires TableOk(db.table) && OnlyAt(db, db', id)
    requires Bound(db'.table.actions[id]) && db.table.actions[id].status != Approved
    ensures TableOk(db'.table)
  {
  }

  lemma OnlyAtKeepsJobs(db: Db, db': Db, id: Id)
    requires JobsInv(db) && OnlyAt(db, db', id)
    requires JobOk(db'.jobs[id], db'.table.actions[id])
    requires id in db'.deadLetters <==> db'.jobs[id].status == DeadLetter
    ensures JobsInv(db')
  {
  }

  lemma OnlyAtKeepsProof(db: Db, db': Db, id: Id)
    requires ProofInv(db) && OnlyAt(db, db', id)
    requires db'.table.actions[id].status == Succeeded ==> Verified(db', id)
    ensures ProofInv(db')
  {
  }

  lemma OnlyAtKeepsDb(db: Db, db': Db, id: Id)
    requires DbInv(db) && OnlyAt(db, db', id)
    requires Bound(db'.table.actions[id])
    requires JobOk(db'.jobs[id], db'.table.actions[id])
    requires id in db'.deadLetters <==> db'.jobs[id].status == DeadLetter
    requires AttemptsInv(db')
    requires db'.table.actions[id].status == Succeeded ==> Verified(db', id)
    ensures DbInv(db')
  {
    assert JobOk(db.jobs[id], db.table.actions[id]);
    OnlyAtKeepsTable(db, db', id);
    OnlyAtKeepsJobs(db, db', id);
    OnlyAtKeepsProof(db, db', id);
  }

  /** The owner of a claimed job may change its rows; no other worker is at work on them. */
  lemma OthersUnaffected(s: System, db': Db, w: WorkerId, id: Id)
    requires WorkersInv(s) && OnlyAt(s.db, db', id) && (s.db.jobs[id].status == Claimed ==> s.db.jobs[id].owner == Some(w))
    ensures forall v :: v in s.workers && v != w ==> PcOk(s.workers[v], v, db')
  {
  }

  lemma OnlyAtKeepsDesk(s: System, db': Db, id: Id)
    requires DeskInv(s) && OnlyAt(s.db, db', id) && PastDesk(db'.table.actions[id].status)
    requires s.db.table.actions[id].status == Cancelled ==> db'.table.actions[id].status == Cancelled
    ensures DeskInv(s.(db := db'))
  {
  }

  lemma OnlyAtKeepsObjects(s: System, db': Db, id: Id)
    requires ObjectsInv(s.objects, s.db.table.actions) && OnlyAt(s.db, db', id)
    requires db'.table.actions[id].payload == s.db.table.actions[id].payload
    requires db'.table.actions[id].attempts >= s.db.table.actions[id].attempts
    ensures ObjectsInv(s.objects, db'.table.actions)
  {
  }

  /** A worker's transaction on its own job, after which it stands at `pc`. */
  lemma OwnStepKeeps(s: System, db': Db, w: WorkerId, id: Id, pc: Pc)
    requires Inv(s) && OnlyAt(s.db, db', id) && (s.db.jobs[id].status == Claimed ==> s.db.jobs[id].owner == Some(w))
    requires DbInv(db') && db'.table.actions[id].payload == s.db.table.actions[id].payload
    requires db'.table.actions[id].attempts >= s.db.table.actions[id].attempts
    requires s.db.table.actions[id].status == Cancelled ==> db'.table.actions[id].status == Cancelled
    requires PcOk(pc, w, db') && !pc.Posting? && PastDesk(db'.table.actions[id].status)
    ensures Inv(Go(s.(db := db'), w, pc))
  {
    OthersUnaffected(s, db', w, id);
    OnlyAtKeepsDesk(s, db', id);
    OnlyAtKeepsObjects(s, db', id);
  }

  /** A step that only moves the worker on. */
  lemma MovedOn(s: System, w: WorkerId, pc: Pc)
    requires Inv(s) && PcOk(pc, w, s.db)
    requires pc.Posting? ==> forall o :: o in s.objects ==> !Made(s.objects[o], pc.id)
    ensures Inv(Go(s, w, pc))
  {
  }

  // ---- the worker's transactions ---------------------------------------------------------------------------

  /** The row as the claim leaves it. */
  function ClaimedRow(a: Row): Row {
    if a.status.Queued? then a.(status := Claimed) else a
  }

  lemma ClaimedRowFacts(j: Job, a: Row, w: WorkerId)
    requires JobOk(j, a) && j.status.Queued? && Bound(a)
    ensures JobOk(Job(Claimed, j.attempts + 1, Some(w)), ClaimedRow(a)) && Bound(ClaimedRow(a))
    ensures j.attempts + 1 <= MAX_ATTEMPTS && a.status != Approved
    ensures ClaimedRow(a).status.Claimed? || ClaimedRow(a).status.Cancelled?
    ensures a.status.Cancelled? <==> ClaimedRow(a).status.Cancelled?
    ensures ClaimedRow(a).payload == a.payload && ClaimedRow(a).payloadHash == a.payloadHash && ClaimedRow(a).attempts == a.attempts
  {
  }

  lemma ClaimTxForm(db: Db, w: WorkerId, id: Id)
    requires ClaimTx(db, w, id).Some?
    ensures id in db.jobs && db.jobs[id].status.Queued? && id in db.table.actions
    ensures var db' := ClaimTx(db, w, id).value;
      var n := db.jobs[id].attempts + 1;
      && OnlyAt(db, db', id) && db'.jobs[id] == Job(Claimed, n, Some(w))
      && db'.table.actions[id] == ClaimedRow(db.table.actions[id])
      && db'.attempts == db.attempts[(id, n) := Claimed] && db'.deadLetters == db.deadLetters
  {
  }

  lemma AttemptsGrow(db: Db, db': Db, id: Id, job: Job)
    requires AttemptsInv(db) && id in db.jobs && job.attempts == db.jobs[id].attempts + 1
    requires db'.jobs == db.jobs[id := job] && db'.attempts == db.attempts[(id, job.attempts) := Claimed]
    ensures AttemptsInv(db')
  {
  }

  lemma ClaimTxKeeps(db: Db, w: WorkerId, id: Id)
    requires DbInv(db) && ClaimTx(db, w, id).Some?
    ensures DbInv(ClaimTx(db, w, id).value)
  {
    ClaimTxForm(db, w, id);
    ClaimedKeepsDb(db, ClaimTx(db, w, id).value, w, id);
  }

  lemma ClaimedKeepsDb(db: Db, db': Db, w: WorkerId, id: Id)
    requires DbInv(db) && OnlyAt(db, db', id) && db.jobs[id].status.Queued? && db'.deadLetters == db.deadLetters
    requires db'.jobs[id] == Job(Claimed, db.jobs[id].attempts + 1, Some(w))
    requires db'.table.actions[id] == ClaimedRow(db.table.actions[id])
    requires db'.attempts == db.attempts[(id, db'.jobs[id].attempts) := Claimed]
    ensures DbInv(db')
  {
    ClaimedRowFacts(db.jobs[id], db.table.actions[id], w);
    AttemptsGrow(db, db', id, db'.jobs[id]);
    OnlyAtKeepsDb(db, db', id);
  }

  lemma ClaimKeeps(s: System, w: WorkerId, id: Id)
    requires Inv(s)
    ensures Inv(ClaimStep(s, w, id))
  {
    if At(s, w) == Asleep && ClaimTx(s.db, w, id).Some? {
      var db := ClaimTx(s.db, w, id).value;
      ClaimTxForm(s.db, w, id);
      ClaimedRowFacts(s.db.jobs[id], s.db.table.actions[id], w);
      ClaimTxKeeps(s.db, w, id);
      OwnStepKeeps(s, db, w, id, Took(id, db.jobs[id].attempts));
    }
  }

  /** The database after one action was set to `to` and `count` executions of it were counted. */
  function Updated(db: Db, id: Id, to: Status, count: nat): Db
    requires id in db.table.actions
  {
    var a := db.table.actions[id];
    db.(table := db.table.(actions := db.table.actions[id := a.(status := to, attempts := a.attempts + count)]))
  }

  lemma UpdatedRowFacts(j: Job, a: Row, to: Status, count: nat)
    requires JobOk(j, a) && Bound(a) && j.status == Claimed && Move(a, to, false).Some?
    requires (to.Executing? && count > 0) || to.ProviderAccepted? || to.Verifying?
    ensures a.status != Cancelled
    ensures var b := a.(status := to, attempts := a.attempts + count); JobOk(j, b) && Bound(b)
  {
  }

  lemma UpdatedForm(db: Db, id: Id, to: Status, count: nat)
    requires AttemptsInv(db) && id in db.jobs && id in db.table.actions
    ensures var db' := Updated(db, id, to, count); OnlyAt(db, db', id) && AttemptsInv(db')
  {
  }

  lemma StatusTxMoves(db: Db, id: Id, to: Status)
    requires id in db.table.actions
    ensures StatusTx(db, id, to).Some? <==> Move(db.table.actions[id], to, false).Some?
  {
  }

  /** A worker's UPDATE of its action's status, between the claim and the end of the job. */
  lemma StatusKeepsDb(db: Db, id: Id, to: Status, count: nat)
    requires DbInv(db) && id in db.jobs && db.jobs[id].status == Claimed && StatusTx(db, id, to).Some?
    requires (to.Executing? && count > 0) || to.ProviderAccepted? || to.Verifying?
    ensures id in db.table.actions && db.table.actions[id].status != Cancelled
    ensures DbInv(Updated(db, id, to, count))
  {
    StatusTxMoves(db, id, to);
    MoveKeepsDb(db, id, to, count);
  }

  lemma MoveKeepsDb(db: Db, id: Id, to: Status, count: nat)
    requires DbInv(db) && id in db.jobs && id in db.table.actions && db.jobs[id].status == Claimed
    requires Move(db.table.actions[id], to, false).Some?
    requires (to.Executing? && count > 0) || to.ProviderAccepted? || to.Verifying?
    ensures db.table.actions[id].status != Cancelled
    ensures DbInv(Updated(db, id, to, count))
  {
    UpdatedRowFacts(db.jobs[id], db.table.actions[id], to, count);
    UpdatedForm(db, id, to, count);
    OnlyAtKeepsDb(db, Updated(db, id, to, count), id);
  }

  /** The system after worker w set its action's status, counted `count` executions and went to pc. */
  function Advanced(s: System, w: WorkerId, id: Id, to: Status, count: nat, pc: Pc): System
    requires id in s.db.table.actions
  {
    Go(s.(db := Updated(s.db, id, to, count)), w, pc)
  }

  lemma AdvancedKeeps(s: System, w: WorkerId, id: Id, to: Status, count: nat, pc: Pc)
    requires Inv(s) && PcOk(At(s, w), w, s.db) && Working(At(s, w)) && At(s, w).id == id
    requires s.db.table.actions[id].status != Cancelled && PastDesk(to) && DbInv(Updated(s.db, id, to, count))
    requires Working(pc) && pc.id == id && pc.n == At(s, w).n && Fits(pc, to) && !pc.Posting? && !pc.Matching?
    ensures Inv(Advanced(s, w, id, to, count, pc))
  {
    var db := Updated(s.db, id, to, count);
    UpdatedForm(s.db, id, to, count);
    assert PcOk(pc, w, db);
    OwnStepKeeps(s, db, w, id, pc);
  }

  lemma StatusMoves(s: System, w: WorkerId, id: Id, to: Status, count: nat, pc: Pc)
    requires Inv(s) && PcOk(At(s, w), w, s.db) && Working(At(s, w)) && At(s, w).id == id
    requires StatusTx(s.db, id, to).Some? && ((to.Executing? && count > 0) || to.ProviderAccepted? || to.Verifying?)
    requires Working(pc) && pc.id == id && pc.n == At(s, w).n && Fits(pc, to) && !pc.Posting? && !pc.Matching?
    ensures Inv(Advanced(s, w, id, to, count, pc))
  {
    StatusKeepsDb(s.db, id, to, count);
    AdvancedKeeps(s, w, id, to, count, pc);
  }

  lemma BeginForm(s: System, w: WorkerId, id: Id)
    requires id in s.db.table.actions && At(s, w).Took? && At(s, w).id == id
    requires Checks(s.db, id) == [] && StatusTx(s.db, id, Executing).Some?
    ensures BeginStep(s, w, false) == Advanced(s, w, id, Executing, 1, Searching(id, At(s, w).n))
  {
  }

  lemma BeginKeeps(s: System, w: WorkerId, blocked: bool)
    requires Inv(s)
    ensures Inv(BeginStep(s, w, blocked))
  {
    var pc := At(s, w);
    if pc.Took? {
      assert PcOk(pc, w, s.db);
      if blocked || Checks(s.db, pc.id) != [] {
        MovedOn(s, w, Finishing(pc.id, pc.n, Failed, false));
      } else if StatusTx(s.db, pc.id, Executing).None? {
        MovedOn(s, w, Dead);
      } else {
        BeginForm(s, w, pc.id);
        StatusMoves(s, w, pc.id, Executing, 1, Searching(pc.id, pc.n));
      }
    }
  }

  lemma NoteForm(s: System, w: WorkerId, to: Status, next: Pc)
    requires (At(s, w).Found? || At(s, w).Accepted?) && At(s, w).id in s.db.table.actions
    requires StatusTx(s.db, At(s, w).id, to).Some?
    ensures NoteStep(s, w, to, next) == Advanced(s, w, At(s, w).id, to, 0, next)
  {
  }

  lemma NoteKeeps(s: System, w: WorkerId, to: Status, next: Pc)
    requires Inv(s) && (At(s, w).Found? || At(s, w).Accepted?)
    requires (to.ProviderAccepted? && next.Accepted?) || (to.Verifying? && next.ReadingBack?)
    requires next.id == At(s, w).id && next.n == At(s, w).n
    ensures Inv(NoteStep(s, w, to, next))
  {
    var pc := At(s, w);
    assert PcOk(pc, w, s.db);
    if StatusTx(s.db, pc.id, to).None? {
      MovedOn(s, w, Finishing(pc.id, pc.n, RetryScheduled, false));
    } else {
      NoteForm(s, w, to, next);
      StatusMoves(s, w, pc.id, to, 0, next);
    }
  }

  /** None of the candidates is the action's own object, for there are no candidates. */
  lemma SearchKeeps(s: System, w: WorkerId, answered: bool, detailed: bool)
    requires Inv(s)
    ensures Inv(SearchStep(s, w, answered, detailed))
  {
    var pc := At(s, w);
    if pc.Searching? {
      assert PcOk(pc, w, s.db);
      var bill := s.db.table.actions[pc.id].payload;
      var sought := Seek(s.objects, bill, answered, detailed);
      if sought.Nobody? {
        forall o | o in s.objects ensures !Made(s.objects[o], pc.id) {
          assert o !in Candidates(s.objects, bill.reference);
        }
        MovedOn(s, w, Posting(pc.id, pc.n));
      } else if sought.Unique? {
        MovedOn(s, w, Found(pc.id, pc.n, sought.oid));
      }
      MovedOn(s, w, Finishing(pc.id, pc.n, NeedsReview, true));
    }
  }

  lemma RecoverKeeps(s: System, w: WorkerId, answered: bool, detailed: bool)
    requires Inv(s)
    ensures Inv(RecoverStep(s, w, answered, detailed))
  {
    var pc := At(s, w);
    if pc.Recovering? {
      assert PcOk(pc, w, s.db);
      var sought := Seek(s.objects, s.db.table.actions[pc.id].payload, answered, detailed);
      if sought.Unique? {
        MovedOn(s, w, Found(pc.id, pc.n, sought.oid));
      }
      MovedOn(s, w, Finishing(pc.id, pc.n, NeedsReview, true));
    }
  }

  lemma PostKeepsObjects(objects: map<ObjectId, Object>, rows: map<Id, Row>, o: ObjectId, id: Id)
    requires ObjectsInv(objects, rows) && o !in objects && id in rows && rows[id].attempts >= 1
    requires forall p :: p in objects ==> !Made(objects[p], id)
    ensures ObjectsInv(objects[o := Object(rows[id].payload.reference, rows[id].payload.body, Some(id))], rows)
  {
  }

  lemma AfterPostFits(s: System, w: WorkerId, created: Option<ObjectId>, reply: PostReply)
    requires At(s, w).Posting? && PcOk(At(s, w), w, s.db) && (reply.Created? ==> created.Some?)
    ensures var pc := AfterPost(At(s, w).id, At(s, w).n, created, reply); PcOk(pc, w, s.db) && !pc.Posting?
  {
  }

  lemma CreatesKeeps(s: System, w: WorkerId, o: ObjectId, v: Object, pc: Pc)
    requires Inv(s) && At(s, w).Posting? && o !in s.objects && PcOk(pc, w, s.db) && !pc.Posting?
    requires v.maker == Some(At(s, w).id) && ObjectsInv(s.objects[o := v], s.db.table.actions)
    ensures Inv(Go(s.(objects := s.objects[o := v]), w, pc))
  {
  }

  lemma PostKeeps(s: System, w: WorkerId, created: Option<ObjectId>, reply: PostReply)
    requires Inv(s)
    ensures Inv(PostStep(s, w, created, reply))
  {
    var pc := At(s, w);
    if pc.Posting? && (reply.Created? ==> created.Some?) {
      var next := AfterPost(pc.id, pc.n, created, reply);
      assert PcOk(pc, w, s.db);
      AfterPostFits(s, w, created, reply);
      if created.None? {
        MovedOn(s, w, next);
      } else if created.value !in s.objects {
        var a := s.db.table.actions[pc.id];
        assert JobOk(s.db.jobs[pc.id], a);
        PostKeepsObjects(s.objects, s.db.table.actions, created.value, pc.id);
        CreatesKeeps(s, w, created.value, Object(a.payload.reference, a.payload.body, Some(pc.id)), next);
      }
    }
  }

  lemma ReadBackKeeps(s: System, w: WorkerId, answered: bool)
    requires Inv(s)
    ensures Inv(ReadBackStep(s, w, answered))
  {
    var pc := At(s, w);
    if pc.ReadingBack? {
      assert PcOk(pc, w, s.db);
      MovedOn(s, w, Finishing(pc.id, pc.n, NeedsReview, true));
      if pc.oid in s.objects {
        if Same(s.db.table.actions[pc.id].payload, s.objects[pc.oid]) {
          MovedOn(s, w, Matching(pc.id, pc.n, s.objects[pc.oid]));
        } else {
          MovedOn(s, w, Differing(pc.id, pc.n, s.objects[pc.oid]));
        }
      }
    }
  }

  /** The statuses a job may end an attempt in, with the proof that SUCCEEDED needs. */
  ghost predicate Ends(db: Db, id: Id, n: nat, to: Status)
    requires id in db.table.actions
  {
    || to.Failed? || to.NeedsReview? || to.AuthExpired?
    || (to.RetryScheduled? && n < MAX_ATTEMPTS)
    || (to.DeadLetter? && n >= MAX_ATTEMPTS)
    || (to.Succeeded? && Verified(db, id))
  }

  /** The database after action, job and attempt were all set to `to`. */
  function Closed(db: Db, id: Id, n: nat, to: Status): Db
    requires id in db.table.actions
  {
    CloseJob(Updated(db, id, to, 0), id, n, to)
  }

  /** What a job of attempts n may look like after it ended in `to`. */
  predicate EndsAt(n: nat, to: Status) {
    || to.Failed? || to.NeedsReview? || to.AuthExpired? || to.Succeeded?
    || (to.RetryScheduled? && n < MAX_ATTEMPTS)
    || (to.DeadLetter? && n >= MAX_ATTEMPTS)
  }

  lemma ClosedRowFacts(j: Job, a: Row, n: nat, to: Status)
    requires JobOk(j, a) && Bound(a) && j.status == Claimed && j.attempts == n && a.status != Cancelled && EndsAt(n, to)
    ensures JobOk(Job(to, n, None), a.(status := to)) && Bound(a.(status := to)) && a.status != Approved
  {
  }

  lemma ClosedForm(db: Db, id: Id, n: nat, to: Status)
    requires JobsInv(db) && AttemptsInv(db) && id in db.jobs && id in db.table.actions
    requires db.jobs[id].status == Claimed && db.jobs[id].attempts == n
    ensures var db' := Closed(db, id, n, to);
      && OnlyAt(db, db', id) && AttemptsInv(db')
      && db'.table.actions[id] == db.table.actions[id].(status := to) && db'.jobs[id] == Job(to, n, None)
      && (id in db'.deadLetters <==> to == DeadLetter)
      && Checks(db', id) == Checks(db, id)
  {
  }

  lemma ClosedKeepsDb(db: Db, id: Id, n: nat, to: Status)
    requires DbInv(db) && id in db.jobs && id in db.table.actions && db.jobs[id].status == Claimed && db.jobs[id].attempts == n
    requires db.table.actions[id].status != Cancelled && Ends(db, id, n, to)
    ensures DbInv(Closed(db, id, n, to)) && OnlyAt(db, Closed(db, id, n, to), id)
  {
    ClosedForm(db, id, n, to);
    ClosedRowFacts(db.jobs[id], db.table.actions[id], n, to);
    OnlyAtKeepsDb(db, Closed(db, id, n, to), id);
  }

  lemma ClosedKeeps(s: System, w: WorkerId, to: Status)
    requires Inv(s) && Working(At(s, w)) && At(s, w).id in s.db.table.actions
    requires s.db.table.actions[At(s, w).id].status != Cancelled && Ends(s.db, At(s, w).id, At(s, w).n, to)
    ensures Inv(Go(s.(db := Closed(s.db, At(s, w).id, At(s, w).n, to)), w, Asleep))
  {
    var pc := At(s, w);
    assert PcOk(pc, w, s.db);
    ClosedKeepsDb(s.db, pc.id, pc.n, to);
    OwnStepKeeps(s, Closed(s.db, pc.id, pc.n, to), w, pc.id, Asleep);
  }

  lemma RecordKeeps(s: System, id: Id, check: Check)
    requires Inv(s)
    ensures Inv(s.(db := Record(s.db, id, check)))
  {
  }

  lemma ConcludeForm(db: Db, id: Id, n: nat, snapshot: Object)
    requires ConcludeTx(db, id, n, snapshot).Some?
    ensures db.table.actions[id].status != Cancelled
    ensures ConcludeTx(db, id, n, snapshot).value == Closed(Record(db, id, Check(snapshot, true)), id, n, Succeeded)
  {
  }

  lemma RecordVerifies(db: Db, id: Id, snapshot: Object)
    requires id in db.table.actions && Same(db.table.actions[id].payload, snapshot)
    ensures Verified(Record(db, id, Check(snapshot, true)), id)
  {
  }

  lemma ConcludeKeeps(s: System, w: WorkerId)
    requires Inv(s)
    ensures Inv(ConcludeStep(s, w))
  {
    var pc := At(s, w);
    if pc.Matching? {
      assert PcOk(pc, w, s.db);
      if ConcludeTx(s.db, pc.id, pc.n, pc.snapshot).None? {
        MovedOn(s, w, Finishing(pc.id, pc.n, RetryScheduled, false));
      } else {
        var check := Check(pc.snapshot, true);
        ConcludeForm(s.db, pc.id, pc.n, pc.snapshot);
        RecordVerifies(s.db, pc.id, pc.snapshot);
        RecordKeeps(s, pc.id, check);
        ClosedKeeps(s.(db := Record(s.db, pc.id, check)), w, Succeeded);
      }
    }
  }

  lemma RecordMismatchKeeps(s: System, w: WorkerId)
    requires Inv(s)
    ensures Inv(RecordMismatchStep(s, w))
  {
    var pc := At(s, w);
    if pc.Differing? {
      assert PcOk(pc, w, s.db);
      var t := s.(db := Record(s.db, pc.id, Check(pc.snapshot, false)));
      RecordKeeps(s, pc.id, Check(pc.snapshot, false));
      MovedOn(t, w, Finishing(pc.id, pc.n, NeedsReview, true));
    }
  }

  predicate Exhausted(n: nat, outcome: Status) {
    outcome == RetryScheduled && n >= MAX_ATTEMPTS
  }

  lemma FinishForm(db: Db, id: Id, n: nat, outcome: Status)
    requires id in db.table.actions && FinishTx(db, id, n, outcome).Some? && outcome != Cancelled
    ensures db.table.actions[id].status != Cancelled
    ensures FinishTx(db, id, n, outcome).value == Closed(db, id, n, if Exhausted(n, outcome) then DeadLetter else outcome)
  {
  }

  lemma FinishKeeps(s: System, w: WorkerId)
    requires Inv(s)
    ensures Inv(FinishStep(s, w))
  {
    var pc := At(s, w);
    if pc.Finishing? {
      assert PcOk(pc, w, s.db);
      if FinishTx(s.db, pc.id, pc.n, pc.outcome).None? {
        MovedOn(s, w, Dead);
        MovedOn(s, w, Finishing(pc.id, pc.n, RetryScheduled, false));
      } else {
        FinishForm(s.db, pc.id, pc.n, pc.outcome);
        ClosedKeeps(s, w, if Exhausted(pc.n, pc.outcome) then DeadLetter else pc.outcome);
      }
    }
  }

  lemma ExplodeKeeps(s: System, w: WorkerId)
    requires Inv(s)
    ensures Inv(ExplodeStep(s, w))
  {
    var pc := At(s, w);
    MovedOn(s, w, Dead);
    if Trying(pc) {
      assert PcOk(pc, w, s.db);
      MovedOn(s, w, Finishing(pc.id, pc.n, RetryScheduled, false));
    }
  }

  lemma RejectKeeps(s: System, w: WorkerId, registered: bool)
    requires Inv(s)
    ensures Inv(RejectStep(s, w, registered))
  {
    var pc := At(s, w);
    if pc.Searching? {
      assert PcOk(pc, w, s.db);
      MovedOn(s, w, Finishing(pc.id, pc.n, NeedsReview, true));
      MovedOn(s, w, Finishing(pc.id, pc.n, Failed, false));
    }
  }

  // ---- the remaining steps ------------------------------------------------------------------------------

  lemma InsertJobKeepsJobs(db: Db, id: Id)
    requires JobsInv(db) && Queueable(db.table)
    ensures JobsInv(InsertJobTx(db, id))
  {
  }

  lemma InsertJobKeepsAttempts(db: Db, id: Id)
    requires AttemptsInv(db)
    ensures AttemptsInv(InsertJobTx(db, id))
  {
  }

  lemma InsertJobKeepsProof(db: Db, id: Id)
    requires ProofInv(db)
    ensures ProofInv(InsertJobTx(db, id))
  {
  }

  lemma InsertJobKeepsTable(db: Db, id: Id)
    requires TableOk(db.table) && Queueable(db.table)
    ensures TableOk(InsertJobTx(db, id).table) && Queueable(InsertJobTx(db, id).table)
  {
  }

  lemma InsertJobKeepsDb(s: System, id: Id)
    requires Inv(s)
    ensures DbInv(InsertJobTx(s.db, id)) && Queueable(InsertJobTx(s.db, id).table)
  {
    InsertJobKeepsJobs(s.db, id);
    InsertJobKeepsAttempts(s.db, id);
    InsertJobKeepsProof(s.db, id);
    InsertJobKeepsTable(s.db, id);
  }

  lemma InsertJobKeeps(s: System, id: Id)
    requires Inv(s)
    ensures Inv(s.(db := InsertJobTx(s.db, id)))
  {
    var db := InsertJobTx(s.db, id);
    InsertJobKeepsDb(s, id);
    forall w | w in s.workers ensures PcOk(s.workers[w], w, db) {
      assert PcOk(s.workers[w], w, s.db);
    }
  }

  lemma CancelJobForm(db: Db, id: Id)
    requires JobsInv(db) && AttemptsInv(db) && id in db.jobs && id in db.table.actions && db.jobs[id].status == Queued
    ensures var db' := CancelJobTx(db, id);
      && OnlyAt(db, db', id) && AttemptsInv(db') && db'.table == db.table && db'.checks == db.checks
      && db'.jobs[id] == db.jobs[id].(status := Cancelled) && id !in db'.deadLetters
  {
  }

  lemma CancelledJobFacts(j: Job, a: Row)
    requires JobOk(j, a) && j.status == Queued && a.status == Cancelled
    ensures JobOk(j.(status := Cancelled), a)
  {
  }

  lemma CancelJobKeepsDb(db: Db, id: Id)
    requires DbInv(db) && id in db.jobs && id in db.table.actions && db.table.actions[id].status == Cancelled
    ensures DbInv(CancelJobTx(db, id))
  {
    if db.jobs[id].status == Queued {
      CancelJobForm(db, id);
      CancelledJobFacts(db.jobs[id], db.table.actions[id]);
      OnlyAtKeepsDb(db, CancelJobTx(db, id), id);
    }
  }

  lemma CancelJobKeepsWorkers(s: System, id: Id)
    requires WorkersInv(s)
    ensures WorkersInv(s.(db := CancelJobTx(s.db, id)))
  {
  }

  lemma CancelJobKeeps(s: System, id: Id)
    requires Inv(s)
    ensures Inv(CancelJobStep(s, id))
  {
    if id in s.cancelling {
      if id in s.db.jobs {
        CancelJobKeepsDb(s.db, id);
      }
      CancelJobKeepsWorkers(s, id);
    }
  }

  lemma TickKeepsJobs(db: Db, due: set<Id>)
    requires JobsInv(db)
    ensures JobsInv(TickTx(db, due))
  {
  }

  lemma TickKeepsProof(db: Db, due: set<Id>)
    requires ProofInv(db)
    ensures ProofInv(TickTx(db, due))
  {
  }

  lemma TickKeepsTable(db: Db, due: set<Id>)
    requires TableOk(db.table) && AttemptsInv(db) && Queueable(db.table)
    ensures TableOk(TickTx(db, due).table) && AttemptsInv(TickTx(db, due)) && Queueable(TickTx(db, due).table)
  {
  }

  lemma TickKeepsWorkers(s: System, due: set<Id>)
    requires WorkersInv(s) && JobsInv(s.db)
    ensures WorkersInv(s.(db := TickTx(s.db, due)))
  {
  }

  lemma TickKeepsRest(s: System, due: set<Id>)
    requires Cancelling(s.cancelling, s.db.table.actions) && ObjectsInv(s.objects, s.db.table.actions)
    ensures Cancelling(s.cancelling, TickTx(s.db, due).table.actions)
    ensures ObjectsInv(s.objects, TickTx(s.db, due).table.actions)
  {
  }

  lemma TickKeepsDb(s: System, due: set<Id>)
    requires DbInv(s.db) && DeskInv(s)
    ensures DbInv(TickTx(s.db, due)) && Queueable(TickTx(s.db, due).table)
  {
    TickKeepsJobs(s.db, due);
    TickKeepsProof(s.db, due);
    TickKeepsTable(s.db, due);
  }

  lemma TickKeeps(s: System, due: set<Id>)
    requires Inv(s)
    ensures Inv(s.(db := TickTx(s.db, due)))
  {
    TickKeepsDb(s, due);
    TickKeepsWorkers(s, due);
    TickKeepsRest(s, due);
  }

  /** Nothing of ours is added, and what of ours remains keeps its reference. */
  ghost predicate OnlyForeign(before: map<ObjectId, Object>, after: map<ObjectId, Object>) {
    forall o :: o in after && after[o].maker.Some? ==>
                  o in before && before[o].maker == after[o].maker && before[o].reference == after[o].reference
  }

  lemma OutsideIsForeign(s: System, e: Event)
    requires OutsideEvent(e)
    ensures Next(s, e) == s.(objects := Next(s, e).objects) && OnlyForeign(s.objects, Next(s, e).objects)
  {
  }

  lemma ForeignKeeps(s: System, objects: map<ObjectId, Object>)
    requires Inv(s) && OnlyForeign(s.objects, objects)
    ensures Inv(s.(objects := objects))
  {
    forall o, id | o in objects && Made(objects[o], id) ensures o in s.objects && Made(s.objects[o], id) {}
  }

  lemma OutsideKeeps(s: System, e: Event)
    requires Inv(s) && OutsideEvent(e)
    ensures Inv(Next(s, e))
  {
    OutsideIsForeign(s, e);
    ForeignKeeps(s, Next(s, e).objects);
  }

  predicate OutsideEvent(e: Event) {
    e.Adds? || e.Edits? || e.Deletes?
  }

  lemma NextKeeps(s: System, e: Event)
    requires Inv(s)
    ensures Inv(Next(s, e))
  {
    if EngineEvent(e) || OutsideEvent(e) || e.InsertJob? || e.CancelJob? || e.Tick? || e.Kill? {
      ShellKeeps(s, e);
    } else if e.NoteAccepted? || e.NoteVerifying? || e.Conclude? || e.RecordMismatch? || e.Finish? {
      EndingKeeps(s, e);
    } else {
      WorkerKeeps(s, e);
    }
  }

  /** What happens around the workers. */
  lemma ShellKeeps(s: System, e: Event)
    requires Inv(s) && (EngineEvent(e) || OutsideEvent(e) || e.InsertJob? || e.CancelJob? || e.Tick? || e.Kill?)
    ensures Inv(Next(s, e))
  {
    if EngineEvent(e) {
      EngineKeeps(s, e);
    } else if OutsideEvent(e) {
      OutsideKeeps(s, e);
    } else {
      TableJobsKeep(s, e);
    }
  }

  /** What a worker writes after a POST. */
  lemma EndingKeeps(s: System, e: Event)
    requires Inv(s) && (e.NoteAccepted? || e.NoteVerifying? || e.Conclude? || e.RecordMismatch? || e.Finish?)
    ensures Inv(Next(s, e))
  {
    if e.NoteAccepted? || e.NoteVerifying? {
      NotingKeeps(s, e);
    } else {
      ClosingKeeps(s, e);
    }
  }

  lemma TableJobsKeep(s: System, e: Event)
    requires Inv(s) && (e.InsertJob? || e.CancelJob? || e.Tick? || e.Kill?)
    ensures Inv(Next(s, e))
  {
    match e {
      case InsertJob(id) => InsertJobKeeps(s, id);
      case CancelJob(id) => CancelJobKeeps(s, id);
      case Tick(due) => TickKeeps(s, due);
      case Kill(w) => MovedOn(s, w, Dead);
    }
  }

  lemma NotingKeeps(s: System, e: Event)
    requires Inv(s) && (e.NoteAccepted? || e.NoteVerifying?)
    ensures Inv(Next(s, e))
  {
    var pc := At(s, e.w);
    if e.NoteAccepted? && pc.Found? {
      NoteKeeps(s, e.w, ProviderAccepted, Accepted(pc.id, pc.n, pc.oid));
    } else if e.NoteVerifying? && pc.Accepted? {
      NoteKeeps(s, e.w, Verifying, ReadingBack(pc.id, pc.n, pc.oid));
    }
  }

  lemma ClosingKeeps(s: System, e: Event)
    requires Inv(s) && (e.Conclude? || e.RecordMismatch? || e.Finish?)
    ensures Inv(Next(s, e))
  {
    match e {
      case Conclude(w) => ConcludeKeeps(s, w);
      case RecordMismatch(w) => RecordMismatchKeeps(s, w);
      case Finish(w) => FinishKeeps(s, w);
    }
  }

  lemma WorkerKeeps(s: System, e: Event)
    requires Inv(s) && !EngineEvent(e) && !OutsideEvent(e)
    requires !e.NoteAccepted? && !e.NoteVerifying? && !e.Conclude? && !e.RecordMismatch? && !e.Finish?
    requires !e.InsertJob? && !e.CancelJob? && !e.Tick? && !e.Kill?
    ensures Inv(Next(s, e))
  {
    match e {
      case Claim(w, id) => ClaimKeeps(s, w, id);
      case Begin(w, blocked) => BeginKeeps(s, w, blocked);
      case Reject(w, registered) => RejectKeeps(s, w, registered);
      case Search(w, answered, detailed) => SearchKeeps(s, w, answered, detailed);
      case Post(w, created, reply) => PostKeeps(s, w, created, reply);
      case Recover(w, answered, detailed) => RecoverKeeps(s, w, answered, detailed);
      case ReadBack(w, answered) => ReadBackKeeps(s, w, answered);
      case Explode(w) => ExplodeKeeps(s, w);
    }
  }

  lemma {:induction false} RunKeeps(s: System, events: seq<Event>)
    requires Inv(s)
    ensures Inv(Run(s, events))
    decreases |events|
  {
    if events != [] {
      NextKeeps(s, events[0]);
      RunKeeps(Next(s, events[0]), events[1..]);
    }
  }

  lemma ReachableInv(s: System, events: seq<Event>)
    requires Initial(s)
    ensures Inv(Run(s, events))
  {
    InitialInv(s);
    RunKeeps(s, events);
  }

  // ---- main results ---------------------------------------------------------------------------------------

  /** However many workers, retries, lost replies and crashes: the provider holds at most one object of each action. */
  lemma AtMostOneObjectPerAction(s: System, events: seq<Event>, id: Id, o: ObjectId, p: ObjectId)
    requires Initial(s)
    requires var objects := Run(s, events).objects;
      o in objects && p in objects && Made(objects[o], id) && Made(objects[p], id)
    ensures o == p
  {
    ReachableInv(s, events);
  }

  /** A job is claimed at most five times; its attempt rows are numbered 1 up to its attempt count; it has a
      dead letter exactly when it is a dead letter, after the fifth attempt. */
  lemma AttemptsAreBoundedAndNumbered(s: System, events: seq<Event>, id: Id)
    requires Initial(s) && id in Run(s, events).db.jobs
    ensures var db := Run(s, events).db;
      && db.jobs[id].attempts <= MAX_ATTEMPTS
      && (forall k: nat :: (id, k) in db.attempts <==> 1 <= k <= db.jobs[id].attempts)
      && (id in db.deadLetters <==> db.jobs[id].status == DeadLetter)
      && id in db.table.actions
      && (db.jobs[id].status == DeadLetter ==> db.jobs[id].attempts == MAX_ATTEMPTS && db.table.actions[id].status == DeadLetter)
  {
    ReachableInv(s, events);
    var db := Run(s, events).db;
    assert JobOk(db.jobs[id], db.table.actions[id]);
  }

  /** Two workers are never at work on the same job. */
  lemma OneWorkerPerJob(s: System, events: seq<Event>, v: WorkerId, w: WorkerId)
    requires Initial(s)
    requires var t := Run(s, events); Working(At(t, v)) && Working(At(t, w)) && At(t, v).id == At(t, w).id
    ensures v == w
  {
    ReachableInv(s, events);
    var t := Run(s, events);
    assert PcOk(At(t, v), v, t.db) && PcOk(At(t, w), w, t.db);
  }

  /** SUCCEEDED: somebody approved exactly the stored payload, and a read-back matched it. */
  lemma SucceededMeansApprovedAndVerified(s: System, events: seq<Event>, id: Id)
    requires Initial(s) && id in Run(s, events).db.table.actions
    requires Run(s, events).db.table.actions[id].status == Succeeded
    ensures var db := Run(s, events).db;
      && db.table.actions[id].payloadHash == Digest(db.table.actions[id].payload)
      && db.table.actions[id].approvedHash == Some(db.table.actions[id].payloadHash)
      && exists c :: c in Checks(db, id) && c.matched && Same(db.table.actions[id].payload, c.snapshot)
  {
    ReachableInv(s, events);
    var db := Run(s, events).db;
    assert Bound(db.table.actions[id]) && Verified(db, id);
  }

  predicate Provider(pc: Pc) {
    pc.Searching? || pc.Posting? || pc.Recovering? || pc.Found? || pc.Accepted? || pc.ReadingBack? || pc.Matching? || pc.Differing?
  }

  /** A worker that deals with the provider does so for an action whose stored payload was approved and
      that nobody has cancelled. */
  lemma OnlyApprovedActionsReachTheProvider(s: System, events: seq<Event>, w: WorkerId)
    requires Initial(s) && Provider(At(Run(s, events), w))
    ensures var t := Run(s, events);
      var id := At(t, w).id;
      && id in t.db.table.actions && t.db.table.actions[id].status != Cancelled
      && t.db.table.actions[id].approvedHash == Some(Digest(t.db.table.actions[id].payload))
  {
    ReachableInv(s, events);
    var t := Run(s, events);
    assert PcOk(At(t, w), w, t.db);
    assert Bound(t.db.table.actions[At(t, w).id]);
  }

  /** An action that never executed, such as one cancelled before its first claim, has no object. */
  lemma UnexecutedActionHasNoObject(s: System, events: seq<Event>, id: Id, o: ObjectId)
    requires Initial(s)
    requires var t := Run(s, events);
      (id in t.db.table.actions ==> t.db.table.actions[id].attempts == 0) && o in t.objects
    ensures !Made(Run(s, events).objects[o], id)
  {
    ReachableInv(s, events);
  }
}
