/**
 When the action queue and the job queue agree.

 A cancel that arrives while a retry is scheduled, or before the approver has inserted the job row, leaves a
 job behind that is claimed later although its action is cancelled.  No other cancel does.
 */
module ZohoQueue {
  import opened Options
  import opened FinanceActions
  import opened ZohoWorker
  import opened ZohoSafety
  import opened ZohoRuns

  predicate AwaitsInsert(t: Table<Bill>, id: Id) {
    id in t.desk && t.desk[id] == MustInsertJob
  }

  predicate Waiting(s: Status) {
    s.Queued? || s.RetryScheduled?
  }

  /** A cancelled action has no waiting job, unless its canceller is still between the two statements. */
  predicate NoOrphan(job: Job, action: Row, cancelling: bool) {
    Waiting(job.status) && action.status == Cancelled ==> job.status == Queued && cancelling
  }

  ghost predicate NoOrphans(db: Db, cancelling: set<Id>) {
    forall id :: id in db.jobs && id in db.table.actions ==> NoOrphan(db.jobs[id], db.table.actions[id], id in cancelling)
  }

  /** Between approval and job row an action is QUEUED, and it is QUEUED without a job row only then. */
  ghost predicate Inserting(db: Db) {
    forall id :: id in db.table.actions && id !in db.jobs ==>
      (db.table.actions[id].status == Queued <==> AwaitsInsert(db.table, id))
  }

  ghost predicate Pairs(s: System) {
    NoOrphans(s.db, s.cancelling) && Inserting(s.db)
  }

  /** The cancel finds an action that awaits approval or one whose job row waits beside it. */
  predicate Timely(s: System, e: Event) {
    e.Cancel? && Cancellable(s.db.table, e.id) ==>
      !s.db.table.actions[e.id].status.RetryScheduled?
      && (s.db.table.actions[e.id].status.Queued? ==> e.id in s.db.jobs)
  }

  // ---- each step ---------------------------------------------------------------------------------------

  lemma ProposeKeepsPairs(s: System, id: Id, key: string, bill: Bill)
    requires Inv(s) && Pairs(s)
    ensures var u := s.(db := s.db.(table := ProposeRow(s.db.table, id, key, bill))); Pairs(u)
  {
  }

  lemma ApproveKeepsPairs(s: System, id: Id, reviewed: Digest<Bill>)
    requires Inv(s) && Pairs(s)
    ensures Pairs(s.(db := s.db.(table := ApproveRow(s.db.table, id, reviewed))))
  {
  }

  lemma EnqueueKeepsNoOrphans(db: Db, cancelling: set<Id>, id: Id)
    requires NoOrphans(db, cancelling) && TableOk(db.table)
    ensures NoOrphans(db.(table := QueueRow(db.table, id)), cancelling)
  {
  }

  lemma EnqueueKeepsInserting(db: Db, id: Id)
    requires Inserting(db) && TableOk(db.table)
    ensures Inserting(db.(table := QueueRow(db.table, id)))
  {
  }

  lemma EnqueueKeepsPairs(s: System, id: Id)
    requires Inv(s) && Pairs(s)
    ensures Pairs(s.(db := s.db.(table := QueueRow(s.db.table, id))))
  {
    EnqueueKeepsNoOrphans(s.db, s.cancelling, id);
    EnqueueKeepsInserting(s.db, id);
  }

  lemma CancelKeepsPairs(s: System, id: Id)
    requires Inv(s) && Pairs(s) && Timely(s, Cancel(id))
    ensures Pairs(TableStep(s, Cancel(id)))
  {
    if Cancellable(s.db.table, id) {
      var u := TableStep(s, Cancel(id));
      if id in s.db.jobs {
        assert JobOk(s.db.jobs[id], s.db.table.actions[id]);
      }
      forall k | k in u.db.jobs && k in u.db.table.actions
        ensures NoOrphan(u.db.jobs[k], u.db.table.actions[k], k in u.cancelling)
      {
        assert NoOrphan(s.db.jobs[k], s.db.table.actions[k], k in s.cancelling);
      }
    }
  }

  lemma OnlyAtKeepsPairs(s: System, db': Db, id: Id)
    requires Pairs(s) && OnlyAt(s.db, db', id)
    requires !Waiting(db'.jobs[id].status) || db'.table.actions[id].status != Cancelled
    ensures Pairs(s.(db := db'))
  {
  }

  lemma InsertJobKeepsPairs(s: System, id: Id)
    requires Inv(s) && Pairs(s)
    ensures Pairs(s.(db := InsertJobTx(s.db, id)))
  {
  }

  lemma CancelJobKeepsPairs(s: System, id: Id)
    requires Inv(s) && Pairs(s)
    ensures Pairs(CancelJobStep(s, id))
  {
  }

  lemma TickKeepsPairs(s: System, due: set<Id>)
    requires Inv(s) && Pairs(s)
    ensures Pairs(s.(db := TickTx(s.db, due)))
  {
  }

  lemma SameRowsKeepPairs(s: System, u: System)
    requires Pairs(s) && u.db.table == s.db.table && u.db.jobs == s.db.jobs && u.cancelling == s.cancelling
    ensures Pairs(u)
  {
  }

  lemma ClaimKeepsPairs(s: System, w: WorkerId, id: Id)
    requires Inv(s) && Pairs(s)
    ensures Pairs(ClaimStep(s, w, id))
  {
  }

  lemma UpdatedKeepsPairs(s: System, id: Id, to: Status, count: nat)
    requires Pairs(s) && id in s.db.jobs && id in s.db.table.actions && s.db.jobs[id].status == Claimed
    ensures Pairs(s.(db := Updated(s.db, id, to, count)))
  {
  }

  lemma BeginKeepsPairs(s: System, w: WorkerId, blocked: bool)
    requires Inv(s) && Pairs(s)
    ensures Pairs(BeginStep(s, w, blocked))
  {
    var pc := At(s, w);
    if pc.Took? && !blocked && Checks(s.db, pc.id) == [] {
      assert PcOk(pc, w, s.db);
      if StatusTx(s.db, pc.id, Executing).Some? {
        BeginForm(s, w, pc.id);
        UpdatedKeepsPairs(s, pc.id, Executing, 1);
      }
    }
  }

  lemma NoteKeepsPairs(s: System, w: WorkerId, to: Status, next: Pc)
    requires Inv(s) && Pairs(s) && (At(s, w).Found? || At(s, w).Accepted?)
    ensures Pairs(NoteStep(s, w, to, next))
  {
    var pc := At(s, w);
    assert PcOk(pc, w, s.db);
    if StatusTx(s.db, pc.id, to).Some? {
      NoteForm(s, w, to, next);
      UpdatedKeepsPairs(s, pc.id, to, 0);
    }
  }

  lemma ClosedKeepsPairs(s: System, id: Id, n: nat, to: Status)
    requires Inv(s) && Pairs(s) && id in s.db.jobs && id in s.db.table.actions
    requires s.db.jobs[id].status == Claimed && s.db.jobs[id].attempts == n
    requires s.db.table.actions[id].status != Cancelled && Ends(s.db, id, n, to)
    ensures Pairs(s.(db := Closed(s.db, id, n, to)))
  {
    ClosedKeepsDb(s.db, id, n, to);
    OnlyAtKeepsPairs(s, Closed(s.db, id, n, to), id);
  }

  lemma ConcludeKeepsPairs(s: System, w: WorkerId)
    requires Inv(s) && Pairs(s)
    ensures Pairs(ConcludeStep(s, w))
  {
  }

  lemma FinishKeepsPairs(s: System, w: WorkerId)
    requires Inv(s) && Pairs(s)
    ensures Pairs(FinishStep(s, w))
  {
    var pc := At(s, w);
    if pc.Finishing? {
      assert PcOk(pc, w, s.db);
      if FinishTx(s.db, pc.id, pc.n, pc.outcome).Some? {
        FinishForm(s.db, pc.id, pc.n, pc.outcome);
        ClosedKeepsPairs(s, pc.id, pc.n, if Exhausted(pc.n, pc.outcome) then DeadLetter else pc.outcome);
      }
    }
  }

  lemma MovesKeepCancelling(s: System, e: Event)
    requires MovesOnly(e)
    ensures Next(s, e).cancelling == s.cancelling
  {
  }

  lemma TablesKeepPairs(s: System, e: Event)
    requires Inv(s) && Pairs(s) && Timely(s, e)
    requires EngineEvent(e) || e.InsertJob? || e.CancelJob? || e.Tick?
    ensures Pairs(Next(s, e))
  {
    match e {
      case Propose(id, key, bill) => ProposeKeepsPairs(s, id, key, bill);
      case Approve(id, reviewed) => ApproveKeepsPairs(s, id, reviewed);
      case Enqueue(id) => EnqueueKeepsPairs(s, id);
      case Cancel(id) => CancelKeepsPairs(s, id);
      case InsertJob(id) => InsertJobKeepsPairs(s, id);
      case CancelJob(id) => CancelJobKeepsPairs(s, id);
      case Tick(due) => TickKeepsPairs(s, due);
    }
  }

  predicate ClosingEvent(e: Event) {
    e.Conclude? || e.Finish? || e.RecordMismatch?
  }

  lemma ClosingKeepsPairs(s: System, e: Event)
    requires Inv(s) && Pairs(s) && ClosingEvent(e)
    ensures Pairs(Next(s, e))
  {
    match e {
      case Conclude(w) => ConcludeKeepsPairs(s, w);
      case Finish(w) => FinishKeepsPairs(s, w);
      case RecordMismatch(w) => MismatchKeepsPairs(s, e);
    }
  }

  lemma MismatchKeepsPairs(s: System, e: Event)
    requires Pairs(s) && e.RecordMismatch?
    ensures Pairs(Next(s, e))
  {
    SameRowsKeepPairs(s, RecordMismatchStep(s, e.w));
  }

  lemma WorkersKeepPairs(s: System, e: Event)
    requires Inv(s) && Pairs(s)
    requires e.Claim? || e.Begin? || e.NoteAccepted? || e.NoteVerifying? || ClosingEvent(e)
    ensures Pairs(Next(s, e))
  {
    match e {
      case Claim(w, id) => ClaimKeepsPairs(s, w, id);
      case Begin(w, blocked) => BeginKeepsPairs(s, w, blocked);
      case NoteAccepted(w) =>
        if At(s, w).Found? {
          NoteKeepsPairs(s, w, ProviderAccepted, Accepted(At(s, w).id, At(s, w).n, At(s, w).oid));
        }
      case NoteVerifying(w) =>
        if At(s, w).Accepted? {
          NoteKeepsPairs(s, w, Verifying, ReadingBack(At(s, w).id, At(s, w).n, At(s, w).oid));
        }
      case _ => ClosingKeepsPairs(s, e);
    }
  }

  lemma NextKeepsPairs(s: System, e: Event)
    requires Inv(s) && Pairs(s) && Timely(s, e)
    ensures Pairs(Next(s, e))
  {
    if MovesOnly(e) {
      MovesKeepDb(s, e);
      MovesKeepCancelling(s, e);
      SameRowsKeepPairs(s, Next(s, e));
    } else if EngineEvent(e) || e.InsertJob? || e.CancelJob? || e.Tick? {
      TablesKeepPairs(s, e);
    } else {
      WorkersKeepPairs(s, e);
    }
  }

  // ---- runs -----------------------------------------------------------------------------------------------

  /** Every cancel of the run comes at a time when no orphan can result. */
  ghost predicate TimelyRun(s: System, events: seq<Event>)
    decreases |events|
  {
    events == [] || (Timely(s, events[0]) && TimelyRun(Next(s, events[0]), events[1..]))
  }

  lemma {:induction false} RunKeepsPairs(s: System, events: seq<Event>)
    requires Inv(s) && Pairs(s) && TimelyRun(s, events)
    ensures Pairs(Run(s, events))
    decreases |events|
  {
    if events != [] {
      NextKeepsPairs(s, events[0]);
      NextKeeps(s, events[0]);
      RunKeepsPairs(Next(s, events[0]), events[1..]);
    }
  }

  /** Away from an unfinished approval or cancel, an action is QUEUED exactly when its job is, and the same
      holds of RETRY_SCHEDULED. */
  lemma QueuedTogether(s: System, events: seq<Event>, id: Id)
    requires Initial(s) && TimelyRun(s, events)
    requires var t := Run(s, events);
      id in t.db.table.actions && !AwaitsInsert(t.db.table, id) && id !in t.cancelling
    ensures var db := Run(s, events).db;
      && (db.table.actions[id].status == Queued <==> id in db.jobs && db.jobs[id].status == Queued)
      && (db.table.actions[id].status == RetryScheduled <==> id in db.jobs && db.jobs[id].status == RetryScheduled)
  {
    InitialInv(s);
    RunKeepsPairs(s, events);
    ReachableInv(s, events);
    var db := Run(s, events).db;
    if id in db.jobs {
      assert NoOrphan(db.jobs[id], db.table.actions[id], false);
      assert JobOk(db.jobs[id], db.table.actions[id]);
    } else {
      assert Early(db.table.actions[id].status);
    }
  }

  // ---- the cancels that are not timely -------------------------------------------------------------------------

  /** A job that waits for a worker although its action is cancelled and no canceller is at work on it. */
  predicate Orphan(s: System, id: Id) {
    id in s.db.jobs && id in s.db.table.actions && Waiting(s.db.jobs[id].status) && s.db.jobs[id].attempts < MAX_ATTEMPTS
    && s.db.table.actions[id].status == Cancelled && id !in s.cancelling
  }

  /** Cancelling while a retry is scheduled leaves such a job. */
  lemma CancelFromRetryLeavesOrphan(s: System, id: Id)
    requires Inv(s) && id in s.db.jobs && id in s.db.table.actions
    requires s.db.table.actions[id].status == RetryScheduled
    ensures Orphan(CancelJobStep(TableStep(s, Cancel(id)), id), id)
  {
  }

  /** So does cancelling between the approver's second and third statement. */
  lemma EarlyCancelLeavesOrphan(s: System, id: Id)
    requires Inv(s) && id in s.db.table.actions && id !in s.db.jobs && AwaitsInsert(s.db.table, id)
    requires s.db.table.actions[id].status == Queued
    ensures var t := CancelJobStep(TableStep(s, Cancel(id)), id); Orphan(t.(db := InsertJobTx(t.db, id)), id)
  {
  }

  /** The tick that is due puts the orphan in the queue, if it is not there. */
  lemma OrphanIsQueued(s: System, id: Id)
    requires Inv(s) && Orphan(s, id)
    ensures var t := s.(db := TickTx(s.db, {id})); Orphan(t, id) && t.db.jobs[id].status == Queued
  {
  }

  lemma OrphanIsClaimed(s: System, id: Id, w: WorkerId)
    requires AttemptsInv(s.db) && Orphan(s, id) && s.db.jobs[id].status == Queued && At(s, w) == Asleep
    ensures ClaimTx(s.db, w, id).Some?
    ensures var db := ClaimTx(s.db, w, id).value;
      && ClaimStep(s, w, id) == Go(s.(db := db), w, Took(id, s.db.jobs[id].attempts + 1))
      && id in db.jobs && db.jobs[id].status == Claimed && db.checks == s.db.checks
      && id in db.table.actions && db.table.actions[id].status == Cancelled
  {
  }

  lemma CancelledIsNotExecuted(db: Db, id: Id)
    requires id in db.table.actions && db.table.actions[id].status == Cancelled
    ensures StatusTx(db, id, Executing) == None
  {
  }

  /** The worker that claims a queued orphan and finds its preconditions met dies at its first UPDATE, and the
      job stays CLAIMED. */
  lemma OrphanKillsItsWorker(s: System, id: Id, w: WorkerId)
    requires Inv(s) && Orphan(s, id) && s.db.jobs[id].status == Queued && At(s, w) == Asleep && Checks(s.db, id) == []
    ensures var t := BeginStep(ClaimStep(s, w, id), w, false);
      At(t, w) == Dead && id in t.db.jobs && t.db.jobs[id].status == Claimed && t.objects == s.objects
  {
    OrphanIsClaimed(s, id, w);
    CancelledIsNotExecuted(ClaimTx(s.db, w, id).value, id);
  }
}
