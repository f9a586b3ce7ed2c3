/** Where a Zoho action ends: what a claim takes, and what a search, a POST and a read-back lead to. */
module ZohoOutcomes {
  import opened Options
  import opened FinanceActions
  import opened ZohoWorker
  import opened ZohoSafety

  // ---- approvals, cancels and claims ------------------------------------------------------------------------

  /** An approval that nothing interrupts queues the action, and a job for it unless there is one. */
  lemma ApprovalQueues(db: Db, id: Id, reviewed: Digest<Bill>)
    requires TableOk(db.table) && Approvable(db.table, id, reviewed)
    ensures var u := InsertJobTx(db.(table := QueueRow(ApproveRow(db.table, id, reviewed), id)), id);
      && id in u.table.actions && u.table.actions[id].status == Queued && u.table.actions[id].approvedHash == Some(reviewed)
      && id in u.jobs && u.jobs[id] == (if id in db.jobs then db.jobs[id] else Job(Queued, 0, None))
      && (forall k :: k in db.jobs ==> k in u.jobs && u.jobs[k] == db.jobs[k])
  {
  }

  /** A cancel takes action and waiting job together. */
  lemma CancelTakesBoth(db: Db, id: Id)
    requires Cancellable(db.table, id)
    ensures var u := CancelJobTx(db.(table := CancelRow(db.table, id)), id);
      && id in u.table.actions && u.table.actions[id].status == Cancelled
      && (id in db.jobs && db.jobs[id].status == Queued ==> u.jobs == db.jobs[id := db.jobs[id].(status := Cancelled)])
      && (!(id in db.jobs && db.jobs[id].status == Queued) ==> u.jobs == db.jobs)
  {
  }

  /** A tick queues again exactly the due jobs that wait for a retry, each with an action that waits too. */
  lemma TickQueues(db: Db, due: set<Id>, id: Id)
    requires id in db.jobs && id in db.table.actions
    ensures var u := TickTx(db, due);
      && id in u.jobs && id in u.table.actions
      && (u.jobs[id] != db.jobs[id] <==> id in due && db.jobs[id].status == RetryScheduled)
      && (u.jobs[id] != db.jobs[id] ==> u.jobs[id] == db.jobs[id].(status := Queued))
      && (u.table.actions[id] != db.table.actions[id] <==>
            id in due && db.jobs[id].status == RetryScheduled && db.table.actions[id].status == RetryScheduled)
      && (u.table.actions[id] != db.table.actions[id] ==> u.table.actions[id] == db.table.actions[id].(status := Queued))
  {
    if Due(db, due, id) {
      assert TickTx(db, due).jobs[id].status == Queued;
    }
  }

  lemma AttemptIsFree(db: Db, id: Id)
    requires DbInv(db) && id in db.jobs
    ensures (id, db.jobs[id].attempts + 1) !in db.attempts && id in db.table.actions
  {
  }

  /** In every reachable state a claim takes exactly a queued job; it counts the attempt and notes the owner. */
  lemma ClaimTakesQueued(db: Db, w: WorkerId, id: Id)
    requires DbInv(db)
    ensures ClaimTx(db, w, id).Some? <==> id in db.jobs && db.jobs[id].status == Queued
    ensures ClaimTx(db, w, id).Some? ==>
      var u := ClaimTx(db, w, id).value;
      var n := db.jobs[id].attempts + 1;
      && u.jobs == db.jobs[id := Job(Claimed, n, Some(w))] && u.attempts == db.attempts[(id, n) := Claimed]
      && id in db.table.actions && id in u.table.actions
      && u.table.actions[id] == (if db.table.actions[id].status == Queued then db.table.actions[id].(status := Claimed)
                                 else db.table.actions[id])
  {
    if id in db.jobs {
      AttemptIsFree(db, id);
      FreeAttemptIsTaken(db, w, id);
    }
  }

  lemma FreeAttemptIsTaken(db: Db, w: WorkerId, id: Id)
    requires id in db.jobs && (id, db.jobs[id].attempts + 1) !in db.attempts && id in db.table.actions
    ensures ClaimTx(db, w, id).Some? <==> db.jobs[id].status == Queued
    ensures ClaimTx(db, w, id).Some? ==>
      var u := ClaimTx(db, w, id).value;
      var n := db.jobs[id].attempts + 1;
      && u.jobs == db.jobs[id := Job(Claimed, n, Some(w))] && u.attempts == db.attempts[(id, n) := Claimed]
      && id in u.table.actions
      && u.table.actions[id] == (if db.table.actions[id].status == Queued then db.table.actions[id].(status := Claimed)
                                 else db.table.actions[id])
  {
  }

  // ---- searches ------------------------------------------------------------------------------------------------

  /** Nothing stands under the reference. */
  ghost predicate Absent(objects: map<ObjectId, Object>, reference: string) {
    forall o :: o in objects ==> objects[o].reference != reference
  }

  /** The object is the bill, and the only one under its reference. */
  ghost predicate TheOne(objects: map<ObjectId, Object>, bill: Bill, o: ObjectId) {
    && o in objects && objects[o].reference == bill.reference && objects[o].body == bill.body
    && forall p :: p in objects && objects[p].reference == bill.reference ==> p == o
  }

  lemma SeekMeans(objects: map<ObjectId, Object>, bill: Bill, answered: bool, detailed: bool)
    ensures var r := Seek(objects, bill, answered, detailed);
      && (r.Nobody? <==> answered && Absent(objects, bill.reference))
      && (r.Unique? ==> answered && detailed && TheOne(objects, bill, r.oid))
    ensures forall o :: answered && detailed && TheOne(objects, bill, o) ==> Seek(objects, bill, answered, detailed) == Unique(o)
  {
    var c := Candidates(objects, bill.reference);
    if c == {} {
      forall o | o in objects ensures objects[o].reference != bill.reference {
        assert o !in c;
      }
    } else {
      var o :| o in c;
      assert !Absent(objects, bill.reference);
    }
    forall o | TheOne(objects, bill, o) ensures c == {o} {
      assert o in c;
    }
    if Seek(objects, bill, answered, detailed).Unique? {
      var o := Seek(objects, bill, answered, detailed).oid;
      forall p | p in objects && objects[p].reference == bill.reference ensures p == o {
        assert p in c;
      }
    }
  }

  lemma CreatedIsTheOne(objects: map<ObjectId, Object>, bill: Bill, id: Id, o: ObjectId)
    requires Absent(objects, bill.reference)
    ensures TheOne(objects[o := Object(bill.reference, bill.body, Some(id))], bill, o)
  {
  }

  // ---- the end of a pass -----------------------------------------------------------------------------------------

  /** A retry of the fifth attempt is a dead letter. */
  function Final(outcome: Status, n: nat): Status {
    if outcome == RetryScheduled && n >= 5 then DeadLetter else outcome
  }

  /** Action, job and attempt are closed with one status, and the owner is gone. */
  ghost predicate ClosedWith(before: Db, db: Db, id: Id, n: nat, s: Status) {
    && id in before.table.actions && db.table == before.table.(actions := before.table.actions[id := before.table.actions[id].(status := s)])
    && (id in before.jobs ==> db.jobs == before.jobs[id := before.jobs[id].(status := s, owner := None)])
    && ((id, n) in before.attempts ==> db.attempts == before.attempts[(id, n) := s])
    && db.deadLetters == (if s == DeadLetter && id in before.jobs then before.deadLetters + {id} else before.deadLetters)
  }

  /** The statuses _finish is asked for, from those it can meet. */
  predicate Finishable(from: Status, outcome: Status) {
    match outcome
    case Failed => from.Claimed? || from.Executing? || from.Verifying?
    case NeedsReview => from.Executing? || from.ProviderAccepted? || from.Verifying?
    case RetryScheduled => from.Claimed? || from.Executing? || from.Verifying?
    case AuthExpired => from.Executing?
    case _ => false
  }

  lemma FinishPasses(db: Db, id: Id, n: nat, outcome: Status)
    requires id in db.table.actions && Finishable(db.table.actions[id].status, outcome)
    ensures FinishTx(db, id, n, outcome).Some?
  {
  }

  lemma FinishCloses(db: Db, id: Id, n: nat, outcome: Status)
    requires id in db.table.actions && Finishable(db.table.actions[id].status, outcome)
    ensures FinishTx(db, id, n, outcome).Some?
    ensures ClosedWith(db, FinishTx(db, id, n, outcome).value, id, n, Final(outcome, n))
    ensures FinishTx(db, id, n, outcome).value.checks == db.checks
  {
    FinishPasses(db, id, n, outcome);
    FinishForm(db, id, n, outcome);
  }

  lemma ConcludeCloses(db: Db, id: Id, n: nat, snapshot: Object)
    requires id in db.table.actions && db.table.actions[id].status == Verifying
    ensures ConcludeTx(db, id, n, snapshot).Some?
    ensures var u := ConcludeTx(db, id, n, snapshot).value;
      ClosedWith(db, u, id, n, Succeeded) && u.checks == db.checks[id := Checks(db, id) + [Check(snapshot, true)]]
  {
  }

  /** The three ways on from a read-back to the end of the pass. */
  ghost function VerifiedStep(s: System, w: WorkerId, answered: bool): System {
    var t := ReadBackStep(s, w, answered);
    if At(t, w).Matching? then ConcludeStep(t, w)
    else if At(t, w).Differing? then FinishStep(RecordMismatchStep(t, w), w)
    else FinishStep(t, w)
  }

  lemma ReadBackMatches(s: System, w: WorkerId, id: Id, n: nat, oid: ObjectId)
    requires At(s, w) == ReadingBack(id, n, oid) && id in s.db.table.actions && s.db.table.actions[id].status == Verifying
    requires oid in s.objects && s.objects[oid].reference == s.db.table.actions[id].payload.reference
    requires s.objects[oid].body == s.db.table.actions[id].payload.body
    ensures var u := VerifiedStep(s, w, true);
      && At(u, w) == Asleep && ClosedWith(s.db, u.db, id, n, Succeeded)
      && u.db.checks == s.db.checks[id := Checks(s.db, id) + [Check(s.objects[oid], true)]]
  {
    ConcludeCloses(s.db, id, n, s.objects[oid]);
  }

  lemma ReadBackDiffers(s: System, w: WorkerId, id: Id, n: nat, oid: ObjectId)
    requires At(s, w) == ReadingBack(id, n, oid) && id in s.db.table.actions && s.db.table.actions[id].status == Verifying
    requires oid in s.objects
    requires s.objects[oid].reference != s.db.table.actions[id].payload.reference
             || s.objects[oid].body != s.db.table.actions[id].payload.body
    ensures var u := VerifiedStep(s, w, true);
      && At(u, w) == Asleep && ClosedWith(s.db, u.db, id, n, NeedsReview)
      && u.db.checks == s.db.checks[id := Checks(s.db, id) + [Check(s.objects[oid], false)]]
  {
    FinishCloses(Record(s.db, id, Check(s.objects[oid], false)), id, n, NeedsReview);
  }

  lemma ReadBackFails(s: System, w: WorkerId, id: Id, n: nat, oid: ObjectId, answered: bool)
    requires At(s, w) == ReadingBack(id, n, oid) && id in s.db.table.actions && s.db.table.actions[id].status == Verifying
    requires !answered || oid !in s.objects
    ensures var u := VerifiedStep(s, w, answered);
      At(u, w) == Asleep && ClosedWith(s.db, u.db, id, n, NeedsReview) && u.db.checks == s.db.checks
  {
    FinishCloses(s.db, id, n, NeedsReview);
  }

  /** From every reachable state: an answered read-back ends in SUCCEEDED, with a matched check of what was read, exactly
      when the object exists and is the approved bill, and in NEEDS_REVIEW otherwise. */
  lemma ReadBackDecides(s: System, w: WorkerId, answered: bool)
    requires Inv(s) && w in s.workers && At(s, w).ReadingBack?
    ensures var pc, u := At(s, w), VerifiedStep(s, w, answered);
      && pc.id in s.db.table.actions && pc.id in s.db.jobs && At(u, w) == Asleep
      && var bill := s.db.table.actions[pc.id].payload;
      && var matches := answered && pc.oid in s.objects
           && s.objects[pc.oid].reference == bill.reference && s.objects[pc.oid].body == bill.body;
      && ClosedWith(s.db, u.db, pc.id, pc.n, if matches then Succeeded else NeedsReview)
      && (matches ==> Checks(u.db, pc.id) == Checks(s.db, pc.id) + [Check(s.objects[pc.oid], true)])
      && (answered && pc.oid in s.objects && !matches ==>
            Checks(u.db, pc.id) == Checks(s.db, pc.id) + [Check(s.objects[pc.oid], false)])
  {
    var pc := At(s, w);
    assert PcOk(pc, w, s.db);
    var bill := s.db.table.actions[pc.id].payload;
    if !answered || pc.oid !in s.objects {
      ReadBackFails(s, w, pc.id, pc.n, pc.oid, answered);
    } else if s.objects[pc.oid].reference == bill.reference && s.objects[pc.oid].body == bill.body {
      ReadBackMatches(s, w, pc.id, pc.n, pc.oid);
    } else {
      ReadBackDiffers(s, w, pc.id, pc.n, pc.oid);
    }
  }

  /** A POST that is not answered with an id, nor lost, ends the pass: a rate limit is retried, or dead at the fifth
      attempt, a refused login waits for a new one, and anything else is reviewed. */
  lemma ReplyDecides(s: System, w: WorkerId, created: Option<ObjectId>, reply: PostReply)
    requires Inv(s) && w in s.workers && At(s, w).Posting? && !reply.Created? && !reply.Lost?
    requires created.Some? ==> created.value !in s.objects
    ensures var pc, u := At(s, w), FinishStep(PostStep(s, w, created, reply), w);
      && At(u, w) == Asleep
      && ClosedWith(s.db, u.db, pc.id, pc.n,
                    if reply.RateLimited? then if pc.n >= 5 then DeadLetter else RetryScheduled
                    else if reply.Unauthorized? then AuthExpired else NeedsReview)
  {
    var pc := At(s, w);
    assert PcOk(pc, w, s.db);
    FinishCloses(s.db, pc.id, pc.n,
                 if reply.RateLimited? then RetryScheduled else if reply.Unauthorized? then AuthExpired else NeedsReview);
  }
}
