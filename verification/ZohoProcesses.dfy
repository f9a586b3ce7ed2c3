/**
 The Zoho write path in the form it is written in: the statements of the API and of the scheduler on the
 two tables, and one pass of the worker loop, proved to be steps of the state machine.  `Fate` says what
 one pass meets: every reply, and the step at which an exception or the end of the process hits it.
 */
module ZohoProcesses {
  import opened Options
  import opened FinanceActions
  import opened ZohoWorker
  import opened ZohoSafety
  import opened ZohoRuns
  import opened ZohoOutcomes

  class Database {
    var actions: map<Id, Row>
    var keys: map<string, Id>
    var jobs: map<Id, Job>
    var attempts: map<(Id, nat), Status>
    var deadLetters: set<Id>
    var checks: map<Id, seq<Check>>
    ghost var desk: map<Id, DeskStep>

    ghost function Rows(): Db
      reads this
    {
      Db(Table(actions, keys, desk), jobs, attempts, deadLetters, checks)
    }

    constructor ()
      ensures Rows() == Db(Table(map[], map[], map[]), map[], map[], {}, map[])
    {
      actions, keys, jobs, attempts, deadLetters, checks, desk := map[], map[], map[], map[], {}, map[], map[];
    }

    /** `uuid` is newly drawn. */
    method ProposeAction(uuid: Id, key: string, bill: Bill) returns (id: Id)
      requires uuid !in actions
      modifies this`actions, this`keys
      ensures Rows() == old(Rows()).(table := ProposeRow(old(Rows().table), uuid, key, bill))
      ensures key in keys && keys[key] == id
    {
      if key in keys {
        return keys[key];
      }
      id := uuid;
      actions := actions[id := Action(bill, Digest(bill), None, AwaitingApproval, 0, None)];
      keys := keys[key := id];
    }

    /** The three statements of one approval that nothing interrupts. */
    method ApproveAction(id: Id, reviewed: Digest<Bill>) returns (ok: bool)
      modifies this`actions, this`jobs, this`desk
      ensures ok == Approvable(old(Rows().table), id, reviewed)
      ensures !ok ==> Rows() == old(Rows())
      ensures ok ==>
        Rows() == InsertJobTx(old(Rows()).(table := QueueRow(ApproveRow(old(Rows().table), id, reviewed), id)), id)
    {
      ok := id in actions && actions[id].payloadHash == reviewed && actions[id].status == AwaitingApproval;
      if !ok {
        return;
      }
      actions := actions[id := actions[id].(status := Approved, approvedHash := Some(reviewed))];
      desk := desk[id := MustQueue];
      assert Rows().table == ApproveRow(old(Rows().table), id, reviewed);
      actions := actions[id := actions[id].(status := Queued)];
      desk := desk[id := MustInsertJob];
      assert Rows().table == QueueRow(ApproveRow(old(Rows().table), id, reviewed), id);
      if id !in jobs {
        jobs := jobs[id := Job(Queued, 0, None)];
      }
      desk := desk - {id};
    }

    /** The two statements of one cancel that nothing interrupts. */
    method CancelAction(id: Id) returns (ok: bool)
      modifies this`actions, this`jobs
      ensures ok == Cancellable(old(Rows().table), id)
      ensures !ok ==> Rows() == old(Rows())
      ensures ok ==> Rows() == CancelJobTx(old(Rows()).(table := CancelRow(old(Rows().table), id)), id)
    {
      ok := id in actions
        && (actions[id].status == AwaitingApproval || actions[id].status == Queued || actions[id].status == RetryScheduled);
      if !ok {
        return;
      }
      actions := actions[id := actions[id].(status := Cancelled)];
      if id in jobs && jobs[id].status == Queued {
        jobs := jobs[id := jobs[id].(status := Cancelled)];
      }
    }

    /** scheduler.tick: actions first, by a join on the jobs, then the jobs. */
    method Tick(due: set<Id>)
      modifies this`actions, this`jobs
      ensures Rows() == TickTx(old(Rows()), due)
    {
      actions := map id | id in actions ::
        if id in due && id in jobs && jobs[id].status == RetryScheduled && actions[id].status == RetryScheduled
        then actions[id].(status := Queued) else actions[id];
      jobs := map id | id in jobs ::
        if id in due && jobs[id].status == RetryScheduled then jobs[id].(status := Queued) else jobs[id];
    }

    /** Any queued job may be the one that SKIP LOCKED leaves over. */
    method Claim(w: WorkerId) returns (job: Option<(Id, nat)>)
      modifies this`actions, this`jobs, this`attempts
      ensures job.None? ==> Rows() == old(Rows())
      ensures job.None? && AttemptsInv(Rows()) ==> forall id :: ClaimTx(Rows(), w, id) == None
      ensures job.Some? ==> ClaimTx(old(Rows()), w, job.value.0) == Some(Rows())
      ensures job.Some? ==> job.value.0 in jobs && job.value.1 == jobs[job.value.0].attempts && job.value.0 in actions
    {
      job := None;
      if id :| id in jobs && jobs[id].status == Queued && id in actions {
        var n := jobs[id].attempts + 1;
        if (id, n) in attempts {
          return;  // UNIQUE(job_id, attempt_number): the transaction rolls back
        }
        jobs := jobs[id := Job(Claimed, n, Some(w))];
        if actions[id].status == Queued {
          actions := actions[id := actions[id].(status := Claimed)];
        }
        attempts := attempts[(id, n) := Claimed];
        job := Some((id, n));
        assert actions == old(actions)[id := actions[id]];
      }
    }

    /** UPDATE of one status; `raised` when the trigger refuses it. */
    method SetStatus(id: Id, to: Status) returns (raised: bool)
      modifies this`actions
      ensures raised <==> StatusTx(old(Rows()), id, to) == None
      ensures Rows() == if raised then old(Rows()) else StatusTx(old(Rows()), id, to).value
      ensures actions.Keys == old(actions).Keys
    {
      raised := false;
      if id in actions {
        raised := !Allowed(actions[id].status, to) || to == Succeeded;
        if !raised {
          actions := actions[id := actions[id].(status := to)];
        }
      }
    }

    method SetExecuting(id: Id) returns (raised: bool)
      modifies this`actions
      ensures raised <==> StatusTx(old(Rows()), id, Executing) == None
      ensures Rows() == if raised then old(Rows()) else CountAttempt(StatusTx(old(Rows()), id, Executing).value, id)
      ensures actions.Keys == old(actions).Keys
      ensures id in actions && old(actions)[id].status == FinanceActions.Claimed ==> !raised
      ensures id in actions && !raised ==>
        actions == old(actions)[id := old(actions)[id].(status := Executing, attempts := old(actions)[id].attempts + 1)]
    {
      raised := SetStatus(id, Executing);
      if !raised && id in actions {
        actions := actions[id := actions[id].(attempts := actions[id].attempts + 1)];
      }
    }

    method Close(id: Id, n: nat, status: Status)
      modifies this`jobs, this`attempts, this`deadLetters
      ensures Rows() == CloseJob(old(Rows()), id, n, status)
    {
      if status == DeadLetter && id in jobs {
        deadLetters := deadLetters + {id};
      }
      if id in jobs {
        jobs := jobs[id := jobs[id].(status := status, owner := None)];
      }
      if (id, n) in attempts {
        attempts := attempts[(id, n) := status];
      }
    }

    /** _finish: one transaction, undone when the trigger refuses either status. */
    method Finish(id: Id, n: nat, outcome: Status) returns (raised: bool)
      modifies this`actions, this`jobs, this`attempts, this`deadLetters
      ensures raised <==> FinishTx(old(Rows()), id, n, outcome) == None
      ensures Rows() == if raised then old(Rows()) else FinishTx(old(Rows()), id, n, outcome).value
    {
      var before := actions;
      var status := outcome;
      raised := false;
      if outcome == RetryScheduled && n >= MAX_ATTEMPTS {
        status := DeadLetter;
        raised := SetStatus(id, Failed);
      }
      if !raised {
        raised := SetStatus(id, status);
      }
      if raised {
        actions := before;
      } else {
        Close(id, n, status);
      }
    }

    method RecordCheck(id: Id, check: Check)
      modifies this`checks
      ensures Rows() == Record(old(Rows()), id, check)
    {
      checks := checks[id := (if id in checks then checks[id] else []) + [check]];
    }

    /** Verification, SUCCEEDED and the end of the job, in one transaction. */
    method Conclude(id: Id, n: nat, snapshot: Object) returns (raised: bool)
      modifies this
      ensures raised <==> ConcludeTx(old(Rows()), id, n, snapshot) == None
      ensures Rows() == if raised then old(Rows()) else ConcludeTx(old(Rows()), id, n, snapshot).value
    {
      raised := id !in actions || !Allowed(actions[id].status, Succeeded);
      if raised {
        return;
      }
      RecordCheck(id, Check(snapshot, true));
      actions := actions[id := actions[id].(status := Succeeded)];
      Close(id, n, Succeeded);
    }
  }

  /** What one pass of the worker loop meets. */
  datatype Fate = Fate(
    blocked: bool, registered: bool, prepared: bool, answered: bool, detailed: bool,
    created: Option<ObjectId>, reply: PostReply, answeredAgain: bool, detailedAgain: bool, readBack: bool,
    hit: nat, fatal: bool)

  /** How run_finance_action leaves its job: what _finish has to write, and whether a handler stands around it. */
  datatype Ending = Ending(status: Status, guarded: bool)

  /** No exception and no end of the process. */
  predicate Smooth(fate: Fate) {
    fate.hit == 0
  }

  /** Claimed, with the payload it was approved for. */
  predicate Startable(a: Row) {
    a.status == FinanceActions.Claimed && a.payloadHash == Digest(a.payload)
  }

  /** Where an undisturbed pass ends: FAILED before anything is asked of the provider, SUCCEEDED when the bill is the only
      object under its reference or is created and shown, and otherwise what the POST is answered, or review. */
  ghost function EndOf(objects: map<ObjectId, Object>, bill: Bill, n: nat, checked: bool, fate: Fate): Status {
    if fate.blocked || checked || !fate.registered then Failed
    else if !fate.prepared || !fate.answered then NeedsReview
    else if Absent(objects, bill.reference) then
      match fate.reply
      case Created => if fate.readBack then Succeeded else NeedsReview
      case Lost =>
        if fate.created.Some? && fate.answeredAgain && fate.detailedAgain && fate.readBack then Succeeded else NeedsReview
      case RateLimited => if n >= 5 then DeadLetter else RetryScheduled
      case Unauthorized => AuthExpired
      case MissingId => NeedsReview
      case Refused => NeedsReview
    else if fate.detailed && fate.readBack && exists o :: TheOne(objects, bill, o) then Succeeded else NeedsReview
  }

  /** What is POSTed is the bill, once, and only where nothing stands under its reference. */
  ghost function Posted(objects: map<ObjectId, Object>, bill: Bill, id: Id, checked: bool, fate: Fate): map<ObjectId, Object> {
    if !fate.blocked && !checked && fate.registered && fate.prepared && fate.answered && fate.created.Some?
       && Absent(objects, bill.reference)
    then objects[fate.created.value := Object(bill.reference, bill.body, Some(id))] else objects
  }

  /** What a search tells of the objects. */
  ghost predicate Tells(objects: map<ObjectId, Object>, bill: Bill, answered: bool, detailed: bool, r: Sought) {
    match r
    case Nobody => answered && Absent(objects, bill.reference)
    case Unique(o) => answered && detailed && TheOne(objects, bill, o)
    case Unclear => !answered || (!Absent(objects, bill.reference) && (!detailed || forall o :: !TheOne(objects, bill, o)))
  }

  lemma SeekTells(objects: map<ObjectId, Object>, bill: Bill, answered: bool, detailed: bool)
    ensures Tells(objects, bill, answered, detailed, Seek(objects, bill, answered, detailed))
  {
    SeekMeans(objects, bill, answered, detailed);
  }

  /** Where nothing stood under the reference, a second search finds what the lost POST created, or nothing. */
  lemma RecoversWhatWasCreated(before: map<ObjectId, Object>, bill: Bill, id: Id, created: Option<ObjectId>, after: map<ObjectId, Object>)
    requires Absent(before, bill.reference)
    requires after == if created.Some? then before[created.value := Object(bill.reference, bill.body, Some(id))] else before
    ensures forall o :: TheOne(after, bill, o) <==> created == Some(o)
  {
    if created.Some? {
      CreatedIsTheOne(before, bill, id, created.value);
    }
  }

  /** What execute_write finds or creates, or how it ends. */
  ghost predicate Writes(objects: map<ObjectId, Object>, bill: Bill, id: Id, fate: Fate, objects': map<ObjectId, Object>,
                         found: Option<ObjectId>, ending: Option<Ending>) {
    && objects' == Posted(objects, bill, id, false, fate.(blocked := false))
    && (found.Some? ==> found.value in objects' && Same(bill, objects'[found.value]))
    && (found.Some? <==> EndOf(objects, bill, 0, false, fate.(blocked := false, readBack := true)) == Succeeded)
    && (found.None? ==>
          && ending.Some? && Finishable(Executing, ending.value.status)
          && forall n :: Final(ending.value.status, n) == EndOf(objects, bill, n, false, fate.(blocked := false)))
  }

  lemma RejectWrites(objects: map<ObjectId, Object>, bill: Bill, id: Id, fate: Fate, ending: Ending)
    requires !fate.registered || !fate.prepared
    requires ending == if fate.registered then Ending(NeedsReview, true) else Ending(Failed, false)
    ensures Writes(objects, bill, id, fate, objects, None, Some(ending))
  {
  }

  lemma FoundWrites(objects: map<ObjectId, Object>, bill: Bill, id: Id, fate: Fate, o: ObjectId)
    requires fate.registered && fate.prepared && Tells(objects, bill, fate.answered, fate.detailed, Unique(o))
    ensures Writes(objects, bill, id, fate, objects, Some(o), None)
  {
  }

  lemma UnclearWrites(objects: map<ObjectId, Object>, bill: Bill, id: Id, fate: Fate)
    requires fate.registered && fate.prepared && Tells(objects, bill, fate.answered, fate.detailed, Unclear)
    ensures Writes(objects, bill, id, fate, objects, None, Some(Ending(NeedsReview, true)))
  {
  }

  lemma CreateWrites(objects: map<ObjectId, Object>, bill: Bill, id: Id, fate: Fate, objects': map<ObjectId, Object>,
                     found: Option<ObjectId>, ending: Option<Ending>)
    requires fate.registered && fate.prepared && fate.answered && Absent(objects, bill.reference)
    requires fate.reply.Created? ==> fate.created.Some?
    requires objects' == if fate.created.Some? then objects[fate.created.value := Object(bill.reference, bill.body, Some(id))]
                         else objects
    requires found == if fate.reply.Created? || (fate.reply.Lost? && fate.answeredAgain && fate.detailedAgain) then fate.created else None
    requires found.None? ==> ending == Some(Ending(if fate.reply.RateLimited? then RetryScheduled
                                                   else if fate.reply.Unauthorized? then AuthExpired else NeedsReview, true))
    ensures Writes(objects, bill, id, fate, objects', found, ending)
  {
  }

  /** Only the one row has moved, to this status, and its payload has not. */
  ghost predicate Moved(before: Db, mid: Db, id: Id, s: Status) {
    && id in before.table.actions && id in mid.table.actions
    && mid == before.(table := before.table.(actions := before.table.actions[id := mid.table.actions[id]]))
    && mid.table.actions[id].status == s && mid.table.actions[id].payload == before.table.actions[id].payload
    && mid.table.actions[id].payloadHash == before.table.actions[id].payloadHash
  }

  /** Action, job and attempt end with one status, and no other row moves. */
  ghost predicate EndsWith(before: Db, after: Db, id: Id, n: nat, s: Status) {
    && id in before.table.actions && after.table.actions.Keys == before.table.actions.Keys
    && after.table.actions[id].status == s && after.table.actions[id].payload == before.table.actions[id].payload
    && (forall k :: k in before.table.actions && k != id ==> after.table.actions[k] == before.table.actions[k])
    && (id in before.jobs ==> after.jobs == before.jobs[id := before.jobs[id].(status := s, owner := None)])
    && ((id, n) in before.attempts ==> after.attempts == before.attempts[(id, n) := s])
  }

  /** SUCCEEDED comes with a matched check of an object that is the bill; anything else leaves the checks alone. */
  ghost predicate Proven(objects: map<ObjectId, Object>, bill: Bill, before: Db, after: Db, id: Id, s: Status) {
    if s == Succeeded then
      exists o :: o in objects && Same(bill, objects[o]) && after.checks == before.checks[id := Checks(before, id) + [Check(objects[o], true)]]
    else after.checks == before.checks
  }

  lemma ClosedEnds(before: Db, after: Db, id: Id, n: nat, to: Status)
    requires ClosedWith(before, after, id, n, to)
    ensures EndsWith(before, after, id, n, to)
  {
  }

  lemma ConcludeEnds(before: Db, id: Id, n: nat, snapshot: Object)
    requires id in before.table.actions && before.table.actions[id].status == Verifying
    ensures ConcludeTx(before, id, n, snapshot).Some?
    ensures var after := ConcludeTx(before, id, n, snapshot).value;
      EndsWith(before, after, id, n, Succeeded) && after.checks == before.checks[id := Checks(before, id) + [Check(snapshot, true)]]
  {
    ConcludeCloses(before, id, n, snapshot);
    ClosedEnds(before, ConcludeTx(before, id, n, snapshot).value, id, n, Succeeded);
  }

  lemma FinishEnds(before: Db, id: Id, n: nat, outcome: Status)
    requires id in before.table.actions && Finishable(before.table.actions[id].status, outcome)
    ensures FinishTx(before, id, n, outcome).Some?
    ensures EndsWith(before, FinishTx(before, id, n, outcome).value, id, n, Final(outcome, n))
  {
    FinishCloses(before, id, n, outcome);
    ClosedEnds(before, FinishTx(before, id, n, outcome).value, id, n, Final(outcome, n));
  }

  lemma MovedThenEnds(before: Db, mid: Db, after: Db, id: Id, n: nat, s: Status, to: Status)
    requires Moved(before, mid, id, s) && EndsWith(mid, after, id, n, to)
    ensures EndsWith(before, after, id, n, to)
  {
  }

  lemma ProvenSinceMoved(objects: map<ObjectId, Object>, before: Db, mid: Db, after: Db, id: Id, s: Status, to: Status)
    requires Moved(before, mid, id, s) && Proven(objects, before.table.actions[id].payload, mid, after, id, to)
    ensures Proven(objects, before.table.actions[id].payload, before, after, id, to)
  {
  }

  lemma WritesEnds(objects: map<ObjectId, Object>, bill: Bill, id: Id, n: nat, fate: Fate, objects': map<ObjectId, Object>,
                   found: Option<ObjectId>, ending: Option<Ending>)
    requires Writes(objects, bill, id, fate, objects', found, ending)
    ensures var f := fate.(blocked := false);
      && objects' == Posted(objects, bill, id, false, f)
      && (found.Some? ==>
            && found.value in objects' && Same(bill, objects'[found.value])
            && EndOf(objects, bill, n, false, f) == if fate.readBack then Succeeded else NeedsReview)
      && (found.None? ==>
            && ending.Some? && Finishable(Executing, ending.value.status)
            && Final(ending.value.status, n) == EndOf(objects, bill, n, false, f) != Succeeded)
  {
  }

  /** The row as the pass found it and what it made of it. */
  ghost predicate PassEnds(objects: map<ObjectId, Object>, before: Db, id: Id, n: nat, fate: Fate,
                           objects': map<ObjectId, Object>, after: Db) {
    && id in before.table.actions
    && var bill := before.table.actions[id].payload;
    && var checked := Checks(before, id) != [];
    && var s := EndOf(objects, bill, n, checked, fate);
    && objects' == Posted(objects, bill, id, checked, fate)
    && EndsWith(before, after, id, n, s)
    && Proven(objects', bill, before, after, id, s)
  }

  lemma StopsAtBegin(objects: map<ObjectId, Object>, before: Db, id: Id, n: nat, fate: Fate, after: Db)
    requires fate.blocked || Checks(before, id) != []
    requires EndsWith(before, after, id, n, Failed) && after.checks == before.checks
    ensures PassEnds(objects, before, id, n, fate, objects, after)
  {
  }

  lemma GoesOn(objects: map<ObjectId, Object>, before: Db, mid: Db, id: Id, n: nat, fate: Fate, objects': map<ObjectId, Object>, after: Db)
    requires !fate.blocked && Checks(before, id) == [] && Moved(before, mid, id, Executing)
    requires var bill := before.table.actions[id].payload;
      var s := EndOf(objects, bill, n, false, fate.(blocked := false));
      && objects' == Posted(objects, bill, id, false, fate.(blocked := false))
      && EndsWith(mid, after, id, n, s) && Proven(objects', bill, mid, after, id, s)
    ensures PassEnds(objects, before, id, n, fate, objects', after)
  {
    assert fate.(blocked := false) == fate;
    var s := EndOf(objects, before.table.actions[id].payload, n, false, fate);
    MovedThenEnds(before, mid, after, id, n, Executing, s);
    ProvenSinceMoved(objects', before, mid, after, id, Executing, s);
  }

  class Worker {
    const db: Database
    const name: WorkerId
    var objects: map<ObjectId, Object>
    ghost var cancelling: set<Id>
    ghost var workers: map<WorkerId, Pc>

    constructor (db: Database, name: WorkerId)
      ensures this.db == db && this.name == name && objects == map[] && cancelling == {} && workers == map[]
    {
      this.db, this.name, objects, cancelling, workers := db, name, map[], {}, map[];
    }

    ghost function Here(): System
      reads this, db
    {
      System(db.Rows(), cancelling, objects, workers)
    }

    ghost function Point(): Pc
      reads this
    {
      if name in workers then workers[name] else Asleep
    }

    /** `h` is what has happened since `start`. */
    ghost predicate On(start: System, h: History)
      reads this, db
    {
      Lawful(start, h) && Last(h) == Here()
    }

    // -- one method for each step of a pass -------------------------------------------------------------

    method Claim(ghost start: System, ghost past: History) returns (job: Option<(Id, nat)>, ghost h: History)
      requires On(start, past) && Point() == Asleep
      modifies this`workers, db`actions, db`jobs, db`attempts
      ensures On(start, h)
      ensures job.None? ==> Here() == old(Here())
      ensures job.None? && AttemptsInv(db.Rows()) ==> forall id :: ClaimTx(db.Rows(), name, id) == None
      ensures job.Some? ==> ClaimTx(old(db.Rows()), name, job.value.0) == Some(db.Rows()) && Point() == Took(job.value.0, job.value.1)
      ensures job.Some? ==> job.value.0 in db.actions && job.value.0 in db.jobs && job.value.1 == db.jobs[job.value.0].attempts
    {
      h := past;
      ghost var before := Here();
      job := db.Claim(name);
      if job.Some? {
        workers := workers[name := Took(job.value.0, job.value.1)];
        Extended(start, past, Event.Claim(name, job.value.0));
        assert Here() == ClaimStep(before, name, job.value.0);
        h := Extend(past, Event.Claim(name, job.value.0), Here());
      }
    }

    /** An action with a verification on record never runs again. */
    method Begin(id: Id, n: nat, blocked: bool, ghost start: System, ghost past: History)
      returns (ending: Option<Ending>, raised: bool, ghost h: History)
      requires On(start, past) && Point() == Took(id, n) && id in db.actions
      modifies this`workers, db`actions
      ensures On(start, h) && db.actions.Keys == old(db.actions).Keys
      ensures Point() == if raised then Dead else if ending.Some? then Finishing(id, n, ending.value.status, ending.value.guarded) else Searching(id, n)
      ensures if blocked || Checks(db.Rows(), id) != [] then ending == Some(Ending(Failed, false)) && !raised && db.actions == old(db.actions)
              else ending == None
      ensures ending.None? && old(db.actions)[id].status == FinanceActions.Claimed ==>
        !raised && Moved(old(db.Rows()), db.Rows(), id, Executing)
    {
      raised, ending := false, None;
      ghost var before := Here();
      TookBegin(start, past, name, blocked);
      if blocked || (id in db.checks && db.checks[id] != []) {
        ending := Some(Ending(Failed, false));
        workers := workers[name := Finishing(id, n, Failed, false)];
      } else {
        raised := db.SetExecuting(id);
        workers := workers[name := if raised then Dead else Searching(id, n)];
      }
      assert Here() == BeginStep(before, name, blocked);
      h := Extend(past, Event.Begin(name, blocked), Here());
    }

    method Reject(id: Id, n: nat, registered: bool, ghost start: System, ghost past: History)
      returns (ending: Ending, ghost h: History)
      requires On(start, past) && Point() == Searching(id, n)
      modifies this`workers
      ensures On(start, h) && Point() == Finishing(id, n, ending.status, ending.guarded)
      ensures ending == if registered then Ending(NeedsReview, true) else Ending(Failed, false)
    {
      ending := if registered then Ending(NeedsReview, true) else Ending(Failed, false);
      Extended(start, past, Event.Reject(name, registered));
      workers := workers[name := Finishing(id, n, ending.status, ending.guarded)];
      h := Extend(past, Event.Reject(name, registered), Here());
    }

    /** One search by reference and, of a single candidate, its details. */
    method Look(bill: Bill, answered: bool, detailed: bool) returns (r: Sought)
      ensures r == Seek(objects, bill, answered, detailed)
    {
      if !answered {
        return Unclear;
      }
      var candidates := set o | o in objects && objects[o].reference == bill.reference;
      if candidates == {} {
        return Nobody;
      }
      var o :| o in candidates;
      r := if candidates == {o} && detailed && Same(bill, objects[o]) then Unique(o) else Unclear;
      assert candidates == {o} || forall p :: candidates != {p};
    }

    method Search(id: Id, n: nat, answered: bool, detailed: bool, ghost start: System, ghost past: History)
      returns (r: Sought, ghost h: History)
      requires On(start, past) && Point() == Searching(id, n) && id in db.actions
      modifies this`workers
      ensures On(start, h)
      ensures Point() == match r
        case Nobody => Posting(id, n)
        case Unique(o) => Found(id, n, o)
        case Unclear => Finishing(id, n, NeedsReview, true)
      ensures db.actions[id].payloadHash == Digest(db.actions[id].payload) ==>
        Tells(objects, db.actions[id].payload, answered, detailed, r)
    {
      Extended(start, past, Event.Search(name, answered, detailed));
      ghost var before := Here();
      if db.actions[id].payloadHash != Digest(db.actions[id].payload) {
        r := Unclear;
      } else {
        r := Look(db.actions[id].payload, answered, detailed);
        SeekTells(objects, db.actions[id].payload, answered, detailed);
      }
      workers := workers[name := match r
        case Nobody => Posting(id, n)
        case Unique(o) => Found(id, n, o)
        case Unclear => Finishing(id, n, NeedsReview, true)];
      assert Here() == SearchStep(before, name, answered, detailed);
      h := Extend(past, Event.Search(name, answered, detailed), Here());
    }

    method Post(id: Id, n: nat, created: Option<ObjectId>, reply: PostReply, ghost start: System, ghost past: History)
      returns (ghost h: History)
      requires On(start, past) && Point() == Posting(id, n) && id in db.actions
      requires (reply.Created? ==> created.Some?) && (created.Some? ==> created.value !in objects)
      modifies this`workers, this`objects
      ensures On(start, h) && Point() == AfterPost(id, n, created, reply)
      ensures var bill := db.actions[id].payload;
        objects == if created.Some? then old(objects)[created.value := Object(bill.reference, bill.body, Some(id))] else old(objects)
    {
      Extended(start, past, Event.Post(name, created, reply));
      ghost var before := Here();
      if created.Some? {
        var bill := db.actions[id].payload;
        objects := objects[created.value := Object(bill.reference, bill.body, Some(id))];
      }
      workers := workers[name := AfterPost(id, n, created, reply)];
      assert Here() == PostStep(before, name, created, reply);
      h := Extend(past, Event.Post(name, created, reply), Here());
    }

    method Recover(id: Id, n: nat, answered: bool, detailed: bool, ghost start: System, ghost past: History)
      returns (found: Option<ObjectId>, ghost h: History)
      requires On(start, past) && Point() == Recovering(id, n) && id in db.actions
      modifies this`workers
      ensures On(start, h)
      ensures Point() == if found.Some? then Found(id, n, found.value) else Finishing(id, n, NeedsReview, true)
      ensures found.Some? ==> answered && detailed && TheOne(objects, db.actions[id].payload, found.value)
      ensures answered && detailed && found.None? ==> forall o :: !TheOne(objects, db.actions[id].payload, o)
    {
      Extended(start, past, Event.Recover(name, answered, detailed));
      ghost var before := Here();
      var r := Look(db.actions[id].payload, answered, detailed);
      SeekTells(objects, db.actions[id].payload, answered, detailed);
      found := if r.Unique? then Some(r.oid) else None;
      workers := workers[name := if found.Some? then Found(id, n, found.value) else Finishing(id, n, NeedsReview, true)];
      assert Here() == RecoverStep(before, name, answered, detailed);
      h := Extend(past, Event.Recover(name, answered, detailed), Here());
    }

    /** PROVIDER_ACCEPTED. */
    method NoteAccepted(id: Id, n: nat, oid: ObjectId, ghost start: System, ghost past: History) returns (raised: bool, ghost h: History)
      requires On(start, past) && Point() == Found(id, n, oid) && id in db.actions
      modifies this`workers, db`actions
      ensures On(start, h) && db.actions.Keys == old(db.actions).Keys
      ensures Point() == if raised then Finishing(id, n, RetryScheduled, false) else Accepted(id, n, oid)
      ensures old(db.actions)[id].status == Executing ==> !raised
      ensures !raised ==> db.actions == old(db.actions)[id := old(db.actions)[id].(status := ProviderAccepted)]
    {
      TookNoteAccepted(start, past, name, id, n, oid);
      ghost var before := Here();
      raised := db.SetStatus(id, ProviderAccepted);
      workers := workers[name := if raised then Finishing(id, n, RetryScheduled, false) else Accepted(id, n, oid)];
      assert Here() == NoteStep(before, name, ProviderAccepted, Accepted(id, n, oid));
      h := Extend(past, Event.NoteAccepted(name), Here());
    }

    /** VERIFYING. */
    method NoteVerifying(id: Id, n: nat, oid: ObjectId, ghost start: System, ghost past: History) returns (raised: bool, ghost h: History)
      requires On(start, past) && Point() == Accepted(id, n, oid) && id in db.actions
      modifies this`workers, db`actions
      ensures On(start, h) && db.actions.Keys == old(db.actions).Keys
      ensures Point() == if raised then Finishing(id, n, RetryScheduled, false) else ReadingBack(id, n, oid)
      ensures old(db.actions)[id].status == ProviderAccepted ==> !raised
      ensures !raised ==> db.actions == old(db.actions)[id := old(db.actions)[id].(status := Verifying)]
    {
      TookNoteVerifying(start, past, name, id, n, oid);
      ghost var before := Here();
      raised := db.SetStatus(id, Verifying);
      workers := workers[name := if raised then Finishing(id, n, RetryScheduled, false) else ReadingBack(id, n, oid)];
      assert Here() == NoteStep(before, name, Verifying, ReadingBack(id, n, oid));
      h := Extend(past, Event.NoteVerifying(name), Here());
    }

    method ReadBack(id: Id, n: nat, oid: ObjectId, answered: bool, ghost start: System, ghost past: History)
      returns (snapshot: Option<Object>, matched: bool, ghost h: History)
      requires On(start, past) && Point() == ReadingBack(id, n, oid) && id in db.actions
      modifies this`workers
      ensures On(start, h)
      ensures Point() == if snapshot.None? then Finishing(id, n, NeedsReview, true)
                         else if matched then Matching(id, n, snapshot.value) else Differing(id, n, snapshot.value)
      ensures snapshot == if answered && oid in objects then Some(objects[oid]) else None
      ensures snapshot.Some? ==>
        (matched <==> snapshot.value.reference == db.actions[id].payload.reference && snapshot.value.body == db.actions[id].payload.body)
    {
      Extended(start, past, Event.ReadBack(name, answered));
      snapshot, matched := None, false;
      if answered && oid in objects {
        snapshot, matched := Some(objects[oid]), Same(db.actions[id].payload, objects[oid]);
      }
      workers := workers[name := if snapshot.None? then Finishing(id, n, NeedsReview, true)
                                 else if matched then Matching(id, n, snapshot.value) else Differing(id, n, snapshot.value)];
      h := Extend(past, Event.ReadBack(name, answered), Here());
    }

    method Conclude(id: Id, n: nat, snapshot: Object, ghost start: System, ghost past: History) returns (raised: bool, ghost h: History)
      requires On(start, past) && Point() == Matching(id, n, snapshot)
      modifies this`workers, db
      ensures On(start, h) && Point() == if raised then Finishing(id, n, RetryScheduled, false) else Asleep
      ensures id in old(db.actions) && old(db.actions)[id].status == Verifying ==>
        && !raised && EndsWith(old(db.Rows()), db.Rows(), id, n, Succeeded)
        && db.checks == old(db.checks)[id := Checks(old(db.Rows()), id) + [Check(snapshot, true)]]
    {
      TookConclude(start, past, name);
      ghost var before := Here();
      if id in db.actions && db.actions[id].status == Verifying {
        ConcludeEnds(db.Rows(), id, n, snapshot);
      }
      raised := db.Conclude(id, n, snapshot);
      workers := workers[name := if raised then Finishing(id, n, RetryScheduled, false) else Asleep];
      assert Here() == ConcludeStep(before, name);
      h := Extend(past, Event.Conclude(name), Here());
    }

    method RecordMismatch(id: Id, n: nat, snapshot: Object, ghost start: System, ghost past: History) returns (ghost h: History)
      requires On(start, past) && Point() == Differing(id, n, snapshot)
      modifies this`workers, db`checks
      ensures On(start, h) && Point() == Finishing(id, n, NeedsReview, true)
      ensures db.checks == old(db.checks)[id := Checks(old(db.Rows()), id) + [Check(snapshot, false)]]
    {
      Extended(start, past, Event.RecordMismatch(name));
      ghost var before := Here();
      db.RecordCheck(id, Check(snapshot, false));
      workers := workers[name := Finishing(id, n, NeedsReview, true)];
      assert Here() == RecordMismatchStep(before, name);
      h := Extend(past, Event.RecordMismatch(name), Here());
    }

    method Finish(id: Id, n: nat, ending: Ending, ghost start: System, ghost past: History) returns (raised: bool, ghost h: History)
      requires On(start, past) && Point() == Finishing(id, n, ending.status, ending.guarded)
      modifies this`workers, db`actions, db`jobs, db`attempts, db`deadLetters
      ensures On(start, h)
      ensures Point() == if !raised then Asleep else if ending.guarded then Finishing(id, n, RetryScheduled, false) else Dead
      ensures id in old(db.actions) && Finishable(old(db.actions)[id].status, ending.status) ==>
        !raised && EndsWith(old(db.Rows()), db.Rows(), id, n, Final(ending.status, n))
    {
      Extended(start, past, Event.Finish(name));
      ghost var before := Here();
      if id in db.actions && Finishable(db.actions[id].status, ending.status) {
        FinishEnds(db.Rows(), id, n, ending.status);
      }
      raised := db.Finish(id, n, ending.status);
      workers := workers[name := if !raised then Asleep else if ending.guarded then Finishing(id, n, RetryScheduled, false) else Dead];
      assert Here() == FinishStep(before, name);
      h := Extend(past, Event.Finish(name), Here());
    }

    // -- run_once and what it calls -------------------------------------------------------------------------

    ghost predicate Able(fate: Fate)
      reads this
    {
      (fate.reply.Created? ==> fate.created.Some?) && (fate.created.Some? ==> fate.created.value !in objects)
    }

    /** What is left to do is the _finish in `ending`, or the process is gone. */
    ghost predicate Stopped(id: Id, n: nat, ending: Option<Ending>)
      reads this
    {
      Point() == if ending.Some? then Finishing(id, n, ending.value.status, ending.value.guarded) else Dead
    }

    /** Here the exception or the end of the process comes, if `fate` says so. */
    method MayFail(step: nat, fate: Fate, id: Id, n: nat, ghost start: System, ghost past: History)
      returns (stopped: bool, ending: Option<Ending>, ghost h: History)
      requires On(start, past) && Trying(Point()) && Point().id == id && Point().n == n
      modifies this`workers
      ensures On(start, h) && (stopped <==> fate.hit == step)
      ensures if stopped then Stopped(id, n, ending) else Here() == old(Here()) && h == past && ending == None
    {
      stopped, ending, h := fate.hit == step, None, past;
      if stopped && fate.fatal {
        TookStop(start, past, name, true);
        workers := workers[name := Dead];
        h := Extend(past, Event.Kill(name), Here());
      } else if stopped {
        ending := Some(Ending(RetryScheduled, false));
        TookStop(start, past, name, false);
        workers := workers[name := Finishing(id, n, RetryScheduled, false)];
        h := Extend(past, Event.Explode(name), Here());
      }
    }

    /** POST, and search again if the reply got lost. */
    method Create(id: Id, n: nat, fate: Fate, ghost start: System, ghost past: History)
      returns (found: Option<ObjectId>, ending: Option<Ending>, ghost h: History)
      requires On(start, past) && id in db.actions && Point() == Posting(id, n) && Able(fate)
      modifies this`workers, this`objects
      ensures On(start, h) && if found.Some? then Point() == Found(id, n, found.value) else Stopped(id, n, ending)
      ensures var bill := db.actions[id].payload;
        objects == if fate.created.Some? then old(objects)[fate.created.value := Object(bill.reference, bill.body, Some(id))]
                   else old(objects)
      ensures Smooth(fate) && Absent(old(objects), db.actions[id].payload.reference) ==>
        && found == (if fate.reply.Created? || (fate.reply.Lost? && fate.answeredAgain && fate.detailedAgain) then fate.created else None)
        && (found.None? ==> ending == Some(Ending(if fate.reply.RateLimited? then RetryScheduled
                                                  else if fate.reply.Unauthorized? then AuthExpired else NeedsReview, true)))
    {
      ghost var before, bill := objects, db.actions[id].payload;
      h := Post(id, n, fate.created, fate.reply, start, past);
      found := None;
      match fate.reply {
        case Created => found, ending := fate.created, None;
        case RateLimited => ending := Some(Ending(RetryScheduled, true));
        case Unauthorized => ending := Some(Ending(AuthExpired, true));
        case MissingId => ending := Some(Ending(NeedsReview, true));
        case Refused => ending := Some(Ending(NeedsReview, true));
        case Lost =>
          var stopped;
          stopped, ending, h := MayFail(3, fate, id, n, start, h);
          if stopped {
            return;
          }
          found, h := Recover(id, n, fate.answeredAgain, fate.detailedAgain, start, h);
          ending := if found.None? then Some(Ending(NeedsReview, true)) else None;
          if Absent(before, bill.reference) {
            RecoversWhatWasCreated(before, bill, id, fate.created, objects);
          }
      }
    }

    /** execute_write: search, and POST only if there was nothing. */
    method ExecuteWrite(id: Id, n: nat, fate: Fate, ghost start: System, ghost past: History)
      returns (found: Option<ObjectId>, ending: Option<Ending>, ghost h: History)
      requires On(start, past) && id in db.actions && Point() == Searching(id, n) && Able(fate)
      modifies this`workers, this`objects
      ensures On(start, h) && if found.Some? then Point() == Found(id, n, found.value) else Stopped(id, n, ending)
      ensures Smooth(fate) && db.actions[id].payloadHash == Digest(db.actions[id].payload) ==>
        Writes(old(objects), db.actions[id].payload, id, fate, objects, found, ending)
    {
      found := None;
      ghost var before, bill := objects, db.actions[id].payload;
      var stopped, rejected;
      stopped, ending, h := MayFail(1, fate, id, n, start, past);
      if stopped {
        return;
      }
      if !fate.registered || !fate.prepared {
        rejected, h := Reject(id, n, fate.registered, start, h);
        ending := Some(rejected);
        RejectWrites(before, bill, id, fate, rejected);
        return;
      }
      found, ending, h := FindOrCreate(id, n, fate, start, h);
    }

    method FindOrCreate(id: Id, n: nat, fate: Fate, ghost start: System, ghost past: History)
      returns (found: Option<ObjectId>, ending: Option<Ending>, ghost h: History)
      requires On(start, past) && id in db.actions && Point() == Searching(id, n) && Able(fate) && fate.registered && fate.prepared
      modifies this`workers, this`objects
      ensures On(start, h) && if found.Some? then Point() == Found(id, n, found.value) else Stopped(id, n, ending)
      ensures Smooth(fate) && db.actions[id].payloadHash == Digest(db.actions[id].payload) ==>
        Writes(old(objects), db.actions[id].payload, id, fate, objects, found, ending)
    {
      found, ending := None, None;
      ghost var before, bill := objects, db.actions[id].payload;
      ghost var approved := db.actions[id].payloadHash == Digest(bill);
      var stopped, sought;
      sought, h := Search(id, n, fate.answered, fate.detailed, start, past);
      match sought {
        case Unique(o) =>
          found := Some(o);
          if approved { FoundWrites(before, bill, id, fate, o); }
        case Unclear =>
          ending := Some(Ending(NeedsReview, true));
          if approved { UnclearWrites(before, bill, id, fate); }
        case Nobody =>
          stopped, ending, h := MayFail(2, fate, id, n, start, h);
          if !stopped {
            found, ending, h := Create(id, n, fate, start, h);
            if approved && Smooth(fate) { CreateWrites(before, bill, id, fate, objects, found, ending); }
          }
      }
    }

    /** The provider has accepted. */
    method Accept(id: Id, n: nat, oid: ObjectId, fate: Fate, ghost start: System, ghost past: History)
      returns (stopped: bool, ending: Option<Ending>, ghost h: History)
      requires On(start, past) && id in db.actions && Point() == Found(id, n, oid)
      modifies this`workers, db`actions
      ensures On(start, h) && id in db.actions && if stopped then Stopped(id, n, ending) else Point() == Accepted(id, n, oid)
      ensures Smooth(fate) && old(db.actions)[id].status == Executing ==>
        !stopped && db.actions == old(db.actions)[id := old(db.actions)[id].(status := ProviderAccepted)]
    {
      stopped, ending, h := MayFail(4, fate, id, n, start, past);
      if !stopped {
        stopped, h := NoteAccepted(id, n, oid, start, h);
        ending := if stopped then Some(Ending(RetryScheduled, false)) else None;
      }
    }

    method ToVerifying(id: Id, n: nat, oid: ObjectId, fate: Fate, ghost start: System, ghost past: History)
      returns (stopped: bool, ending: Option<Ending>, ghost h: History)
      requires On(start, past) && id in db.actions && Point() == Accepted(id, n, oid)
      modifies this`workers, db`actions
      ensures On(start, h) && id in db.actions && if stopped then Stopped(id, n, ending) else Point() == ReadingBack(id, n, oid)
      ensures Smooth(fate) && old(db.actions)[id].status == ProviderAccepted ==>
        !stopped && db.actions == old(db.actions)[id := old(db.actions)[id].(status := Verifying)]
    {
      stopped, ending, h := MayFail(5, fate, id, n, start, past);
      if !stopped {
        stopped, h := NoteVerifying(id, n, oid, start, h);
        ending := if stopped then Some(Ending(RetryScheduled, false)) else None;
      }
    }

    /** From the provider's acceptance to the read-back. */
    method Announce(id: Id, n: nat, oid: ObjectId, fate: Fate, ghost start: System, ghost past: History)
      returns (stopped: bool, ending: Option<Ending>, ghost h: History)
      requires On(start, past) && id in db.actions && Point() == Found(id, n, oid)
      modifies this`workers, db`actions
      ensures On(start, h) && id in db.actions && if stopped then Stopped(id, n, ending) else Point() == ReadingBack(id, n, oid)
      ensures Smooth(fate) && old(db.actions)[id].status == Executing ==>
        !stopped && db.actions == old(db.actions)[id := old(db.actions)[id].(status := Verifying)]
    {
      stopped, ending, h := Accept(id, n, oid, fate, start, past);
      if !stopped {
        stopped, ending, h := ToVerifying(id, n, oid, fate, start, h);
      }
    }

    /** From the read-back to SUCCEEDED, or to the record of what differs. */
    method Verify(id: Id, n: nat, oid: ObjectId, fate: Fate, ghost start: System, ghost past: History)
      returns (done: bool, ending: Option<Ending>, ghost h: History)
      requires On(start, past) && id in db.actions && Point() == ReadingBack(id, n, oid)
      modifies this`workers, db
      ensures On(start, h) && if done then Point() == Asleep else Stopped(id, n, ending)
      ensures Smooth(fate) && old(db.actions)[id].status == Verifying && oid in objects
              && Same(old(db.actions)[id].payload, objects[oid]) ==>
        if fate.readBack then
          && done && EndsWith(old(db.Rows()), db.Rows(), id, n, Succeeded)
          && db.checks == old(db.checks)[id := Checks(old(db.Rows()), id) + [Check(objects[oid], true)]]
        else !done && ending == Some(Ending(NeedsReview, true)) && db.Rows() == old(db.Rows())
    {
      done := false;
      var stopped, snapshot, matched;
      stopped, ending, h := MayFail(6, fate, id, n, start, past);
      if stopped {
        return;
      }
      snapshot, matched, h := ReadBack(id, n, oid, fate.readBack, start, h);
      if snapshot.None? {
        ending := Some(Ending(NeedsReview, true));
        return;
      }
      stopped, ending, h := MayFail(7, fate, id, n, start, h);
      if stopped {
        return;
      }
      if matched {
        var raised;
        raised, h := Conclude(id, n, snapshot.value, start, h);
        done := !raised;
        ending := Some(Ending(RetryScheduled, false));
      } else {
        h := RecordMismatch(id, n, snapshot.value, start, h);
        ending := Some(Ending(NeedsReview, true));
      }
    }

    /** _finish, and the second _finish of the handler around the first one. */
    method FinishUp(id: Id, n: nat, ending: Ending, ghost start: System, ghost past: History)
      returns (ghost h: History)
      requires On(start, past) && Stopped(id, n, Some(ending))
      modifies this`workers, db`actions, db`jobs, db`attempts, db`deadLetters
      ensures On(start, h) && (Point() == Asleep || Point() == Dead)
      ensures id in old(db.actions) && Finishable(old(db.actions)[id].status, ending.status) ==>
        Point() == Asleep && EndsWith(old(db.Rows()), db.Rows(), id, n, Final(ending.status, n))
    {
      var raised;
      raised, h := Finish(id, n, ending, start, past);
      if raised && ending.guarded {
        raised, h := Finish(id, n, Ending(RetryScheduled, false), start, h);
      }
    }

    /** From the read-back to the end of the job. */
    method Prove(id: Id, n: nat, oid: ObjectId, fate: Fate, ghost start: System, ghost past: History) returns (ghost h: History)
      requires On(start, past) && id in db.actions && Point() == ReadingBack(id, n, oid)
      modifies this`workers, db
      ensures On(start, h) && (Point() == Asleep || Point() == Dead)
      ensures Smooth(fate) && old(db.actions)[id].status == Verifying && oid in objects
              && Same(old(db.actions)[id].payload, objects[oid]) ==>
        && Point() == Asleep
        && EndsWith(old(db.Rows()), db.Rows(), id, n, if fate.readBack then Succeeded else NeedsReview)
        && Proven(objects, old(db.actions)[id].payload, old(db.Rows()), db.Rows(), id, if fate.readBack then Succeeded else NeedsReview)
    {
      var done, ending;
      done, ending, h := Verify(id, n, oid, fate, start, past);
      if !done && ending.Some? {
        h := FinishUp(id, n, ending.value, start, h);
      }
    }

    /** From the acceptance to the end of the job. */
    method Settle(id: Id, n: nat, oid: ObjectId, fate: Fate, ghost start: System, ghost past: History) returns (ghost h: History)
      requires On(start, past) && id in db.actions && Point() == Found(id, n, oid)
      modifies this`workers, db
      ensures On(start, h) && (Point() == Asleep || Point() == Dead)
      ensures Smooth(fate) && old(db.actions)[id].status == Executing && oid in objects
              && Same(old(db.actions)[id].payload, objects[oid]) ==>
        && Point() == Asleep
        && EndsWith(old(db.Rows()), db.Rows(), id, n, if fate.readBack then Succeeded else NeedsReview)
        && Proven(objects, old(db.actions)[id].payload, old(db.Rows()), db.Rows(), id, if fate.readBack then Succeeded else NeedsReview)
    {
      ghost var before, to := db.Rows(), if fate.readBack then Succeeded else NeedsReview;
      ghost var sound := Smooth(fate) && db.actions[id].status == Executing && oid in objects && Same(db.actions[id].payload, objects[oid]);
      var stopped, ending;
      stopped, ending, h := Announce(id, n, oid, fate, start, past);
      if !stopped {
        ghost var mid := db.Rows();
        h := Prove(id, n, oid, fate, start, h);
        if sound {
          MovedThenEnds(before, mid, db.Rows(), id, n, Verifying, to);
          ProvenSinceMoved(objects, before, mid, db.Rows(), id, Verifying, to);
        }
      } else if ending.Some? {
        h := FinishUp(id, n, ending.value, start, h);
      }
    }

    /** From the start of the execution to the end of the job. */
    method Execute(id: Id, n: nat, fate: Fate, ghost start: System, ghost past: History) returns (ghost h: History)
      requires On(start, past) && id in db.actions && Point() == Searching(id, n) && Able(fate)
      modifies this`workers, this`objects, db
      ensures On(start, h) && (Point() == Asleep || Point() == Dead)
      ensures Smooth(fate) && old(db.actions)[id].status == Executing
              && old(db.actions)[id].payloadHash == Digest(old(db.actions)[id].payload) ==>
        var bill := old(db.actions)[id].payload;
        var s := EndOf(old(objects), bill, n, false, fate.(blocked := false));
        && Point() == Asleep && objects == Posted(old(objects), bill, id, false, fate.(blocked := false))
        && EndsWith(old(db.Rows()), db.Rows(), id, n, s) && Proven(objects, bill, old(db.Rows()), db.Rows(), id, s)
    {
      ghost var before, things, bill := db.Rows(), objects, db.actions[id].payload;
      ghost var sound := Smooth(fate) && db.actions[id].status == Executing && db.actions[id].payloadHash == Digest(bill);
      var found, ending;
      found, ending, h := ExecuteWrite(id, n, fate, start, past);
      if sound {
        WritesEnds(things, bill, id, n, fate, objects, found, ending);
      }
      if found.Some? {
        h := Settle(id, n, found.value, fate, start, h);
      } else if ending.Some? {
        h := FinishUp(id, n, ending.value, start, h);
      }
    }

    /** A pass that the preconditions stop. */
    method Refuse(id: Id, n: nat, ending: Ending, fate: Fate, ghost start: System, ghost past: History) returns (ghost h: History)
      requires On(start, past) && id in db.actions && Point() == Finishing(id, n, Failed, false)
      requires ending == Ending(Failed, false) && (fate.blocked || Checks(db.Rows(), id) != [])
      modifies this`workers, db`actions, db`jobs, db`attempts, db`deadLetters
      ensures On(start, h) && (Point() == Asleep || Point() == Dead)
      ensures Startable(old(db.actions)[id]) ==>
        Point() == Asleep && PassEnds(objects, old(db.Rows()), id, n, fate, objects, db.Rows())
    {
      ghost var before, sound := db.Rows(), Startable(db.actions[id]);
      h := FinishUp(id, n, ending, start, past);
      if sound {
        StopsAtBegin(objects, before, id, n, fate, db.Rows());
      }
    }

    /** A pass that they let through; `before` is what it found. */
    method Proceed(id: Id, n: nat, fate: Fate, ghost before: Db, ghost start: System, ghost past: History) returns (ghost h: History)
      requires On(start, past) && id in db.actions && Point() == Searching(id, n) && Able(fate)
      requires id in before.table.actions && !fate.blocked && Checks(before, id) == []
      modifies this`workers, this`objects, db
      ensures On(start, h) && (Point() == Asleep || Point() == Dead)
      ensures Smooth(fate) && Startable(before.table.actions[id]) && Moved(before, old(db.Rows()), id, Executing) ==>
        Point() == Asleep && PassEnds(old(objects), before, id, n, fate, objects, db.Rows())
    {
      ghost var things, mid := objects, db.Rows();
      ghost var sound := Smooth(fate) && Startable(before.table.actions[id]) && Moved(before, mid, id, Executing);
      h := Execute(id, n, fate, start, past);
      if sound {
        GoesOn(things, before, mid, id, n, fate, objects, db.Rows());
      }
    }

    /** What follows the preconditions; `before` is what they found. */
    method Continue(id: Id, n: nat, ending: Option<Ending>, fate: Fate, ghost before: Db, ghost start: System, ghost past: History)
      returns (ghost h: History)
      requires On(start, past) && id in db.actions && id in before.table.actions && Able(fate)
      requires if ending.Some? then Point() == Finishing(id, n, Failed, false) else Point() == Searching(id, n)
      requires if fate.blocked || Checks(before, id) != [] then ending == Some(Ending(Failed, false)) && db.Rows() == before
               else ending == None
      modifies this`workers, this`objects, db
      ensures On(start, h) && (Point() == Asleep || Point() == Dead)
      ensures Smooth(fate) && Startable(before.table.actions[id]) && (ending.None? ==> Moved(before, old(db.Rows()), id, Executing)) ==>
        Point() == Asleep && PassEnds(old(objects), before, id, n, fate, objects, db.Rows())
    {
      if ending.Some? {
        h := Refuse(id, n, ending.value, fate, start, past);
      } else {
        h := Proceed(id, n, fate, before, start, past);
      }
    }

    /** run_finance_action: a pass with nothing in its way ends where the provider's objects and answers put it, has
        POSTed at most the approved bill, and proves a success. */
    method RunFinanceAction(id: Id, n: nat, fate: Fate, ghost start: System, ghost past: History)
      returns (ghost h: History)
      requires On(start, past) && id in db.actions && Point() == Took(id, n) && Able(fate)
      modifies this`workers, this`objects, db
      ensures On(start, h) && (Point() == Asleep || Point() == Dead)
      ensures Smooth(fate) && Startable(old(db.actions)[id]) ==>
        Point() == Asleep && PassEnds(old(objects), old(db.Rows()), id, n, fate, objects, db.Rows())
    {
      ghost var before := db.Rows();
      var ending, raised;
      ending, raised, h := Begin(id, n, fate.blocked, start, past);
      if !raised {
        h := Continue(id, n, ending, fate, before, start, h);
      }
    }

    /** One pass of the worker, whatever it meets and wherever it fails, is a run of the write path and keeps its
        invariant.  It takes a queued job if there is one; and with nothing in its way that job's action, unless it was
        cancelled, ends as RunFinanceAction says. */
    method RunOnce(fate: Fate) returns (job: Option<(Id, nat)>, ghost taken: Db, ghost events: seq<Event>)
      requires Inv(Here()) && Point() == Asleep && Able(fate)
      modifies this`workers, this`objects, db
      ensures Here() == Run(old(Here()), events) && Inv(Here()) && (Point() == Asleep || Point() == Dead)
      ensures job.None? ==> Here() == old(Here()) && forall id :: id in db.jobs ==> db.jobs[id].status != Queued
      ensures job.Some? ==> ClaimTx(old(db.Rows()), name, job.value.0) == Some(taken)
      ensures job.Some? && Smooth(fate) && job.value.0 in taken.table.actions && Startable(taken.table.actions[job.value.0]) ==>
        Point() == Asleep && PassEnds(old(objects), taken, job.value.0, job.value.1, fate, objects, db.Rows())
    {
      ghost var start := Here();
      ghost var h;
      job, taken, h := Pass(fate);
      if job.None? {
        forall id | id in db.jobs ensures db.jobs[id].status != Queued {
          ClaimTakesQueued(db.Rows(), name, id);
        }
      }
      LawfulIsRun(start, h);
      RunKeeps(start, h.events);
      events := h.events;
    }

    method Pass(fate: Fate) returns (job: Option<(Id, nat)>, ghost taken: Db, ghost h: History)
      requires Point() == Asleep && Able(fate)
      modifies this`workers, this`objects, db
      ensures On(old(Here()), h) && (Point() == Asleep || Point() == Dead)
      ensures job.None? ==> Here() == old(Here())
      ensures job.None? && AttemptsInv(db.Rows()) ==> forall id :: ClaimTx(db.Rows(), name, id) == None
      ensures job.Some? ==> ClaimTx(old(db.Rows()), name, job.value.0) == Some(taken)
      ensures job.Some? && Smooth(fate) && job.value.0 in taken.table.actions && Startable(taken.table.actions[job.value.0]) ==>
        Point() == Asleep && PassEnds(old(objects), taken, job.value.0, job.value.1, fate, objects, db.Rows())
    {
      ghost var start := Here();
      h := History([start], []);
      job, h := Claim(start, h);
      taken := db.Rows();
      if job.Some? {
        h := RunFinanceAction(job.value.0, job.value.1, fate, start, h);
      }
    }
  }
}
