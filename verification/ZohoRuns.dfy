/** Runs of the Zoho write path: what stays for ever, who stays behind, and one run in full. */
module ZohoRuns {
  import opened Options
  import opened FinanceActions
  import opened ZohoWorker
  import opened ZohoSafety

  /** A job no worker and no scheduler takes up again. */
  predicate Settled(s: Status) {
    s.DeadLetter? || s.Succeeded? || s.Failed? || s.NeedsReview? || s.AuthExpired? || s.Cancelled?
  }

  /** What time does not undo: rows and payloads stay, cancelled actions and settled jobs are left alone. */
  ghost predicate Later(db: Db, db': Db) {
    && PayloadsKept(db.table, db'.table)
    && (forall id :: id in db.table.actions && db.table.actions[id].status == Cancelled ==> db'.table.actions[id].status == Cancelled)
    && (forall id :: id in db.jobs && Settled(db.jobs[id].status) ==> id in db'.jobs && db'.jobs[id] == db.jobs[id])
  }

  lemma LaterTransitive(a: Db, b: Db, c: Db)
    requires Later(a, b) && Later(b, c)
    ensures Later(a, c)
  {
  }

  lemma EngineIsLater(s: System, e: Event)
    requires Inv(s) && EngineEvent(e)
    ensures Later(s.db, Next(s, e).db)
  {
    EngineEvents(s, e);
    forall id | id in s.db.table.actions && s.db.table.actions[id].status == Cancelled
      ensures Next(s, e).db.table.actions[id].status == Cancelled
    {
      EngineMoveKeepsDesk(s.db.table.actions[id].status, Next(s, e).db.table.actions[id].status);
    }
  }

  lemma OnlyAtIsLater(db: Db, db': Db, id: Id)
    requires OnlyAt(db, db', id) && !Settled(db.jobs[id].status)
    requires db'.table.actions[id].payload == db.table.actions[id].payload
    requires db'.table.actions[id].payloadHash == db.table.actions[id].payloadHash
    requires db.table.actions[id].status == Cancelled ==> db'.table.actions[id].status == Cancelled
    ensures Later(db, db')
  {
  }

  lemma ClaimIsLater(s: System, w: WorkerId, id: Id)
    requires Inv(s)
    ensures Later(s.db, ClaimStep(s, w, id).db)
  {
    if At(s, w) == Asleep && ClaimTx(s.db, w, id).Some? {
      ClaimTxForm(s.db, w, id);
      OnlyAtIsLater(s.db, ClaimTx(s.db, w, id).value, id);
    }
  }

  lemma UpdatedIsLater(db: Db, id: Id, to: Status, count: nat)
    requires id in db.jobs && id in db.table.actions && !Settled(db.jobs[id].status) && db.table.actions[id].status != Cancelled
    ensures Later(db, Updated(db, id, to, count))
  {
  }

  lemma BeginIsLater(s: System, w: WorkerId, blocked: bool)
    requires Inv(s)
    ensures Later(s.db, BeginStep(s, w, blocked).db)
  {
    var pc := At(s, w);
    if pc.Took? && !blocked && Checks(s.db, pc.id) == [] {
      assert PcOk(pc, w, s.db);
      if StatusTx(s.db, pc.id, Executing).Some? {
        BeginForm(s, w, pc.id);
        StatusKeepsDb(s.db, pc.id, Executing, 1);
        UpdatedIsLater(s.db, pc.id, Executing, 1);
      }
    }
  }

  lemma NoteIsLater(s: System, w: WorkerId, to: Status, next: Pc)
    requires Inv(s) && (At(s, w).Found? || At(s, w).Accepted?)
    requires (to.ProviderAccepted? && next.Accepted?) || (to.Verifying? && next.ReadingBack?)
    ensures Later(s.db, NoteStep(s, w, to, next).db)
  {
    var pc := At(s, w);
    assert PcOk(pc, w, s.db);
    if StatusTx(s.db, pc.id, to).Some? {
      NoteForm(s, w, to, next);
      StatusKeepsDb(s.db, pc.id, to, 0);
      UpdatedIsLater(s.db, pc.id, to, 0);
    }
  }

  lemma ClosedIsLater(db: Db, id: Id, n: nat, to: Status)
    requires DbInv(db) && id in db.jobs && id in db.table.actions && db.jobs[id].status == Claimed && db.jobs[id].attempts == n
    requires db.table.actions[id].status != Cancelled && Ends(db, id, n, to)
    ensures Later(db, Closed(db, id, n, to))
  {
    ClosedKeepsDb(db, id, n, to);
    OnlyAtIsLater(db, Closed(db, id, n, to), id);
  }

  lemma ConcludeIsLater(s: System, w: WorkerId)
    requires Inv(s)
    ensures Later(s.db, ConcludeStep(s, w).db)
  {
    var pc := At(s, w);
    if pc.Matching? && ConcludeTx(s.db, pc.id, pc.n, pc.snapshot).Some? {
      assert PcOk(pc, w, s.db);
      var db := Record(s.db, pc.id, Check(pc.snapshot, true));
      ConcludeForm(s.db, pc.id, pc.n, pc.snapshot);
      RecordVerifies(s.db, pc.id, pc.snapshot);
      RecordKeeps(s, pc.id, Check(pc.snapshot, true));
      ClosedIsLater(db, pc.id, pc.n, Succeeded);
    }
  }

  lemma FinishIsLater(s: System, w: WorkerId)
    requires Inv(s)
    ensures Later(s.db, FinishStep(s, w).db)
  {
    var pc := At(s, w);
    if pc.Finishing? {
      assert PcOk(pc, w, s.db);
      if FinishTx(s.db, pc.id, pc.n, pc.outcome).Some? {
        FinishForm(s.db, pc.id, pc.n, pc.outcome);
        ClosedIsLater(s.db, pc.id, pc.n, if Exhausted(pc.n, pc.outcome) then DeadLetter else pc.outcome);
      }
    }
  }

  lemma InsertJobIsLater(db: Db, id: Id)
    ensures Later(db, InsertJobTx(db, id))
  {
  }

  lemma CancelJobIsLater(db: Db, id: Id)
    ensures Later(db, CancelJobTx(db, id))
  {
  }

  lemma TickIsLater(db: Db, due: set<Id>)
    ensures Later(db, TickTx(db, due))
  {
  }

  lemma TableJobsAreLater(s: System, e: Event)
    requires Inv(s) && (e.InsertJob? || e.CancelJob? || e.Tick? || e.RecordMismatch?)
    ensures Later(s.db, Next(s, e).db)
  {
    match e {
      case InsertJob(id) => InsertJobIsLater(s.db, id);
      case CancelJob(id) => CancelJobIsLater(s.db, id);
      case Tick(due) => TickIsLater(s.db, due);
      case RecordMismatch(w) =>
    }
  }

  predicate MovesOnly(e: Event) {
    OutsideEvent(e) || e.Kill? || e.Reject? || e.Search? || e.Post? || e.Recover? || e.ReadBack? || e.Explode?
  }

  lemma MovesKeepDb(s: System, e: Event)
    requires MovesOnly(e)
    ensures Next(s, e).db == s.db
  {
  }

  lemma NextIsLater(s: System, e: Event)
    requires Inv(s)
    ensures Later(s.db, Next(s, e).db)
  {
    if EngineEvent(e) {
      EngineIsLater(s, e);
    } else if MovesOnly(e) {
      MovesKeepDb(s, e);
    } else if e.InsertJob? || e.CancelJob? || e.Tick? || e.RecordMismatch? {
      TableJobsAreLater(s, e);
    } else {
      WorkerIsLater(s, e);
    }
  }

  lemma WorkerIsLater(s: System, e: Event)
    requires Inv(s) && (e.Claim? || e.Begin? || e.NoteAccepted? || e.NoteVerifying? || e.Conclude? || e.Finish?)
    ensures Later(s.db, Next(s, e).db)
  {
    if e.Claim? || e.Begin? {
      StartIsLater(s, e);
    } else if e.Conclude? || e.Finish? {
      EndIsLater(s, e);
    } else {
      NotingIsLater(s, e);
    }
  }

  lemma StartIsLater(s: System, e: Event)
    requires Inv(s) && (e.Claim? || e.Begin?)
    ensures Later(s.db, Next(s, e).db)
  {
    match e {
      case Claim(w, id) => ClaimIsLater(s, w, id);
      case Begin(w, blocked) => BeginIsLater(s, w, blocked);
    }
  }

  lemma EndIsLater(s: System, e: Event)
    requires Inv(s) && (e.Conclude? || e.Finish?)
    ensures Later(s.db, Next(s, e).db)
  {
    match e {
      case Conclude(w) => ConcludeIsLater(s, w);
      case Finish(w) => FinishIsLater(s, w);
    }
  }

  lemma NotingIsLater(s: System, e: Event)
    requires Inv(s) && (e.NoteAccepted? || e.NoteVerifying?)
    ensures Later(s.db, Next(s, e).db)
  {
    match e {
      case NoteAccepted(w) =>
        if At(s, w).Found? {
          NoteIsLater(s, w, ProviderAccepted, Accepted(At(s, w).id, At(s, w).n, At(s, w).oid));
        }
      case NoteVerifying(w) =>
        if At(s, w).Accepted? {
          NoteIsLater(s, w, Verifying, ReadingBack(At(s, w).id, At(s, w).n, At(s, w).oid));
        }
    }
  }

  /** Whatever happens, stored payloads keep their bytes and their hash, and DEAD_LETTER, like every other
      settled job and like a cancelled action, is never left again. */
  lemma {:induction false} RunIsLater(s: System, events: seq<Event>)
    requires Inv(s)
    ensures Later(s.db, Run(s, events).db)
    decreases |events|
  {
    if events != [] {
      var t := Next(s, events[0]);
      NextIsLater(s, events[0]);
      NextKeeps(s, events[0]);
      RunIsLater(t, events[1..]);
      LaterTransitive(s.db, t.db, Run(s, events).db);
    }
  }

  // ---- a cancelled action is never written ----------------------------------------------------------------

  ghost predicate NothingNew(objects: map<ObjectId, Object>, objects': map<ObjectId, Object>, id: Id) {
    forall o :: o in objects' && Made(objects'[o], id) ==> o in objects && Made(objects[o], id)
  }

  lemma PostAddsNothing(s: System, w: WorkerId, created: Option<ObjectId>, reply: PostReply, id: Id)
    requires Inv(s) && id in s.db.table.actions && s.db.table.actions[id].status == Cancelled
    ensures NothingNew(s.objects, PostStep(s, w, created, reply).objects, id)
  {
  }

  lemma ObjectsChangeOutside(s: System, e: Event)
    requires !e.Post? && !OutsideEvent(e)
    ensures Next(s, e).objects == s.objects
  {
  }

  lemma OutsideAddsNothing(s: System, e: Event, id: Id)
    requires OutsideEvent(e)
    ensures NothingNew(s.objects, OutsideStep(s, e).objects, id)
  {
  }

  lemma CancelledStepAddsNothing(s: System, e: Event, id: Id)
    requires Inv(s) && id in s.db.table.actions && s.db.table.actions[id].status == Cancelled
    ensures NothingNew(s.objects, Next(s, e).objects, id)
  {
    if e.Post? {
      PostAddsNothing(s, e.w, e.created, e.reply, id);
    } else if OutsideEvent(e) {
      OutsideAddsNothing(s, e, id);
    } else {
      ObjectsChangeOutside(s, e);
    }
  }

  /** Once an action is cancelled, even from RETRY_SCHEDULED, no POST creates anything for it. */
  lemma {:induction false} CancelledIsNeverWritten(s: System, events: seq<Event>, id: Id)
    requires Inv(s) && id in s.db.table.actions && s.db.table.actions[id].status == Cancelled
    ensures NothingNew(s.objects, Run(s, events).objects, id)
    decreases |events|
  {
    if events != [] {
      CancelledStepAddsNothing(s, events[0], id);
      NextIsLater(s, events[0]);
      NextKeeps(s, events[0]);
      CancelledIsNeverWritten(Next(s, events[0]), events[1..], id);
    }
  }

  // ---- runs, put together -------------------------------------------------------------------------------------

  lemma {:induction false} RunAppend(s: System, events: seq<Event>, e: Event)
    ensures Run(s, events + [e]) == Next(Run(s, events), e)
    decreases |events|
  {
    if events == [] {
      assert [e][1..] == [];
    } else {
      assert (events + [e])[0] == events[0] && (events + [e])[1..] == events[1..] + [e];
      RunAppend(Next(s, events[0]), events[1..], e);
    }
  }

  /** A run with all its states. */
  datatype History = History(states: seq<System>, events: seq<Event>)

  ghost predicate StepAt(h: History, i: int)
    requires |h.states| == |h.events| + 1 && 0 <= i < |h.events|
  {
    h.states[i + 1] == Next(h.states[i], h.events[i])
  }

  ghost predicate Lawful(start: System, h: History) {
    && |h.states| == |h.events| + 1
    && h.states[0] == start
    && forall i :: 0 <= i < |h.events| ==> StepAt(h, i)
  }

  function Last(h: History): System
    requires |h.states| > 0
  {
    h.states[|h.states| - 1]
  }

  function Extend(h: History, e: Event, s: System): History {
    History(h.states + [s], h.events + [e])
  }

  lemma Extended(start: System, h: History, e: Event)
    requires Lawful(start, h)
    ensures Lawful(start, Extend(h, e, Next(Last(h), e)))
  {
    var g := Extend(h, e, Next(Last(h), e));
    forall i | 0 <= i < |g.events| ensures StepAt(g, i) {
      if i < |h.events| {
        assert StepAt(h, i);
      }
    }
  }

  lemma {:induction false} LawfulIsRun(start: System, h: History)
    requires Lawful(start, h)
    ensures Last(h) == Run(start, h.events)
    decreases |h.events|
  {
    if h.events != [] {
      var k := |h.events| - 1;
      var g := History(h.states[..k + 1], h.events[..k]);
      forall i | 0 <= i < k ensures StepAt(g, i) {
        assert StepAt(h, i);
      }
      LawfulIsRun(start, g);
      RunAppend(start, g.events, h.events[k]);
      assert g.events + [h.events[k]] == h.events && StepAt(h, k);
    }
  }

  // Steps whose method has more to prove than the step: these spare it the other events.

  lemma TookBegin(start: System, h: History, w: WorkerId, blocked: bool)
    requires Lawful(start, h)
    ensures Lawful(start, Extend(h, Event.Begin(w, blocked), BeginStep(Last(h), w, blocked)))
  {
    Extended(start, h, Event.Begin(w, blocked));
  }

  lemma TookNoteAccepted(start: System, h: History, w: WorkerId, id: Id, n: nat, oid: ObjectId)
    requires Lawful(start, h) && At(Last(h), w) == Found(id, n, oid)
    ensures Lawful(start, Extend(h, Event.NoteAccepted(w), NoteStep(Last(h), w, ProviderAccepted, Accepted(id, n, oid))))
  {
    Extended(start, h, Event.NoteAccepted(w));
  }

  lemma TookNoteVerifying(start: System, h: History, w: WorkerId, id: Id, n: nat, oid: ObjectId)
    requires Lawful(start, h) && At(Last(h), w) == Accepted(id, n, oid)
    ensures Lawful(start, Extend(h, Event.NoteVerifying(w), NoteStep(Last(h), w, Verifying, ReadingBack(id, n, oid))))
  {
    Extended(start, h, Event.NoteVerifying(w));
  }

  lemma TookConclude(start: System, h: History, w: WorkerId)
    requires Lawful(start, h)
    ensures Lawful(start, Extend(h, Event.Conclude(w), ConcludeStep(Last(h), w)))
  {
    Extended(start, h, Event.Conclude(w));
  }

  lemma TookStop(start: System, h: History, w: WorkerId, fatal: bool)
    requires Lawful(start, h) && Trying(At(Last(h), w))
    ensures var pc := At(Last(h), w);
      Lawful(start, if fatal then Extend(h, Event.Kill(w), Go(Last(h), w, Dead))
                    else Extend(h, Event.Explode(w), Go(Last(h), w, Finishing(pc.id, pc.n, RetryScheduled, false))))
  {
    Extended(start, h, if fatal then Event.Kill(w) else Event.Explode(w));
  }
}
