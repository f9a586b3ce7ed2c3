/**
 The finance_actions table: who may move an action to which status, how an approval is bound to a
 payload, and the three HTTP-side operations (propose, approve, cancel).

 A row update is one atomic step.  approve_action issues several statements outside any transaction,
 so they are separate steps here; `desk` remembers how far an approver has got.
 */
module FinanceActions {
  import opened Options

  type Id = string

  datatype Status =
    | Draft | Validated | AwaitingApproval | Approved | Queued | Claimed | Executing | ProviderAccepted
    | Verifying | Succeeded | NeedsInput | NeedsReview | RetryScheduled | AuthExpired | Failed
    | DeadLetter | Cancelled

  /** The database trigger enforce_finance_action_transition; any other change of status raises. */
  predicate Allowed(from: Status, to: Status) {
    from == to ||
    match from
    case Draft => (to.Validated? || to.Cancelled? || to.NeedsInput?)
    case Validated => (to.AwaitingApproval? || to.NeedsInput? || to.Cancelled?)
    case AwaitingApproval => (to.Approved? || to.Cancelled?)
    case Approved => (to.Queued? || to.Cancelled?)
    case Queued => (to.Claimed? || to.Cancelled?)
    case Claimed => (to.Executing? || to.RetryScheduled? || to.Failed?)
    case Executing => (to.ProviderAccepted? || to.RetryScheduled? || to.AuthExpired? || to.Failed? || to.NeedsReview?)
    case ProviderAccepted => (to.Verifying? || to.NeedsReview?)
    case Verifying => (to.Succeeded? || to.NeedsReview? || to.RetryScheduled? || to.Failed?)
    case RetryScheduled => (to.Queued? || to.DeadLetter? || to.Cancelled?)
    case NeedsInput => (to.Validated? || to.Cancelled?)
    case NeedsReview => (to.Queued? || to.Failed? || to.Cancelled?)
    case AuthExpired => (to.Queued? || to.Cancelled?)
    case Failed => (to.Queued? || to.DeadLetter? || to.Cancelled?)
    case _ => false
  }

  /** SHA-256 of the canonical JSON, read as an injective function of the payload. */
  datatype Digest<+P> = Digest(of: P)

  /** lease: None when no device holds the row, otherwise the second its lease runs out. */
  datatype Action<+P> = Action(
    payload: P, payloadHash: Digest<P>, approvedHash: Option<Digest<P>>,
    status: Status, attempts: nat, lease: Option<int>)

  datatype DeskStep = MustQueue | MustInsertJob

  datatype Table<+P> = Table(actions: map<Id, Action<P>>, keys: map<string, Id>, desk: map<Id, DeskStep>)

  /** UPDATE of the status column alone; None when the trigger raises. */
  function Move<P>(a: Action<P>, to: Status, matched: bool): Option<Action<P>> {
    if Allowed(a.status, to) && (to == Succeeded ==> matched) then Some(a.(status := to)) else None
  }

  function Fresh<P>(payload: P): Action<P> {
    Action(payload, Digest(payload), None, AwaitingApproval, 0, None)
  }

  /** A repeated idempotency key returns the stored row; a clash of the new uuid would raise. */
  function ProposeRow<P>(t: Table<P>, id: Id, key: string, payload: P): Table<P> {
    if key in t.keys || id in t.actions then t
    else t.(actions := t.actions[id := Fresh(payload)], keys := t.keys[key := id])
  }

  predicate Approvable<P(==)>(t: Table<P>, id: Id, reviewed: Digest<P>) {
    id in t.actions && t.actions[id].payloadHash == reviewed && t.actions[id].status == AwaitingApproval
  }

  function ApproveRow<P(==)>(t: Table<P>, id: Id, reviewed: Digest<P>): Table<P> {
    if !Approvable(t, id, reviewed) then t
    else t.(actions := t.actions[id := t.actions[id].(status := Approved, approvedHash := Some(reviewed))],
            desk := t.desk[id := MustQueue])
  }

  /** The approver's second statement: it names only the id, so the trigger is its one guard. */
  function QueueRow<P>(t: Table<P>, id: Id): Table<P> {
    if !(id in t.desk && t.desk[id] == MustQueue && id in t.actions) then t
    else match Move(t.actions[id], Queued, false)
      case None => t.(desk := t.desk - {id})
      case Some(a) => t.(actions := t.actions[id := a], desk := t.desk[id := MustInsertJob])
  }

  predicate Cancellable<P>(t: Table<P>, id: Id) {
    id in t.actions && (t.actions[id].status.AwaitingApproval? || t.actions[id].status.Queued? || t.actions[id].status.RetryScheduled?)
  }

  function CancelRow<P>(t: Table<P>, id: Id): Table<P> {
    if !Cancellable(t, id) then t else t.(actions := t.actions[id := t.actions[id].(status := Cancelled)])
  }

  /** Statuses an action can only have after an approval. */
  predicate PastApproval(s: Status) {
    !(s.AwaitingApproval? || s.Cancelled?)
  }

  /** The hash an approver saw is the hash of the payload that is stored now. */
  ghost predicate Bound<P(!new)>(a: Action<P>) {
    && a.payloadHash == Digest(a.payload)
    && !(a.status.Draft? || a.status.Validated? || a.status.NeedsInput?)
    && (PastApproval(a.status) ==> a.approvedHash == Some(a.payloadHash))
  }

  ghost predicate TableOk<P(!new)>(t: Table<P>) {
    && (forall id :: id in t.actions ==> Bound(t.actions[id]))
    && (forall id :: id in t.desk && t.desk[id] == MustQueue ==> id in t.actions && t.actions[id].status == Approved)
  }

  /** Rows are never dropped and a stored payload, with its hash, never changes. */
  ghost predicate PayloadsKept<P(!new)>(t: Table<P>, u: Table<P>) {
    forall id :: id in t.actions ==>
                   id in u.actions && u.actions[id].payload == t.actions[id].payload
                   && u.actions[id].payloadHash == t.actions[id].payloadHash
  }

  /** The only moves the HTTP side makes on a row that exists. */
  predicate EngineMove(from: Status, to: Status) {
    || from == to
    || (from == AwaitingApproval && to == Approved)
    || (from == Approved && to == Queued)
    || ((from.AwaitingApproval? || from.Queued? || from.RetryScheduled?) && to == Cancelled)
  }

  /** New rows await approval; old ones keep everything but status and approval. */
  ghost predicate EngineStep<P(!new)>(t: Table<P>, u: Table<P>) {
    && PayloadsKept(t, u)
    && (forall id :: id in t.actions ==>
                       && u.actions[id].attempts == t.actions[id].attempts
                       && u.actions[id].lease == t.actions[id].lease
                       && EngineMove(t.actions[id].status, u.actions[id].status)
                       && (u.actions[id].status == t.actions[id].status ==> u.actions[id] == t.actions[id]))
    && (forall id :: id in u.actions && id !in t.actions ==>
                       u.actions[id].status == AwaitingApproval && u.actions[id].attempts == 0 && u.actions[id].lease == None)
  }

  /** Every other row is as it was. */
  ghost predicate OthersKept<P(!new)>(t: Table<P>, u: Table<P>, id: Id) {
    forall k :: k != id ==> (k in t.actions <==> k in u.actions) && (k in t.actions ==> u.actions[k] == t.actions[k])
  }

  /** Proposing, approving and cancelling keep approvals bound to the stored payload, and touch one row.  A proposal
      under a new key adds an unapproved row; under that key nothing is ever added again. */
  lemma ProposeIsEngineStep<P(!new)>(t: Table<P>, id: Id, key: string, payload: P)
    requires TableOk(t)
    ensures var u := ProposeRow(t, id, key, payload);
      && TableOk(u) && EngineStep(t, u) && OthersKept(t, u, id)
      && (key in t.keys || id in t.actions ==> u == t)
      && (key !in t.keys && id !in t.actions ==>
            && id in u.actions && u.actions[id].payload == payload && u.actions[id].approvedHash.None?
            && key in u.keys && u.keys[key] == id
            && forall again, other :: ProposeRow(u, again, key, other) == u)
  {
  }

  /** Only a row awaiting approval is approved, and only under the hash of the payload that is stored. */
  lemma ApproveIsEngineStep<P(!new)>(t: Table<P>, id: Id, reviewed: Digest<P>)
    requires TableOk(t)
    ensures var u := ApproveRow(t, id, reviewed);
      && TableOk(u) && EngineStep(t, u) && OthersKept(t, u, id)
      && (u != t <==> id in t.actions && t.actions[id].status == AwaitingApproval && Digest(t.actions[id].payload) == reviewed)
      && (u != t ==> u.actions[id].status == Approved && u.actions[id].approvedHash == Some(Digest(u.actions[id].payload)))
  {
    if Approvable(t, id, reviewed) {
      assert ApproveRow(t, id, reviewed).actions[id].status == Approved;
    }
  }

  /** The second statement queues exactly the row that was just approved. */
  lemma QueueIsEngineStep<P(!new)>(t: Table<P>, id: Id)
    requires TableOk(t)
    ensures var u := QueueRow(t, id);
      && TableOk(u) && EngineStep(t, u) && OthersKept(t, u, id)
      && (u.actions != t.actions <==> id in t.desk && t.desk[id] == MustQueue)
      && (u.actions != t.actions ==> t.actions[id].status == Approved && u.actions[id].status == Queued)
  {
    if id in t.desk && t.desk[id] == MustQueue {
      assert QueueRow(t, id).actions[id].status == Queued;
    }
  }

  /** A cancel takes back what is waiting or queued, and nothing that is being worked on or done. */
  lemma CancelIsEngineStep<P(!new)>(t: Table<P>, id: Id)
    requires TableOk(t)
    ensures var u := CancelRow(t, id);
      && TableOk(u) && EngineStep(t, u) && OthersKept(t, u, id)
      && (u != t <==> id in t.actions && t.actions[id].status in {AwaitingApproval, Queued, RetryScheduled})
      && (u != t ==> u.actions[id].status == Cancelled)
  {
    if Cancellable(t, id) {
      assert CancelRow(t, id).actions[id].status == Cancelled;
    }
  }
}
