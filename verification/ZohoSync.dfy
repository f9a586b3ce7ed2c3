/**
 The sync of one kind of Zoho master (contacts, accounts, items or taxes): one page at a time, each page in a
 transaction that saves the cursor, with failures in between and operators who resume a failed job.

 Assumptions: the provider's pages stay as they are while the job lasts, and no other job writes this kind.
 */
module ZohoSync {
  import opened Options

  const MAX_PAGES := 1000

  type Id = string

  datatype Item = Item(id: Id, values: string, voided: bool)

  /** A row of provider_objects of this kind. */
  datatype Row = Row(values: string, voided: bool, deleted: bool)

  type Table = map<Id, Row>

  datatype Status = Queued | Running | Failed | Succeeded

  /** cursor None is the first page. */
  datatype Job = Job(status: Status, cursor: Option<int>, seen: seq<Id>, processed: nat)

  datatype State = State(table: Table, job: Job)

  datatype Response = Rows(items: seq<Item>, more: bool) | Failure

  // ---- one page ------------------------------------------------------------------------------------------------

  function UpsertAll(t: Table, items: seq<Item>): Table {
    if items == [] then t
    else
      var last := items[|items| - 1];
      UpsertAll(t, items[..|items| - 1])[last.id := Row(last.values, last.voided, false)]
  }

  /** The ids seen before and then the new ones, each once. */
  function SeenAfter(seen: seq<Id>, items: seq<Item>): seq<Id> {
    if items == [] then seen
    else
      var before := SeenAfter(seen, items[..|items| - 1]);
      var id := items[|items| - 1].id;
      if id in before then before else before + [id]
  }

  function Marked(t: Table, seen: seq<Id>): Table {
    map id | id in t :: if id !in seen && !t[id].deleted then t[id].(deleted := true) else t[id]
  }

  function PageOf(cursor: Option<int>): int {
    if cursor.None? then 1 else cursor.value
  }

  predicate InRange(page: int) { 1 <= page <= MAX_PAGES }

  function Answered(s: State, r: Response): State {
    var page := PageOf(s.job.cursor);
    if !s.job.status.Running? then s
    else if !InRange(page) || r.Failure? then s.(job := s.job.(status := Failed))
    else
      var table := UpsertAll(s.table, r.items);
      var seen := SeenAfter(s.job.seen, r.items);
      if r.more then State(table, Job(Queued, Some(page + 1), seen, s.job.processed + |r.items|))
      else State(Marked(table, seen), Job(Succeeded, None, seen, s.job.processed + |r.items|))
  }

  class MasterSync {
    var table: Table
    var job: Job

    ghost function Here(): State
      reads this
    {
      State(table, job)
    }

    constructor (table: Table)
      ensures Here() == State(table, Job(Queued, None, [], 0))
    {
      this.table, this.job := table, Job(Queued, None, [], 0);
    }

    method ClaimSyncJob() returns (ok: bool)
      modifies this`job
      ensures ok == old(job).status.Queued?
      ensures job == if ok then old(job).(status := Running) else old(job)
    {
      ok := job.status.Queued?;
      if ok {
        job := job.(status := Running);
      }
    }

    /** run_sync_job after the claim: `r` is what the provider answers, if the page is in range. */
    method RunSyncJob(r: Response)
      requires job.status.Running?
      modifies this
      ensures Here() == Answered(old(Here()), r)
    {
      var page := PageOf(job.cursor);
      if page < 1 || page > MAX_PAGES || r.Failure? {
        job := job.(status := Failed);
        return;
      }
      var seen := job.seen;
      ghost var before := table;
      for i := 0 to |r.items|
        invariant table == UpsertAll(before, r.items[..i]) && seen == SeenAfter(job.seen, r.items[..i])
        invariant job == old(job)
      {
        assert r.items[..i + 1][..i] == r.items[..i];
        var item := r.items[i];
        if item.id !in seen {
          seen := seen + [item.id];
        }
        table := table[item.id := Row(item.values, item.voided, false)];
      }
      assert r.items[..|r.items|] == r.items;
      if !r.more {
        table := map id | id in table :: if id !in seen && !table[id].deleted then table[id].(deleted := true) else table[id];
      }
      job := Job(if r.more then Queued else Succeeded, if r.more then Some(page + 1) else None, seen, job.processed + |r.items|);
    }

    /** Resume from the saved cursor. */
    method RetrySyncJob() returns (ok: bool)
      modifies this`job
      ensures ok == old(job).status.Failed?
      ensures job == if ok then old(job).(status := Queued) else old(job)
    {
      ok := job.status.Failed?;
      if ok {
        job := job.(status := Queued);
      }
    }
  }

  // ---- a job over a fixed list of pages ----------------------------------------------------------------------------

  datatype Event = Claim | Answer(ok: bool) | Retry

  /** What fetch_page makes of the provider's pages. */
  function Fetch(pages: seq<seq<Item>>, page: int, ok: bool): Response {
    if !ok || !(1 <= page <= |pages|) then Failure else Rows(pages[page - 1], page < |pages|)
  }

  function Next(s: State, e: Event, pages: seq<seq<Item>>): State {
    match e
    case Claim => if s.job.status.Queued? then s.(job := s.job.(status := Running)) else s
    case Retry => if s.job.status.Failed? then s.(job := s.job.(status := Queued)) else s
    case Answer(ok) => Answered(s, Fetch(pages, PageOf(s.job.cursor), ok))
  }

  function Run(s: State, events: seq<Event>, pages: seq<seq<Item>>): State
    decreases |events|
  {
    if events == [] then s else Next(Run(s, events[..|events| - 1], pages), events[|events| - 1], pages)
  }

  function Start(table: Table): State {
    State(table, Job(Queued, None, [], 0))
  }

  function Concat(pages: seq<seq<Item>>): seq<Item> {
    if pages == [] then [] else Concat(pages[..|pages| - 1]) + pages[|pages| - 1]
  }

  /** One pass over everything, with nothing in between. */
  function Uninterrupted(table: Table, items: seq<Item>): Table {
    Marked(UpsertAll(table, items), SeenAfter([], items))
  }

  /** The first `done` pages have been stored, exactly once each. */
  ghost predicate Progress(s: State, table: Table, pages: seq<seq<Item>>, done: nat) {
    && done <= |pages|
    && var items := Concat(pages[..done]);
    && s.job.seen == SeenAfter([], items) && s.job.processed == |items|
    && if s.job.status.Succeeded? then done == |pages| && s.table == Uninterrupted(table, items)
       else done < |pages| && PageOf(s.job.cursor) == done + 1 && s.table == UpsertAll(table, items)
  }

  lemma {:induction false} UpsertConcat(t: Table, a: seq<Item>, b: seq<Item>)
    ensures UpsertAll(t, a + b) == UpsertAll(UpsertAll(t, a), b)
    decreases |b|
  {
    if b == [] {
      assert a + b == a;
    } else {
      assert (a + b)[..|a + b| - 1] == a + b[..|b| - 1];
      UpsertConcat(t, a, b[..|b| - 1]);
    }
  }

  lemma {:induction false} SeenConcat(seen: seq<Id>, a: seq<Item>, b: seq<Item>)
    ensures SeenAfter(seen, a + b) == SeenAfter(SeenAfter(seen, a), b)
    decreases |b|
  {
    if b == [] {
      assert a + b == a;
    } else {
      assert (a + b)[..|a + b| - 1] == a + b[..|b| - 1];
      SeenConcat(seen, a, b[..|b| - 1]);
    }
  }

  lemma AnswerProgresses(s: State, table: Table, pages: seq<seq<Item>>, done: nat, ok: bool)
    requires Progress(s, table, pages, done) && s.job.status.Running?
    ensures var r := Fetch(pages, done + 1, ok);
      Progress(Answered(s, r), table, pages, if r.Failure? || done + 1 > MAX_PAGES then done else done + 1)
  {
    var r := Fetch(pages, done + 1, ok);
    if r.Rows? && done + 1 <= MAX_PAGES {
      assert pages[..done + 1][..done] == pages[..done];
      UpsertConcat(table, Concat(pages[..done]), pages[done]);
      SeenConcat([], Concat(pages[..done]), pages[done]);
    }
  }

  lemma {:induction false} RunProgresses(table: Table, events: seq<Event>, pages: seq<seq<Item>>) returns (done: nat)
    requires |pages| > 0
    ensures Progress(Run(Start(table), events, pages), table, pages, done)
    ensures done <= MAX_PAGES
    decreases |events|
  {
    if events == [] {
      done := 0;
    } else {
      var s := Run(Start(table), events[..|events| - 1], pages);
      var e := events[|events| - 1];
      done := RunProgresses(table, events[..|events| - 1], pages);
      if e.Answer? && s.job.status.Running? {
        AnswerProgresses(s, table, pages, done, e.ok);
        if Fetch(pages, done + 1, e.ok).Rows? && done + 1 <= MAX_PAGES {
          done := done + 1;
        }
      }
    }
  }

  /** However often pages failed and the job was resumed: when it succeeds, the table is what one uninterrupted
      pass would have left, and every listed row was counted once. */
  lemma InterruptedEqualsUninterrupted(table: Table, events: seq<Event>, pages: seq<seq<Item>>)
    requires |pages| > 0 && Run(Start(table), events, pages).job.status.Succeeded?
    ensures Run(Start(table), events, pages).table == Uninterrupted(table, Concat(pages))
    ensures Run(Start(table), events, pages).job.processed == |Concat(pages)|
    ensures |pages| <= 1000
  {
    var done := RunProgresses(table, events, pages);
    assert pages[..|pages|] == pages;
  }

  predicate Lists(items: seq<Item>, id: Id) {
    exists i :: 0 <= i < |items| && items[i].id == id
  }

  lemma {:induction false} UpsertKnows(t: Table, items: seq<Item>, id: Id)
    ensures id in UpsertAll(t, items) <==> id in t || Lists(items, id)
    ensures Lists(items, id) ==> !UpsertAll(t, items)[id].deleted
    decreases |items|
  {
    if items != [] {
      var n := |items| - 1;
      UpsertKnows(t, items[..n], id);
      if Lists(items[..n], id) {
        var i :| 0 <= i < n && items[..n][i].id == id;
        assert items[i].id == id;
      }
      if Lists(items, id) && items[n].id != id {
        var i :| 0 <= i < |items| && items[i].id == id;
        assert items[..n][i].id == id;
      }
    }
  }

  lemma {:induction false} SeenKnows(seen: seq<Id>, items: seq<Item>, id: Id)
    ensures id in SeenAfter(seen, items) <==> id in seen || Lists(items, id)
    decreases |items|
  {
    if items != [] {
      var n := |items| - 1;
      SeenKnows(seen, items[..n], id);
      if Lists(items[..n], id) {
        var i :| 0 <= i < n && items[..n][i].id == id;
        assert items[i].id == id;
      }
      if Lists(items, id) && items[n].id != id {
        var i :| 0 <= i < |items| && items[i].id == id;
        assert items[..n][i].id == id;
      }
    }
  }

  /** Not deleted is exactly what some page lists. */
  lemma NotDeletedMeansListed(table: Table, events: seq<Event>, pages: seq<seq<Item>>, id: Id)
    requires |pages| > 0 && Run(Start(table), events, pages).job.status.Succeeded?
    ensures var t := Run(Start(table), events, pages).table;
      (id in t && !t[id].deleted) <==> exists p :: 0 <= p < |pages| && Lists(pages[p], id)
  {
    InterruptedEqualsUninterrupted(table, events, pages);
    UpsertKnows(table, Concat(pages), id);
    SeenKnows([], Concat(pages), id);
    ConcatLists(pages, id);
  }

  /** The last of the items with its id. */
  predicate Latest(items: seq<Item>, i: nat) {
    i < |items| && forall j :: i < j < |items| ==> items[j].id != items[i].id
  }

  lemma {:induction false} UpsertShows(t: Table, items: seq<Item>, i: nat)
    requires Latest(items, i)
    ensures items[i].id in UpsertAll(t, items)
    ensures UpsertAll(t, items)[items[i].id] == Row(items[i].values, items[i].voided, false)
    decreases |items|
  {
    if i < |items| - 1 {
      UpsertShows(t, items[..|items| - 1], i);
    }
  }

  lemma ListsPrefix(items: seq<Item>, n: nat, id: Id)
    requires n <= |items| && Lists(items[..n], id)
    ensures Lists(items, id)
  {
    var i :| 0 <= i < n && items[..n][i].id == id;
    assert items[i].id == id;
  }

  lemma {:induction false} UpsertLeaves(t: Table, items: seq<Item>, id: Id)
    requires id in t && !Lists(items, id)
    ensures id in UpsertAll(t, items) && UpsertAll(t, items)[id] == t[id]
    decreases |items|
  {
    if items != [] {
      var n := |items| - 1;
      if !Lists(items[..n], id) {
        UpsertLeaves(t, items[..n], id);
      } else {
        ListsPrefix(items, n, id);
      }
    }
  }

  /** After success every listed row has the values and the void flag it was listed with last ... */
  lemma ListedValuesStand(table: Table, events: seq<Event>, pages: seq<seq<Item>>, i: nat)
    requires |pages| > 0 && Run(Start(table), events, pages).job.status.Succeeded? && Latest(Concat(pages), i)
    ensures var t, item := Run(Start(table), events, pages).table, Concat(pages)[i];
      item.id in t && t[item.id] == Row(item.values, item.voided, false)
  {
    var items := Concat(pages);
    InterruptedEqualsUninterrupted(table, events, pages);
    UpsertShows(table, items, i);
    SeenKnows([], items, items[i].id);
    assert Lists(items, items[i].id);
  }

  /** ... and every row that no page lists keeps them, marked as deleted. */
  lemma UnlistedRowsAreMarked(table: Table, events: seq<Event>, pages: seq<seq<Item>>, id: Id)
    requires |pages| > 0 && Run(Start(table), events, pages).job.status.Succeeded?
    requires id in table && !Lists(Concat(pages), id)
    ensures var t := Run(Start(table), events, pages).table; id in t && t[id] == table[id].(deleted := true)
  {
    InterruptedEqualsUninterrupted(table, events, pages);
    UpsertLeaves(table, Concat(pages), id);
    SeenKnows([], Concat(pages), id);
  }

  lemma ListsAppend(a: seq<Item>, b: seq<Item>, id: Id)
    ensures Lists(a + b, id) <==> Lists(a, id) || Lists(b, id)
  {
    if Lists(a, id) {
      var i :| 0 <= i < |a| && a[i].id == id;
      assert (a + b)[i].id == id;
    }
    if Lists(b, id) {
      var i :| 0 <= i < |b| && b[i].id == id;
      assert (a + b)[|a| + i].id == id;
    }
  }

  lemma {:induction false} ConcatLists(pages: seq<seq<Item>>, id: Id)
    ensures Lists(Concat(pages), id) <==> exists p :: 0 <= p < |pages| && Lists(pages[p], id)
    decreases |pages|
  {
    if pages != [] {
      var n := |pages| - 1;
      ConcatLists(pages[..n], id);
      ListsAppend(Concat(pages[..n]), pages[n], id);
      if exists p :: 0 <= p < n && Lists(pages[..n][p], id) {
        var p :| 0 <= p < n && Lists(pages[..n][p], id);
        assert Lists(pages[p], id);
      }
      if exists p :: 0 <= p < |pages| && Lists(pages[p], id) {
        var p :| 0 <= p < |pages| && Lists(pages[p], id);
        assert p == n || Lists(pages[..n][p], id);
      }
    }
  }

  /** Until the job succeeds nothing is marked deleted; beyond a thousand pages it never does. */
  lemma NothingDeletedBeforeTheEnd(table: Table, events: seq<Event>, pages: seq<seq<Item>>, id: Id)
    requires |pages| > 0 && id in table && !table[id].deleted
    requires !Run(Start(table), events, pages).job.status.Succeeded?
    ensures var t := Run(Start(table), events, pages).table; id in t && !t[id].deleted
  {
    var done := RunProgresses(table, events, pages);
    KeepsAlive(table, Concat(pages[..done]), id);
  }

  lemma {:induction false} KeepsAlive(t: Table, items: seq<Item>, id: Id)
    requires id in t && !t[id].deleted
    ensures id in UpsertAll(t, items) && !UpsertAll(t, items)[id].deleted
    decreases |items|
  {
    if items != [] {
      KeepsAlive(t, items[..|items| - 1], id);
    }
  }

  lemma TooManyPagesNeverSucceed(table: Table, events: seq<Event>, pages: seq<seq<Item>>)
    requires |pages| > 1000
    ensures !Run(Start(table), events, pages).job.status.Succeeded?
  {
  }

  /** And it can succeed: claiming and answering page after page gets through any thousand pages. */
  function Straight(n: nat): seq<Event> {
    if n == 0 then [] else Straight(n - 1) + [Claim, Answer(true)]
  }

  lemma RunTwo(s: State, events: seq<Event>, a: Event, b: Event, pages: seq<seq<Item>>)
    ensures Run(s, events + [a, b], pages) == Next(Next(Run(s, events, pages), a, pages), b, pages)
  {
    var all := events + [a, b];
    assert all[..|all| - 1] == events + [a] && (events + [a])[..|events|] == events;
  }

  lemma ClaimAndAnswer(s: State, table: Table, pages: seq<seq<Item>>, done: nat)
    requires Progress(s, table, pages, done) && s.job.status.Queued? && |pages| <= MAX_PAGES
    ensures var t := Next(Next(s, Claim, pages), Answer(true), pages);
      Progress(t, table, pages, done + 1) && t.job.status == if done + 1 == |pages| then Succeeded else Queued
  {
    AnswerProgresses(Next(s, Claim, pages), table, pages, done, true);
  }

  lemma {:induction false} StraightRunSucceeds(table: Table, pages: seq<seq<Item>>, n: nat)
    requires 0 < |pages| <= 1000 && n <= |pages|
    ensures var s := Run(Start(table), Straight(n), pages);
      Progress(s, table, pages, n) && s.job.status == if n == |pages| then Succeeded else Queued
  {
    if n > 0 {
      StraightRunSucceeds(table, pages, n - 1);
      RunTwo(Start(table), Straight(n - 1), Claim, Answer(true), pages);
      ClaimAndAnswer(Run(Start(table), Straight(n - 1), pages), table, pages, n - 1);
    }
  }
}
