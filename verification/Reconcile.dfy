/** Pairing of book lines with portal lines: by GSTIN and reference where both have them, by amount and name otherwise. */
module Reconcile {
  import opened Options

  const AMOUNT_TOLERANCE := 100
  const NAME_THRESHOLD := 75.0

  /** gstin and ref are "" when missing; amounts are in paise. */
  datatype Line = Line(id: string, amount: int, counterparty: string, gstin: string, ref: string)

  datatype Status = AutoMatched | Suggested | Unmatched

  datatype Flag = NoFlag | AmountMismatch | NotInBooks

  datatype Pair = Pair(status: Status, score: Option<real>, source: Option<Line>, target: Option<Line>, flag: Flag)

  datatype Bucket = Bucket(count: nat, total: int)

  datatype Summary = Summary(auto: Bucket, suggested: Bucket, unmatched: Bucket)

  /** Similarity of two names, 0 to 100; a parameter of everything here. */
  type NameScore = (string, string) -> real

  ghost predicate Scores(f: NameScore) {
    forall a, b :: 0.0 <= f(a, b) <= 100.0
  }

  predicate Keyed(s: Line, t: Line) {
    s.gstin != "" && s.gstin == t.gstin && s.ref != "" && s.ref == t.ref
  }

  function Difference(s: Line, t: Line): int {
    if s.amount < t.amount then t.amount - s.amount else s.amount - t.amount
  }

  predicate Eligible(f: NameScore, s: Line, t: Line) {
    Keyed(s, t) || (Difference(s, t) <= AMOUNT_TOLERANCE && f(s.counterparty, t.counterparty) >= NAME_THRESHOLD)
  }

  function Combined(f: NameScore, s: Line, t: Line): real {
    if Keyed(s, t) then 1.0
    else
      var amount := 100.0 - Difference(s, t) as real / 100.0;
      (f(s.counterparty, t.counterparty) * 0.6 + (if amount < 0.0 then 0.0 else amount) * 0.4) / 100.0
  }

  function FlagOf(s: Line, t: Line): Flag {
    if Difference(s, t) > AMOUNT_TOLERANCE then AmountMismatch else NoFlag
  }

  /** Every eligible pair scores at least 0.84 and at most 1: nothing is ever merely suggested. */
  lemma EligibleScores(f: NameScore, s: Line, t: Line)
    requires Scores(f) && Eligible(f, s, t)
    ensures 0.84 <= Combined(f, s, t) <= 1.0
  {
  }

  /** Without keys a full name score and no difference score 1; each point of the name score is worth 0.006 and each rupee
      of difference 0.004. */
  lemma ScoreFallsWithNameAndAmount(f: NameScore, s: Line, t: Line)
    requires Eligible(f, s, t) && !Keyed(s, t)
    ensures Combined(f, s, t) == 1.0 - 0.006 * (100.0 - f(s.counterparty, t.counterparty)) - 0.004 * (Difference(s, t) as real / 100.0)
  {
  }

  predicate Free(targets: seq<Line>, taken: set<string>, j: int)
    requires 0 <= j < |targets|
  {
    targets[j].id !in taken
  }

  /** The first of the best free eligible targets, None without any. */
  method BestMatch(f: NameScore, s: Line, targets: seq<Line>, taken: set<string>) returns (best: Option<nat>, score: real)
    requires Scores(f)
    ensures best.None? ==> forall j :: 0 <= j < |targets| && Free(targets, taken, j) ==> !Eligible(f, s, targets[j])
    ensures best.Some? ==>
      var b := best.value;
      && b < |targets| && Free(targets, taken, b) && Eligible(f, s, targets[b]) && score == Combined(f, s, targets[b])
      && (forall j :: 0 <= j < |targets| && Free(targets, taken, j) && Eligible(f, s, targets[j]) ==> Combined(f, s, targets[j]) <= score)
      && (forall j :: 0 <= j < b && Free(targets, taken, j) && Eligible(f, s, targets[j]) ==> Combined(f, s, targets[j]) < score)
  {
    best, score := None, 0.0;
    for j := 0 to |targets|
      invariant best.None? ==> score == 0.0 && forall k :: 0 <= k < j && Free(targets, taken, k) ==> !Eligible(f, s, targets[k])
      invariant best.Some? ==>
        var b := best.value;
        && b < j && Free(targets, taken, b) && Eligible(f, s, targets[b]) && score == Combined(f, s, targets[b])
        && (forall k :: 0 <= k < j && Free(targets, taken, k) && Eligible(f, s, targets[k]) ==> Combined(f, s, targets[k]) <= score)
        && (forall k :: 0 <= k < b && Free(targets, taken, k) && Eligible(f, s, targets[k]) ==> Combined(f, s, targets[k]) < score)
    {
      var t := targets[j];
      if t.id in taken {
        continue;
      }
      var keyed := s.gstin != "" && t.gstin != "" && s.gstin == t.gstin && s.ref != "" && t.ref != "" && s.ref == t.ref;
      var difference := Difference(s, t);
      if !keyed && difference > AMOUNT_TOLERANCE {
        continue;
      }
      if !keyed && f(s.counterparty, t.counterparty) < NAME_THRESHOLD {
        continue;
      }
      EligibleScores(f, s, t);
      if Combined(f, s, t) > score {
        best, score := Some(j), Combined(f, s, t);
      }
    }
  }

  // ---- the report ---------------------------------------------------------------------------------------------------

  predicate DistinctIds(lines: seq<Line>) {
    forall i, j :: 0 <= i < j < |lines| ==> lines[i].id != lines[j].id
  }

  /** target line t is shown in row i. */
  predicate ShownIn(rows: seq<Pair>, t: Line, i: int) {
    0 <= i < |rows| && rows[i].target == Some(t)
  }

  ghost predicate Shown(rows: seq<Pair>, t: Line, n: nat) {
    exists i :: i < n && ShownIn(rows, t, i)
  }

  /** Row i is what the i-th source gets, given the rows before it. */
  ghost predicate RowOk(f: NameScore, s: Line, targets: seq<Line>, rows: seq<Pair>, i: nat)
    requires i < |rows|
  {
    var r := rows[i];
    && r.source == Some(s)
    && !r.status.Suggested?
    && (r.target.Some? ==>
          && r.target.value in targets && Eligible(f, s, r.target.value) && !Shown(rows, r.target.value, i)
          && r.status.AutoMatched? && r.score == Some(Combined(f, s, r.target.value)) && r.flag == FlagOf(s, r.target.value))
    && (r.target.None? ==> r.status.Unmatched? && r.score == None && r.flag == NoFlag)
    && (forall t :: t in targets && Eligible(f, s, t) && !Shown(rows, t, i) ==>
          r.target.Some? && Combined(f, s, t) <= Combined(f, s, r.target.value))
  }

  /** A target line left over. */
  predicate PortalOnly(r: Pair) {
    r.status.Unmatched? && r.score == None && r.source == None && r.target.Some? && r.flag == NotInBooks
  }

  ghost predicate Reported(f: NameScore, sources: seq<Line>, targets: seq<Line>, rows: seq<Pair>) {
    && |sources| <= |rows|
    && (forall i :: 0 <= i < |sources| ==> RowOk(f, sources[i], targets, rows, i))
    && (forall i :: |sources| <= i < |rows| ==> PortalOnly(rows[i]) && rows[i].target.value in targets)
    && (forall i, j, t :: ShownIn(rows, t, i) && ShownIn(rows, t, j) ==> i == j)
    && (forall t :: t in targets ==> Shown(rows, t, |rows|))
  }

  function Amount(r: Pair): int {
    if r.source.Some? then r.source.value.amount else if r.target.Some? then r.target.value.amount else 0
  }

  function Tally(rows: seq<Pair>, status: Status): Bucket {
    if rows == [] then Bucket(0, 0)
    else
      var last := rows[|rows| - 1];
      var b := Tally(rows[..|rows| - 1], status);
      if last.status == status then Bucket(b.count + 1, b.total + Amount(last)) else b
  }

  function TotalAmount(rows: seq<Pair>): int {
    if rows == [] then 0 else TotalAmount(rows[..|rows| - 1]) + Amount(rows[|rows| - 1])
  }

  /** taken holds the ids of exactly the targets shown so far. */
  ghost predicate Taken(targets: seq<Line>, rows: seq<Pair>, taken: set<string>) {
    forall t :: t in targets ==> (t.id in taken <==> Shown(rows, t, |rows|))
  }

  lemma ShownGrows(rows: seq<Pair>, r: Pair, t: Line)
    ensures Shown(rows + [r], t, |rows| + 1) <==> Shown(rows, t, |rows|) || r.target == Some(t)
    ensures Shown(rows + [r], t, |rows|) <==> Shown(rows, t, |rows|)
  {
    var all := rows + [r];
    if Shown(rows, t, |rows|) {
      var i :| i < |rows| && ShownIn(rows, t, i);
      assert ShownIn(all, t, i);
    }
    if r.target == Some(t) {
      assert ShownIn(all, t, |rows|);
    }
    if Shown(all, t, |rows| + 1) && r.target != Some(t) {
      var i :| i < |rows| + 1 && ShownIn(all, t, i);
      assert ShownIn(rows, t, i);
    }
    if Shown(all, t, |rows|) {
      var i :| i < |rows| && ShownIn(all, t, i);
      assert ShownIn(rows, t, i);
    }
  }

  lemma TakenGrows(targets: seq<Line>, rows: seq<Pair>, r: Pair, taken: set<string>)
    requires DistinctIds(targets) && Taken(targets, rows, taken) && (r.target.Some? ==> r.target.value in targets)
    ensures Taken(targets, rows + [r], if r.target.Some? then taken + {r.target.value.id} else taken)
  {
    forall t | t in targets
      ensures t.id in (if r.target.Some? then taken + {r.target.value.id} else taken) <==> Shown(rows + [r], t, |rows| + 1)
    {
      ShownGrows(rows, r, t);
    }
  }

  lemma ShownPrefix(rows: seq<Pair>, r: Pair, t: Line, i: nat)
    requires i <= |rows|
    ensures Shown(rows + [r], t, i) <==> Shown(rows, t, i)
  {
    if Shown(rows, t, i) {
      var k :| k < i && ShownIn(rows, t, k);
      assert ShownIn(rows + [r], t, k);
    }
    if Shown(rows + [r], t, i) {
      var k :| k < i && ShownIn(rows + [r], t, k);
      assert ShownIn(rows, t, k);
    }
  }

  lemma RowsStay(f: NameScore, s: Line, targets: seq<Line>, rows: seq<Pair>, r: Pair, i: nat)
    requires i < |rows| && RowOk(f, s, targets, rows, i)
    ensures RowOk(f, s, targets, rows + [r], i)
  {
    forall t ensures Shown(rows + [r], t, i) <==> Shown(rows, t, i) {
      ShownPrefix(rows, r, t, i);
    }
  }

  /** No target is shown twice. */
  ghost predicate Once(rows: seq<Pair>) {
    forall i, j, t :: ShownIn(rows, t, i) && ShownIn(rows, t, j) ==> i == j
  }

  lemma OnceGrows(rows: seq<Pair>, r: Pair)
    requires Once(rows) && (r.target.Some? ==> !Shown(rows, r.target.value, |rows|))
    ensures Once(rows + [r])
  {
    var all := rows + [r];
    forall i, j, t | ShownIn(all, t, i) && ShownIn(all, t, j) ensures i == j {
      assert i < |rows| ==> ShownIn(rows, t, i);
      assert j < |rows| ==> ShownIn(rows, t, j);
    }
  }

  method PairSource(f: NameScore, s: Line, targets: seq<Line>, ghost rows: seq<Pair>, taken: set<string>)
    returns (r: Pair)
    requires Scores(f) && DistinctIds(targets) && Taken(targets, rows, taken)
    ensures RowOk(f, s, targets, rows + [r], |rows|)
    ensures r.target.Some? ==> r.target.value in targets && !Shown(rows, r.target.value, |rows|)
  {
    var best, score := BestMatch(f, s, targets, taken);
    if best.Some? {
      var t := targets[best.value];
      EligibleScores(f, s, t);
      r := Pair(if score >= 0.8 then AutoMatched else Suggested, Some(score), Some(s), Some(t), FlagOf(s, t));
    } else {
      r := Pair(Unmatched, None, Some(s), None, NoFlag);
    }
    forall t | t in targets && Eligible(f, s, t) && !Shown(rows + [r], t, |rows|)
      ensures r.target.Some? && Combined(f, s, t) <= Combined(f, s, r.target.value)
    {
      ShownGrows(rows, r, t);
      var j :| 0 <= j < |targets| && targets[j] == t;
      assert Free(targets, taken, j);
    }
    if r.target.Some? {
      assert Free(targets, taken, best.value);
      ShownGrows(rows, r, r.target.value);
    }
  }

  method ReconcileLines(f: NameScore, sources: seq<Line>, targets: seq<Line>) returns (rows: seq<Pair>, summary: Summary)
    requires Scores(f) && DistinctIds(targets)
    ensures Reported(f, sources, targets, rows)
    ensures summary == Summary(Tally(rows, AutoMatched), Tally(rows, Suggested), Tally(rows, Unmatched))
  {
    rows := [];
    var taken: set<string> := {};
    for i := 0 to |sources|
      invariant |rows| == i && Taken(targets, rows, taken) && Once(rows)
      invariant forall k :: 0 <= k < i ==> RowOk(f, sources[k], targets, rows, k)
    {
      var r := PairSource(f, sources[i], targets, rows, taken);
      forall k | 0 <= k < i ensures RowOk(f, sources[k], targets, rows + [r], k) {
        RowsStay(f, sources[k], targets, rows, r, k);
      }
      TakenGrows(targets, rows, r, taken);
      OnceGrows(rows, r);
      if r.target.Some? {
        taken := taken + {r.target.value.id};
      }
      rows := rows + [r];
    }
    rows := AddPortalOnly(f, sources, targets, rows, taken);
    var auto := CountStatus(rows, AutoMatched);
    var suggested := CountStatus(rows, Suggested);
    var unmatched := CountStatus(rows, Unmatched);
    summary := Summary(auto, suggested, unmatched);
  }

  /** The target lines no source took. */
  method AddPortalOnly(f: NameScore, sources: seq<Line>, targets: seq<Line>, matches: seq<Pair>, taken: set<string>)
    returns (rows: seq<Pair>)
    requires DistinctIds(targets) && Taken(targets, matches, taken) && Once(matches) && |matches| == |sources|
    requires forall k :: 0 <= k < |sources| ==> RowOk(f, sources[k], targets, matches, k)
    ensures Reported(f, sources, targets, rows)
  {
    rows := matches;
    ghost var shown := taken;
    for j := 0 to |targets|
      invariant |sources| <= |rows| && Taken(targets, rows, shown) && Once(rows)
      invariant forall k :: 0 <= k < |sources| ==> RowOk(f, sources[k], targets, rows, k)
      invariant forall k :: |sources| <= k < |rows| ==> PortalOnly(rows[k]) && rows[k].target.value in targets
      invariant forall k :: 0 <= k < j ==> targets[k].id in shown
      invariant forall k :: j <= k < |targets| ==> (targets[k].id in shown <==> targets[k].id in taken)
    {
      var t := targets[j];
      if t.id !in taken {
        var r := Pair(Unmatched, None, None, Some(t), NotInBooks);
        assert !Shown(rows, t, |rows|);
        forall k | 0 <= k < |sources| ensures RowOk(f, sources[k], targets, rows + [r], k) {
          RowsStay(f, sources[k], targets, rows, r, k);
        }
        TakenGrows(targets, rows, r, shown);
        OnceGrows(rows, r);
        shown := shown + {t.id};
        rows := rows + [r];
      }
    }
    forall t | t in targets ensures Shown(rows, t, |rows|) {
      var j :| 0 <= j < |targets| && targets[j] == t;
      assert targets[j].id in shown;
    }
  }

  method CountStatus(rows: seq<Pair>, status: Status) returns (b: Bucket)
    ensures b == Tally(rows, status)
  {
    b := Bucket(0, 0);
    for i := 0 to |rows|
      invariant b == Tally(rows[..i], status)
    {
      assert rows[..i + 1][..i] == rows[..i];
      if rows[i].status == status {
        b := Bucket(b.count + 1, b.total + Amount(rows[i]));
      }
    }
    assert rows[..|rows|] == rows;
  }

  // ---- what the report means ----------------------------------------------------------------------------------------------

  /** A source with a free target of its GSTIN and reference is paired, with score 1. */
  lemma FreeKeyWins(f: NameScore, sources: seq<Line>, targets: seq<Line>, rows: seq<Pair>, i: nat, t: Line)
    requires Scores(f) && Reported(f, sources, targets, rows) && i < |sources|
    requires t in targets && Keyed(sources[i], t) && !Shown(rows, t, i)
    ensures rows[i].target.Some? && rows[i].score == Some(1.0) && rows[i].status.AutoMatched?
  {
  }

  /** An unflagged pair is within one rupee; only a pair with equal keys can be flagged. */
  lemma FlagsTellDifferences(f: NameScore, sources: seq<Line>, targets: seq<Line>, rows: seq<Pair>, i: nat)
    requires Reported(f, sources, targets, rows) && i < |sources| && rows[i].target.Some?
    ensures rows[i].flag == NoFlag <==> Difference(sources[i], rows[i].target.value) <= 100
    ensures rows[i].flag != NoFlag ==> Keyed(sources[i], rows[i].target.value)
  {
  }

  /** The buckets are a partition of the report, and the bucket of suggestions is always empty. */
  lemma {:induction false} BucketsAddUp(rows: seq<Pair>)
    ensures Tally(rows, AutoMatched).count + Tally(rows, Suggested).count + Tally(rows, Unmatched).count == |rows|
    ensures Tally(rows, AutoMatched).total + Tally(rows, Suggested).total + Tally(rows, Unmatched).total == TotalAmount(rows)
  {
    if rows != [] {
      BucketsAddUp(rows[..|rows| - 1]);
    }
  }

  lemma {:induction false} NoneSuggested(rows: seq<Pair>)
    requires forall i :: 0 <= i < |rows| ==> !rows[i].status.Suggested?
    ensures Tally(rows, Suggested) == Bucket(0, 0)
  {
    if rows != [] {
      NoneSuggested(rows[..|rows| - 1]);
    }
  }

  lemma NothingIsSuggested(f: NameScore, sources: seq<Line>, targets: seq<Line>, rows: seq<Pair>)
    requires Reported(f, sources, targets, rows)
    ensures Tally(rows, Suggested) == Bucket(0, 0)
  {
    forall i | 0 <= i < |rows| ensures !rows[i].status.Suggested? {
      if i < |sources| {
        assert RowOk(f, sources[i], targets, rows, i);
      }
    }
    NoneSuggested(rows);
  }
}
