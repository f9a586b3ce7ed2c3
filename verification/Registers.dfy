/**
 One canonical register (purchase and sales alike): a row for each source identity and version, written by the
 projection of verified actions, by the Zoho sync, and by its marking of what has disappeared.
 */
module Registers {
  import opened Options

  type Identity = string
  type Version = string
  type Key = (Identity, Version)

  datatype Row = Row(status: string, active: bool, verification: Option<string>)

  type Rows = map<Key, Row>

  datatype Event =
    | Verified(identity: Identity, version: Version, status: string, verification: string)
    | Synced(identity: Identity, version: Version, status: string, voided: bool)
    | Disappeared(identities: set<Identity>)

  // ---- specification: one row at a time ---------------------------------------------------------------------

  predicate Writes(e: Event, k: Key) {
    !e.Disappeared? && k == (e.identity, e.version)
  }

  function Written(e: Event, row: Option<Row>): Row
    requires !e.Disappeared?
  {
    match e
    case Verified(_, _, status, verification) => Row(status, true, Some(verification))
    case Synced(_, _, status, voided) => Row(status, !voided, if row.Some? then row.value.verification else None)
  }

  function Other(e: Event, k: Key, row: Row): Row {
    match e
    case Disappeared(ids) => if k.0 in ids && row.active then row.(status := "DISAPPEARED", active := false) else row
    case _ => if k.0 == e.identity then row.(active := false) else row
  }

  function RowAfter(e: Event, k: Key, row: Option<Row>): Option<Row> {
    if Writes(e, k) then Some(Written(e, row)) else if row.Some? then Some(Other(e, k, row.value)) else None
  }

  function Get(rows: Rows, k: Key): Option<Row> { if k in rows then Some(rows[k]) else None }

  function After(rows: Rows, e: Event): Rows {
    (map k | k in rows :: Other(e, k, rows[k]))
    + if e.Disappeared? then map[] else map[(e.identity, e.version) := Written(e, Get(rows, (e.identity, e.version)))]
  }

  lemma AfterAt(rows: Rows, e: Event, k: Key)
    ensures Get(After(rows, e), k) == RowAfter(e, k, Get(rows, k))
  {
  }

  function Run(rows: Rows, events: seq<Event>): Rows
    decreases |events|
  {
    if events == [] then rows else After(Run(rows, events[..|events| - 1]), events[|events| - 1])
  }

  // ---- the table --------------------------------------------------------------------------------------------------

  class Register {
    var rows: Rows

    constructor ()
      ensures rows == map[]
    {
      rows := map[];
    }

    method Supersede(identity: Identity, version: Version)
      modifies this
      ensures rows == map k | k in old(rows) ::
        if k.0 == identity && k.1 != version && old(rows)[k].active then old(rows)[k].(active := false) else old(rows)[k]
    {
      rows := map k | k in rows ::
        if k.0 == identity && k.1 != version && rows[k].active then rows[k].(active := false) else rows[k];
    }

    /** project_verified_purchase and project_verified_sale, after the MATCHED check. */
    method ProjectVerified(identity: Identity, version: Version, status: string, verification: string)
      modifies this
      ensures rows == After(old(rows), Verified(identity, version, status, verification))
    {
      Supersede(identity, version);
      var key := (identity, version);
      rows := rows[key := if key in rows then rows[key].(status := status, verification := Some(verification), active := true)
                          else Row(status, true, Some(verification))];
    }

    /** The sync worker's _project. */
    method ProjectSynced(identity: Identity, version: Version, status: string, voided: bool)
      modifies this
      ensures rows == After(old(rows), Synced(identity, version, status, voided))
    {
      Supersede(identity, version);
      var key := (identity, version);
      rows := rows[key := if key in rows then rows[key].(status := status, active := !voided) else Row(status, !voided, None)];
    }

    /** At the end of a sync: the rows of provider objects that are marked deleted. */
    method MarkDisappeared(identities: set<Identity>)
      modifies this
      ensures rows == After(old(rows), Disappeared(identities))
    {
      rows := map k | k in rows ::
        if k.0 in identities && rows[k].active then rows[k].(status := "DISAPPEARED", active := false) else rows[k];
    }
  }

  // ---- what the register shows ------------------------------------------------------------------------------------------

  /** The version the register should show: the last one projected, unless it was void or has disappeared since. */
  function Current(events: seq<Event>, identity: Identity): Option<Version>
    decreases |events|
  {
    if events == [] then None
    else
      var e := events[|events| - 1];
      var before := Current(events[..|events| - 1], identity);
      match e
      case Verified(id, version, _, _) => if id == identity then Some(version) else before
      case Synced(id, version, _, voided) => if id != identity then before else if voided then None else Some(version)
      case Disappeared(ids) => if identity in ids then None else before
  }

  predicate Active(rows: Rows, k: Key) {
    k in rows && rows[k].active
  }

  /** Whichever writers, in whatever order, versions going back and forth: the active rows of an identity are
      exactly its current version. */
  lemma {:induction false} ActiveIsCurrent(events: seq<Event>, identity: Identity, version: Version)
    ensures Active(Run(map[], events), (identity, version)) <==> Current(events, identity) == Some(version)
    decreases |events|
  {
    if events != [] {
      var before := events[..|events| - 1];
      ActiveIsCurrent(before, identity, version);
      AfterAt(Run(map[], before), events[|events| - 1], (identity, version));
    }
  }

  lemma AtMostOneActive(events: seq<Event>, identity: Identity, v: Version, w: Version)
    requires Active(Run(map[], events), (identity, v)) && Active(Run(map[], events), (identity, w))
    ensures v == w
  {
    ActiveIsCurrent(events, identity, v);
    ActiveIsCurrent(events, identity, w);
  }

  /** The register never forgets a version, only deactivates it. */
  lemma {:induction false} RowsStay(rows: Rows, events: seq<Event>, k: Key)
    requires k in rows
    ensures k in Run(rows, events)
    decreases |events|
  {
    if events != [] {
      RowsStay(rows, events[..|events| - 1], k);
      AfterAt(Run(rows, events[..|events| - 1]), events[|events| - 1], k);
    }
  }

  /** The verification on record for a version: that of its last verified projection. */
  function LastVerification(events: seq<Event>, k: Key): Option<string>
    decreases |events|
  {
    if events == [] then None
    else
      var e := events[|events| - 1];
      if e.Verified? && (e.identity, e.version) == k then Some(e.verification) else LastVerification(events[..|events| - 1], k)
  }

  /** Whether anything has projected the version at all. */
  predicate Projected(events: seq<Event>, k: Key) {
    exists i :: 0 <= i < |events| && !events[i].Disappeared? && (events[i].identity, events[i].version) == k
  }

  lemma ProjectedGrows(events: seq<Event>, n: nat, k: Key)
    requires n + 1 == |events|
    ensures Projected(events, k) <==> Projected(events[..n], k) || Writes(events[n], k)
  {
    if Projected(events[..n], k) {
      var i :| 0 <= i < n && !events[..n][i].Disappeared? && (events[..n][i].identity, events[..n][i].version) == k;
      assert !events[i].Disappeared? && (events[i].identity, events[i].version) == k;
    }
    if Projected(events, k) && !Writes(events[n], k) {
      var i :| 0 <= i < |events| && !events[i].Disappeared? && (events[i].identity, events[i].version) == k;
      assert !events[..n][i].Disappeared? && (events[..n][i].identity, events[..n][i].version) == k;
    }
  }

  /** A version is in the register exactly when something has projected it, and a sync never loses its verification. */
  lemma {:induction false} RowsAreProjected(events: seq<Event>, k: Key)
    ensures k in Run(map[], events) <==> Projected(events, k)
    ensures LastVerification(events, k) == if k in Run(map[], events) then Run(map[], events)[k].verification else None
    decreases |events|
  {
    if events != [] {
      var n := |events| - 1;
      RowsAreProjected(events[..n], k);
      ProjectedGrows(events, n, k);
      AfterAt(Run(map[], events[..n]), events[n], k);
      assert Get(Run(map[], events), k) == RowAfter(events[n], k, Get(Run(map[], events[..n]), k));
    }
  }

  /** The row of the last projection of an identity carries its status, and is active unless a sync found it void; the
      other versions keep status and verification and are inactive. */
  lemma LastProjectionShows(events: seq<Event>, e: Event, later: seq<Event>, k: Key)
    requires !e.Disappeared? && k.0 == e.identity && forall i :: 0 <= i < |later| ==> !About(later[i], e.identity)
    ensures var before, after := Get(Run(map[], events), k), Get(Run(After(Run(map[], events), e), later), k);
      if k.1 == e.version then
        after.Some? && after.value.status == e.status && after.value.active == (e.Verified? || !e.voided)
        && after.value.verification == if e.Verified? then Some(e.verification) else LastVerification(events, k)
      else if before.None? then after.None?
      else after == Some(before.value.(active := false))
  {
    UntouchedRow(After(Run(map[], events), e), later, k);
    AfterAt(Run(map[], events), e, k);
    RowsAreProjected(events, k);
  }

  /** What disappears turns inactive, and says so; what was inactive already is left alone. */
  lemma DisappearedRow(rows: Rows, identities: set<Identity>, k: Key)
    requires k in rows
    ensures var row := After(rows, Disappeared(identities));
      k in row && row[k] == if k.0 in identities && rows[k].active then Row("DISAPPEARED", false, rows[k].verification) else rows[k]
  {
    AfterAt(rows, Disappeared(identities), k);
  }

  predicate About(e: Event, identity: Identity) {
    if e.Disappeared? then identity in e.identities else e.identity == identity
  }

  /** e has been applied, and nothing has touched its identity since. */
  ghost predicate Standing(rows: Rows, e: Event)
    requires !e.Disappeared?
  {
    forall k :: Get(rows, k) == if k.0 == e.identity then RowAfter(e, k, Get(rows, k)) else Get(rows, k)
  }

  lemma {:induction false} StandsUntilTouched(rows: Rows, e: Event, later: seq<Event>)
    requires !e.Disappeared? && forall i :: 0 <= i < |later| ==> !About(later[i], e.identity)
    ensures Standing(Run(After(rows, e), later), e)
    decreases |later|
  {
    forall k: Key | k.0 == e.identity
      ensures Get(Run(After(rows, e), later), k) == RowAfter(e, k, Get(Run(After(rows, e), later), k))
    {
      UntouchedRow(After(rows, e), later, k);
      AfterAt(rows, e, k);
    }
  }

  lemma {:induction false} UntouchedRow(rows: Rows, later: seq<Event>, k: Key)
    requires forall i :: 0 <= i < |later| ==> !About(later[i], k.0)
    ensures Get(Run(rows, later), k) == Get(rows, k)
    decreases |later|
  {
    if later != [] {
      var n := |later| - 1;
      UntouchedRow(rows, later[..n], k);
      AfterAt(Run(rows, later[..n]), later[n], k);
      assert !About(later[n], k.0);
    }
  }

  /** Replaying a projection changes nothing, right away or after any events of other identities. */
  lemma ReplayChangesNothing(rows: Rows, e: Event, later: seq<Event>)
    requires !e.Disappeared? && forall i :: 0 <= i < |later| ==> !About(later[i], e.identity)
    ensures var t := Run(After(rows, e), later); After(t, e) == t
  {
    var t := Run(After(rows, e), later);
    StandsUntilTouched(rows, e, later);
    forall k ensures Get(After(t, e), k) == Get(t, k) {
      AfterAt(t, e, k);
      assert Get(t, k) == if k.0 == e.identity then RowAfter(e, k, Get(t, k)) else Get(t, k);
    }
    forall k ensures k in After(t, e) <==> k in t {
      assert Get(After(t, e), k) == Get(t, k);
    }
    forall k | k in t ensures After(t, e)[k] == t[k] {
      assert Get(After(t, e), k) == Get(t, k);
    }
  }
}
