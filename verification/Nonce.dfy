/**
 Replay protection of signed device requests: a nonce table that is pruned after ten minutes, against a
 clock skew of five minutes either way.

 A request reads the clock twice: NOW() is the start of its transaction and the time a nonce is stored and
 pruned by; the skew is measured a little later, after the body has arrived.
 */
module Nonce {
  const RETENTION := 600.0
  const MAX_SKEW := 300.0

  type Key = (string, string)

  /** `genuine`: the device is paired and the signature covers exactly this request. */
  datatype Request = Request(device: string, nonce: string, timestamp: int, started: real, checked: real, genuine: bool)

  function KeyOf(q: Request): Key { (q.device, q.nonce) }

  predicate Timely(q: Request, skew: real) {
    -skew <= q.checked - q.timestamp as real <= skew
  }

  type Table = map<Key, real>

  function Pruned(t: Table, now: real, retention: real): Table {
    map k | k in t && t[k] >= now - retention :: t[k]
  }

  predicate Accepts(t: Table, q: Request, skew: real, retention: real) {
    q.genuine && Timely(q, skew) && KeyOf(q) !in Pruned(t, q.started, retention)
  }

  /** A refused request leaves no trace: its transaction, prune included, rolls back. */
  function After(t: Table, q: Request, skew: real, retention: real): Table {
    if Accepts(t, q, skew, retention) then Pruned(t, q.started, retention)[KeyOf(q) := q.started] else t
  }

  /** The table after the first n requests. */
  function TableAt(qs: seq<Request>, n: nat, skew: real, retention: real): Table
    requires n <= |qs|
  {
    if n == 0 then map[] else After(TableAt(qs, n - 1, skew, retention), qs[n - 1], skew, retention)
  }

  predicate AcceptedAt(qs: seq<Request>, i: nat, skew: real, retention: real)
    requires i < |qs|
  {
    Accepts(TableAt(qs, i, skew, retention), qs[i], skew, retention)
  }

  class DeviceGate {
    var nonces: Table

    constructor ()
      ensures nonces == map[]
    {
      nonces := map[];
    }

    method RequireDevice(q: Request) returns (ok: bool)
      modifies this
      ensures ok == Accepts(old(nonces), q, MAX_SKEW, RETENTION)
      ensures nonces == After(old(nonces), q, MAX_SKEW, RETENTION)
      ensures ok ==> KeyOf(q) in nonces && forall k :: k in nonces ==> nonces[k] >= q.started - RETENTION
    {
      var before := nonces;
      ok := false;
      var elapsed := q.checked - q.timestamp as real;
      if !q.genuine || elapsed > MAX_SKEW || -elapsed > MAX_SKEW {
        return;
      }
      nonces := map k | k in nonces && !(nonces[k] < q.started - RETENTION) :: nonces[k];
      assert nonces == Pruned(before, q.started, RETENTION);
      if (q.device, q.nonce) in nonces {
        nonces := before;
        return;
      }
      nonces := nonces[(q.device, q.nonce) := q.started];
      ok := true;
    }
  }

  /** One clock: transactions start in the order of the list, and each is checked within `delay` of its start. */
  predicate OneClock(qs: seq<Request>, delay: real) {
    && (forall i, j :: 0 <= i < j < |qs| ==> qs[i].started <= qs[j].started)
    && (forall i :: 0 <= i < |qs| ==> qs[i].started <= qs[i].checked <= qs[i].started + delay)
  }

  /** A stored nonce is remembered until a request starts more than the retention later. */
  lemma {:induction false} Remembered(qs: seq<Request>, i: nat, n: nat, skew: real, retention: real)
    requires i < n <= |qs| && retention >= 0.0 && AcceptedAt(qs, i, skew, retention)
    requires forall a, b :: 0 <= a < b < |qs| ==> qs[a].started <= qs[b].started
    ensures (KeyOf(qs[i]) in TableAt(qs, n, skew, retention) && TableAt(qs, n, skew, retention)[KeyOf(qs[i])] >= qs[i].started)
            || exists k :: i < k < n && qs[k].started > qs[i].started + retention
  {
    if n > i + 1 {
      var key := KeyOf(qs[i]);
      var q := qs[n - 1];
      var t := TableAt(qs, n - 1, skew, retention);
      Remembered(qs, i, n - 1, skew, retention);
      if key in t && t[key] >= qs[i].started && key !in TableAt(qs, n, skew, retention) {
        assert t[key] < q.started - retention;
      }
    }
  }

  /** An accepted request i with the nonce of q that is still remembered when q starts. */
  predicate Remembers(qs: seq<Request>, i: nat, q: Request, skew: real, retention: real)
    requires i < |qs|
  {
    AcceptedAt(qs, i, skew, retention) && KeyOf(qs[i]) == KeyOf(q) && qs[i].started >= q.started - retention
  }

  /** An entry of the table is the start of an accepted request. */
  lemma {:induction false} StoredByAccepted(qs: seq<Request>, n: nat, skew: real, retention: real, key: Key) returns (i: nat)
    requires n <= |qs| && key in TableAt(qs, n, skew, retention)
    ensures i < n && AcceptedAt(qs, i, skew, retention) && KeyOf(qs[i]) == key
    ensures qs[i].started == TableAt(qs, n, skew, retention)[key]
    decreases n
  {
    if AcceptedAt(qs, n - 1, skew, retention) && KeyOf(qs[n - 1]) == key {
      i := n - 1;
    } else {
      i := StoredByAccepted(qs, n - 1, skew, retention, key);
    }
  }

  /** Over every run a request is accepted exactly when its device signed it, its timestamp is within the window of the
      clock, and no accepted request with its nonce started within the retention before it. */
  lemma AcceptedIff(qs: seq<Request>, n: nat, skew: real, retention: real)
    requires n < |qs| && retention >= 0.0 && forall a, b :: 0 <= a < b < |qs| ==> qs[a].started <= qs[b].started
    ensures AcceptedAt(qs, n, skew, retention) <==>
      && qs[n].genuine && qs[n].timestamp as real - skew <= qs[n].checked <= qs[n].timestamp as real + skew
      && forall i :: 0 <= i < n ==> !Remembers(qs, i, qs[n], skew, retention)
  {
    var q, t := qs[n], TableAt(qs, n, skew, retention);
    if KeyOf(q) in Pruned(t, q.started, retention) {
      var i := StoredByAccepted(qs, n, skew, retention, KeyOf(q));
      assert Remembers(qs, i, q, skew, retention);
    }
    forall i | 0 <= i < n && Remembers(qs, i, q, skew, retention) ensures KeyOf(q) in Pruned(t, q.started, retention) {
      Remembered(qs, i, n, skew, retention);
    }
  }

  /** The same signed request is never accepted twice, as long as a request is checked within `delay` of its
      start and nonces are kept for the whole window plus that delay. */
  lemma NoReplay(qs: seq<Request>, i: nat, j: nat, skew: real, retention: real, delay: real)
    requires OneClock(qs, delay) && i < j < |qs| && retention >= 2.0 * skew + delay && skew >= 0.0 && delay >= 0.0
    requires qs[j].device == qs[i].device && qs[j].nonce == qs[i].nonce && qs[j].timestamp == qs[i].timestamp
    requires AcceptedAt(qs, i, skew, retention)
    ensures !AcceptedAt(qs, j, skew, retention)
  {
    Remembered(qs, i, j, skew, retention);
  }

  /** Two deliveries of one signed request whose clock is `skew` seconds ahead: as early as the window allows,
      with the body arriving `delay` late, and as late as the window allows. */
  function Replayed(device: string, nonce: string, skew: nat, delay: real): seq<Request> {
    [Request(device, nonce, skew, -delay, 0.0, true),
     Request(device, nonce, skew, 2.0 * skew as real, 2.0 * skew as real, true)]
  }

  /** With any shorter retention both deliveries are accepted. */
  lemma ShorterRetentionAllowsReplay(device: string, nonce: string, skew: nat, retention: real, delay: real)
    requires 0.0 <= retention < 2.0 * skew as real + delay && delay >= 0.0
    ensures var qs := Replayed(device, nonce, skew, delay);
      OneClock(qs, delay) && AcceptedAt(qs, 0, skew as real, retention) && AcceptedAt(qs, 1, skew as real, retention)
  {
  }

  /** Requests i and j are one signed request, delivered twice and accepted twice. */
  predicate AcceptedTwice(qs: seq<Request>, i: nat, j: nat) {
    && i < j < |qs| && KeyOf(qs[i]) == KeyOf(qs[j]) && qs[i].timestamp == qs[j].timestamp
    && AcceptedAt(qs, i, MAX_SKEW, RETENTION) && AcceptedAt(qs, j, MAX_SKEW, RETENTION)
  }

  /** Ten minutes cover five minutes either way exactly when no time passes between the two clock readings. */
  lemma TenMinutesAreTight(delay: real)
    requires delay >= 0.0
    ensures delay == 0.0 <==> forall qs: seq<Request>, i: nat, j: nat :: OneClock(qs, delay) ==> !AcceptedTwice(qs, i, j)
  {
    if delay == 0.0 {
      forall qs: seq<Request>, i: nat, j: nat | OneClock(qs, delay) ensures !AcceptedTwice(qs, i, j) {
        if AcceptedTwice(qs, i, j) {
          NoReplay(qs, i, j, MAX_SKEW, RETENTION, delay);
          assert false;
        }
      }
    } else {
      ShorterRetentionAllowsReplay("", "", 300, RETENTION, delay);
      assert AcceptedTwice(Replayed("", "", 300, delay), 0, 1);
    }
  }
}
