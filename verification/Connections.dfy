/** The values shared by every part of the relay model: connections, the order
    on bridges, and the caps of an account. */
module Connections {

  datatype Option<+T> = None | Some(value: T) {
    function GetOr(default: T): T {
      if Some? then value else default
    }
  }

  const MAX_BRIDGES: nat := 10
  const MAX_PHONES: nat := 5
  const MAX_CONN_ID: nat := 65535

  /** One live websocket. `handle` stands for the pointer identity of the
      relay's connection object: every handler creates exactly one connection,
      so two connections are the same object iff their handles agree.
      `bridgeID` is a bridge's own id, or the id a phone is pinned to ("" for a
      phone that follows the default). `connID` is 0 until a phone is
      registered. */
  datatype Connection = Connection(handle: nat, connID: nat, bridgeID: string, connectedAt: int)

  type Bridges = map<string, Connection>
  type Phones = map<nat, Connection>

  /** A map read that yields nil for a missing key. */
  function Lookup<K, V>(m: map<K, V>, k: K): Option<V> {
    if k in m then Some(m[k]) else None
  }

  /** Strict lexicographic order on ids. */
  predicate Precedes(a: string, b: string) {
    |b| > 0 && (|a| == 0 || a[0] < b[0] || (a[0] == b[0] && Precedes(a[1..], b[1..])))
  }

  lemma {:induction false} PrecedesTotal(a: string, b: string)
    ensures a != b ==> (Precedes(a, b) <==> !Precedes(b, a))
    ensures a == b ==> !Precedes(a, b)
    decreases |a|
  {
    if |a| > 0 && |b| > 0 && a[0] == b[0] {
      PrecedesTotal(a[1..], b[1..]);
      assert a == [a[0]] + a[1..] && b == [b[0]] + b[1..];
    }
  }

  lemma {:induction false} PrecedesTransitive(a: string, b: string, c: string)
    requires Precedes(a, b) && Precedes(b, c)
    ensures Precedes(a, c)
    decreases |a|
  {
    if |a| > 0 && a[0] == b[0] && b[0] == c[0] {
      PrecedesTransitive(a[1..], b[1..], c[1..]);
    }
  }

  /** What the order means: at the first position where the ids differ, `a` has
      ended or has the smaller character. */
  lemma {:induction false} PrecedesMeans(a: string, b: string)
    ensures Precedes(a, b) <==>
      exists i: nat :: i < |b| && i <= |a| && a[..i] == b[..i] && (i == |a| || a[i] < b[i])
    decreases |a|
  {
    if |a| > 0 && |b| > 0 && a[0] == b[0] {
      var a', b' := a[1..], b[1..];
      PrecedesMeans(a', b');
      if Precedes(a', b') {
        var i: nat :| i < |b'| && i <= |a'| && a'[..i] == b'[..i] && (i == |a'| || a'[i] < b'[i]);
        assert a[..i + 1] == [a[0]] + a'[..i] && b[..i + 1] == [b[0]] + b'[..i];
      }
      if i: nat :| i < |b| && i <= |a| && a[..i] == b[..i] && (i == |a| || a[i] < b[i]) {
        assert i > 0;
        assert a'[..i - 1] == a[..i][1..] && b'[..i - 1] == b[..i][1..];
      }
    } else if Precedes(a, b) {
      assert a[..0] == b[..0];
    } else if i: nat :| i < |b| && i <= |a| && a[..i] == b[..i] && (i == |a| || a[i] < b[i]) {
      assert i > 0 ==> a[..i][0] == b[..i][0];
    }
  }

  /** The order that picks the default bridge: later connection first, equal
      times decided by the larger id. */
  predicate Newer(a: Connection, b: Connection) {
    a.connectedAt > b.connectedAt
    || (a.connectedAt == b.connectedAt && Precedes(b.bridgeID, a.bridgeID))
  }

  lemma NewerTotal(a: Connection, b: Connection)
    ensures a.bridgeID != b.bridgeID ==> (Newer(a, b) <==> !Newer(b, a))
    ensures !(Newer(a, b) && Newer(b, a))
  {
    PrecedesTotal(a.bridgeID, b.bridgeID);
  }

  lemma NewerTransitive(a: Connection, b: Connection, c: Connection)
    requires Newer(a, b) && Newer(b, c)
    ensures Newer(a, c)
  {
    if a.connectedAt == b.connectedAt == c.connectedAt {
      PrecedesTransitive(c.bridgeID, b.bridgeID, a.bridgeID);
    }
  }
}
