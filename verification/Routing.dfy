/** Effective targets: which bridge each phone talks to, how a change of the
    bridge map moves phones, and what the report of such a change says. */
module Routing {
  import opened Connections

  /** Every entry is stored under the connection's own bridge id. */
  ghost predicate Keyed(bridges: Bridges) {
    forall id :: id in bridges ==> bridges[id].bridgeID == id
  }

  /** `b` is registered, as itself, under its own id. */
  predicate Current(bridges: Bridges, b: Connection) {
    b.bridgeID in bridges && bridges[b.bridgeID] == b
  }

  /** `b` is the newest of `bridges`: the unique maximum of the order. */
  ghost predicate IsNewest(bridges: Bridges, b: Connection) {
    Current(bridges, b)
    && forall id :: id in bridges && id != b.bridgeID ==> Newer(b, bridges[id])
  }

  lemma NewestExists(bridges: Bridges)
    requires Keyed(bridges) && bridges != map[]
    ensures exists b :: IsNewest(bridges, b)
    decreases |bridges|
  {
    var id :| id in bridges;
    var rest := bridges - {id};
    if rest == map[] {
      assert forall x :: x in bridges && x != id ==> x in rest;
      assert IsNewest(bridges, bridges[id]);
    } else {
      assert bridges.Keys == rest.Keys + {id};
      NewestExists(rest);
      var b :| IsNewest(rest, b);
      NewerTotal(bridges[id], b);
      if Newer(b, bridges[id]) {
        assert IsNewest(bridges, b);
      } else {
        forall x | x in bridges && x != id ensures Newer(bridges[id], bridges[x]) {
          assert x in rest;
          if x != b.bridgeID {
            NewerTransitive(bridges[id], b, bridges[x]);
          }
        }
        assert IsNewest(bridges, bridges[id]);
      }
    }
  }

  lemma NewestUnique(bridges: Bridges, a: Connection, b: Connection)
    requires IsNewest(bridges, a) && IsNewest(bridges, b)
    ensures a == b
  {
    NewerTotal(a, b);
  }

  /** The default bridge: the newest one, or none. */
  ghost function Default(bridges: Bridges): (r: Option<Connection>)
    requires Keyed(bridges)
    ensures r.None? <==> bridges == map[]
    ensures r.Some? ==> IsNewest(bridges, r.value)
  {
    if bridges == map[] then None
    else
      NewestExists(bridges);
      var b :| IsNewest(bridges, b);
      Some(b)
  }

  lemma DefaultIs(bridges: Bridges, b: Connection)
    requires Keyed(bridges) && IsNewest(bridges, b)
    ensures Default(bridges) == Some(b)
  {
    NewestUnique(bridges, b, Default(bridges).value);
  }

  /** The choice in plain terms: the default is the one bridge such that every
      other has an earlier time, or the same time and an id that ends, or has
      the smaller character, where the two ids part. */
  lemma DefaultMeans(bridges: Bridges, b: Connection)
    requires Keyed(bridges)
    ensures Default(bridges) == Some(b) <==>
      && b.bridgeID in bridges && bridges[b.bridgeID] == b
      && forall id :: id in bridges && id != b.bridgeID ==>
           || bridges[id].connectedAt < b.connectedAt
           || (bridges[id].connectedAt == b.connectedAt
               && exists i: nat :: i < |b.bridgeID| && i <= |id| && id[..i] == b.bridgeID[..i]
                                   && (i == |id| || id[i] < b.bridgeID[i]))
  {
    forall id { PrecedesMeans(id, b.bridgeID); }
    assert Default(bridges) == Some(b) <==> IsNewest(bridges, b) by {
      if IsNewest(bridges, b) { DefaultIs(bridges, b); }
    }
  }

  /** The effective target of a phone pinned to `pin` ("" for unpinned). */
  ghost function Target(bridges: Bridges, pin: string): (r: Option<Connection>)
    requires Keyed(bridges)
    ensures r.Some? ==> Current(bridges, r.value)
    ensures r.Some? && pin != "" ==> r.value.bridgeID == pin
  {
    if pin != "" then Lookup(bridges, pin) else Default(bridges)
  }

  /** A phone whose effective target changed. */
  datatype TargetChange = TargetChange(
    phone: Connection, previous: Option<Connection>, previousBridgeID: string, next: Option<Connection>)

  /** Phones are stored under their own non-zero connId. */
  ghost predicate PhonesKeyed(phones: Phones) {
    forall c :: c in phones ==> phones[c].connID == c && 1 <= c <= MAX_CONN_ID
  }

  predicate Registered(phones: Phones, p: Connection) {
    p.connID in phones && phones[p.connID] == p
  }

  ghost predicate Moved(before: Bridges, after: Bridges, pin: string)
    requires Keyed(before) && Keyed(after)
  {
    Target(before, pin) != Target(after, pin)
  }

  /** `ch` describes the move of its phone from `before` to `after`. */
  ghost predicate Describes(before: Bridges, after: Bridges, ch: TargetChange)
    requires Keyed(before) && Keyed(after)
  {
    var was := Target(before, ch.phone.bridgeID);
    && ch.next == Target(after, ch.phone.bridgeID)
    && (ch.previous.Some? <==> was.Some? && Current(after, was.value))
    && (ch.previous.Some? ==> ch.previous == was)
    && ch.previousBridgeID == (if was.Some? then was.value.bridgeID else "")
  }

  ghost function PhonesOf(r: seq<TargetChange>): set<Connection> {
    set i | 0 <= i < |r| :: r[i].phone
  }

  /** An exact report on `phones`: one entry per moved phone, none for any
      other phone. */
  ghost predicate IsReport(phones: set<Connection>, before: Bridges, after: Bridges, changes: seq<TargetChange>)
    requires Keyed(before) && Keyed(after)
  {
    && (forall i :: 0 <= i < |changes| ==>
          && changes[i].phone in phones
          && Moved(before, after, changes[i].phone.bridgeID)
          && Describes(before, after, changes[i]))
    && (forall p :: p in phones && Moved(before, after, p.bridgeID) ==> p in PhonesOf(changes))
    && (forall i, j :: 0 <= i < j < |changes| ==> changes[i].phone != changes[j].phone)
  }

  /** Examining one more phone extends an exact report. */
  lemma ExtendReport(done: set<Connection>, before: Bridges, after: Bridges,
                     changes: seq<TargetChange>, ch: TargetChange)
    requires Keyed(before) && Keyed(after) && IsReport(done, before, after, changes)
    requires ch.phone !in done
    ensures !Moved(before, after, ch.phone.bridgeID) ==> IsReport(done + {ch.phone}, before, after, changes)
    ensures Moved(before, after, ch.phone.bridgeID) && Describes(before, after, ch) ==>
      IsReport(done + {ch.phone}, before, after, changes + [ch])
  {
    var more := changes + [ch];
    assert more[|changes|].phone == ch.phone;
    assert forall i :: 0 <= i < |changes| ==> more[i] == changes[i];
    forall p | p in PhonesOf(changes) ensures p in PhonesOf(more) {
      var i :| 0 <= i < |changes| && changes[i].phone == p;
      assert more[i].phone == p;
    }
  }

  /** Two exact reports of one mutation differ at most in their order. */
  lemma ReportsAgree(phones: set<Connection>, before: Bridges, after: Bridges,
                     r1: seq<TargetChange>, r2: seq<TargetChange>)
    requires Keyed(before) && Keyed(after)
    requires IsReport(phones, before, after, r1) && IsReport(phones, before, after, r2)
    ensures multiset(r1) == multiset(r2)
  {
    ReportMultiplicity(phones, before, after, r1);
    ReportMultiplicity(phones, before, after, r2);
    forall ch ensures multiset(r1)[ch] == multiset(r2)[ch] {
      ReportMembers(phones, before, after, r1, ch);
      ReportMembers(phones, before, after, r2, ch);
    }
  }

  lemma ReportMembers(phones: set<Connection>, before: Bridges, after: Bridges, r: seq<TargetChange>, ch: TargetChange)
    requires Keyed(before) && Keyed(after) && IsReport(phones, before, after, r)
    ensures ch in r <==>
      ch.phone in phones && Moved(before, after, ch.phone.bridgeID) && Describes(before, after, ch)
  {
    if ch.phone in phones && Moved(before, after, ch.phone.bridgeID) && Describes(before, after, ch) {
      var i :| 0 <= i < |r| && r[i].phone == ch.phone;
      assert r[i] == ch;
    }
  }

  lemma ReportMultiplicity(phones: set<Connection>, before: Bridges, after: Bridges, r: seq<TargetChange>)
    requires Keyed(before) && Keyed(after) && IsReport(phones, before, after, r)
    ensures forall ch :: multiset(r)[ch] == if ch in r then 1 else 0
  {
    assert forall i, j :: 0 <= i < j < |r| ==> r[i] != r[j];
    DistinctMultiplicity(r);
  }

  lemma {:induction false} DistinctMultiplicity<T>(r: seq<T>)
    requires forall i, j :: 0 <= i < j < |r| ==> r[i] != r[j]
    ensures forall x :: multiset(r)[x] == if x in r then 1 else 0
  {
    if r != [] {
      var n := |r| - 1;
      DistinctMultiplicity(r[..n]);
      assert r == r[..n] + [r[n]];
    }
  }

  /** A same-id takeover by an older connection that loses the default: the
      replaced connection was the default, and some other bridge is newer than
      its replacement. */
  ghost predicate StaleTakeover(bridges: Bridges, b: Connection)
    requires Keyed(bridges)
  {
    && b.bridgeID in bridges
    && Default(bridges) == Some(bridges[b.bridgeID])
    && exists id :: id in bridges && id != b.bridgeID && Newer(bridges[id], b)
  }

  ghost predicate AllMovesReach(before: Bridges, after: Bridges, b: Connection)
    requires Keyed(before) && Keyed(after)
  {
    forall pin :: Moved(before, after, pin) ==> Target(after, pin) == Some(b)
  }

  /** Joining moves phones only to the joining bridge, except in a stale
      takeover, and then it moves the unpinned phones to a third bridge. */
  lemma JoinIsMinimal(bridges: Bridges, b: Connection)
    requires Keyed(bridges) && b.bridgeID != "" && b !in bridges.Values
    ensures Keyed(bridges[b.bridgeID := b])
    ensures AllMovesReach(bridges, bridges[b.bridgeID := b], b) <==> !StaleTakeover(bridges, b)
    ensures Moved(bridges, bridges[b.bridgeID := b], b.bridgeID)
  {
    var after := bridges[b.bridgeID := b];
    var was, now := Default(bridges), Default(after);
    assert after[b.bridgeID] == b;
    if StaleTakeover(bridges, b) {
      var id :| id in bridges && id != b.bridgeID && Newer(bridges[id], b);
      assert after[id] == bridges[id];
      NewerTotal(bridges[id], b);
      assert now != Some(b);
      assert was == Some(bridges[b.bridgeID]) != now by {
        assert bridges[b.bridgeID] != b;
      }
      assert Moved(bridges, after, "");
    } else {
      if was != now && now != Some(b) {
        // now is an old bridge that is newest among the others and above b
        var n := now.value;
        assert n.bridgeID != b.bridgeID && Newer(n, b);
        assert bridges[n.bridgeID] == n;
        var w := was.value;
        assert w.bridgeID != b.bridgeID;
        assert after[w.bridgeID] == w;
        NewerTotal(w, n);
        assert false;
      }
    }
  }

  /** The same about the report of a join: every moved phone moves to the joining
      bridge, unless the takeover is stale and some phone names no bridge. */
  lemma JoinReportIsMinimal(phones: set<Connection>, bridges: Bridges, b: Connection, changes: seq<TargetChange>)
    requires Keyed(bridges) && b.bridgeID != "" && b !in bridges.Values
    requires Keyed(bridges[b.bridgeID := b]) && IsReport(phones, bridges, bridges[b.bridgeID := b], changes)
    ensures (forall i :: 0 <= i < |changes| ==> changes[i].next == Some(b))
       <==> !(StaleTakeover(bridges, b) && exists p :: p in phones && p.bridgeID == "")
  {
    var after := bridges[b.bridgeID := b];
    JoinIsMinimal(bridges, b);
    if StaleTakeover(bridges, b) {
      StaleMovesUnpinned(bridges, b);
      if p :| p in phones && p.bridgeID == "" {
        assert p in PhonesOf(changes);
        var i :| 0 <= i < |changes| && changes[i].phone == p;
        assert changes[i].next == Target(after, "") != Some(b);
      }
    } else {
      forall i | 0 <= i < |changes| ensures changes[i].next == Some(b) {
        assert Moved(bridges, after, changes[i].phone.bridgeID);
      }
    }
  }

  /** A stale takeover takes every unpinned phone to a third bridge, and moves
      no pinned phone but those of the joining id. */
  lemma StaleMovesUnpinned(bridges: Bridges, b: Connection)
    requires Keyed(bridges) && b.bridgeID != "" && b !in bridges.Values && StaleTakeover(bridges, b)
    ensures Keyed(bridges[b.bridgeID := b])
    ensures var after := bridges[b.bridgeID := b];
      && Moved(bridges, after, "") && Target(after, "").Some? && Target(after, "").value.bridgeID != b.bridgeID
      && forall pin :: pin != "" && Moved(bridges, after, pin) ==> Target(after, pin) == Some(b)
  {
    var after := bridges[b.bridgeID := b];
    var id :| id in bridges && id != b.bridgeID && Newer(bridges[id], b);
    assert after[id] == bridges[id];
    NewerTotal(bridges[id], b);
    var n := Default(after).value;
    assert !Newer(b, after[id]);
    if n.bridgeID == b.bridgeID {
      assert false;
    }
  }

  /** The sufficient condition in the source's terms: nothing is replaced, or
      the replacement is not below what it replaces. */
  lemma FreshJoinIsNotStale(bridges: Bridges, b: Connection)
    requires Keyed(bridges)
    requires b.bridgeID !in bridges || !Newer(bridges[b.bridgeID], b)
    ensures !StaleTakeover(bridges, b)
  {
    if StaleTakeover(bridges, b) {
      var d := bridges[b.bridgeID];
      var id :| id in bridges && id != b.bridgeID && Newer(bridges[id], b);
      assert Newer(d, bridges[id]);
      NewerTransitive(d, bridges[id], b);
      assert false;
    }
  }

  /** Leaving moves exactly the phones that talked to the leaving bridge:
      pinned ones to nobody, unpinned ones to the newest of the rest. */
  lemma LeaveIsMinimal(bridges: Bridges, b: Connection, pin: string)
    requires Keyed(bridges) && Current(bridges, b) && b.bridgeID != ""
    ensures Keyed(bridges - {b.bridgeID})
    ensures Moved(bridges, bridges - {b.bridgeID}, pin) <==> Target(bridges, pin) == Some(b)
    ensures Target(bridges, pin) == Some(b) ==>
      Target(bridges - {b.bridgeID}, pin) == if pin != "" then None else Default(bridges - {b.bridgeID})
  {
    var after := bridges - {b.bridgeID};
    if pin == "" && Default(bridges) != Some(b) {
      var w := Default(bridges).value;
      assert after[w.bridgeID] == w;
      assert IsNewest(after, w);
      DefaultIs(after, w);
    }
  }

  /** Adding a bridge under a fresh id and removing it again restores every
      target, and the two reports undo each other entry by entry. */
  lemma JoinThenLeave(phones: set<Connection>, bridges: Bridges, b: Connection,
                      joined: seq<TargetChange>, left: seq<TargetChange>)
    requires Keyed(bridges)
    requires b.bridgeID !in bridges && b.bridgeID != ""
    requires IsReport(phones, bridges, bridges[b.bridgeID := b], joined)
    requires IsReport(phones, bridges[b.bridgeID := b], bridges[b.bridgeID := b] - {b.bridgeID}, left)
    ensures bridges[b.bridgeID := b] - {b.bridgeID} == bridges
    ensures |joined| == |left|
    ensures forall i :: 0 <= i < |joined| ==> UndoneIn(bridges, joined[i], left)
    ensures PhonesOf(joined) == PhonesOf(left)
  {
    var with := bridges[b.bridgeID := b];
    assert with - {b.bridgeID} == bridges;
    assert b !in bridges.Values by {
      assert forall id :: id in bridges ==> bridges[id] != b;
    }
    forall i | 0 <= i < |joined| ensures UndoneIn(bridges, joined[i], left) {
      LeaveUndoesJoin(phones, bridges, b, joined, left, i);
    }
    ReportPhones(phones, bridges, with, joined);
    ReportPhones(phones, with, bridges, left);
    assert PhonesOf(joined) == PhonesOf(left);
    PhonesOfCount(joined);
    PhonesOfCount(left);
  }

  lemma LeaveUndoesJoin(phones: set<Connection>, bridges: Bridges, b: Connection,
                        joined: seq<TargetChange>, left: seq<TargetChange>, i: nat)
    requires Keyed(bridges) && b !in bridges.Values && b.bridgeID !in bridges && b.bridgeID != ""
    requires IsReport(phones, bridges, bridges[b.bridgeID := b], joined) && i < |joined|
    requires IsReport(phones, bridges[b.bridgeID := b], bridges, left)
    ensures UndoneIn(bridges, joined[i], left)
  {
    FreshJoinIsNotStale(bridges, b);
    JoinIsMinimal(bridges, b);
    var p := joined[i].phone;
    var j :| 0 <= j < |left| && left[j].phone == p;
    assert Undoes(bridges, joined[i], left[j]);
  }

  ghost predicate UndoneIn(bridges: Bridges, there: TargetChange, left: seq<TargetChange>)
    requires Keyed(bridges)
  {
    exists j :: 0 <= j < |left| && Undoes(bridges, there, left[j])
  }

  /** `back` takes the phone of `there` from the bridge it moved to, now gone,
      back to its original target, still known by `there` if it had one. */
  ghost predicate Undoes(bridges: Bridges, there: TargetChange, back: TargetChange)
    requires Keyed(bridges)
  {
    && back.phone == there.phone
    && there.next.Some? && back.previousBridgeID == there.next.value.bridgeID
    && back.previous == None
    && back.next == there.previous == Target(bridges, there.phone.bridgeID)
  }

  /** The phones of an exact report are the registered phones that moved. */
  lemma ReportPhones(phones: set<Connection>, before: Bridges, after: Bridges, r: seq<TargetChange>)
    requires Keyed(before) && Keyed(after) && IsReport(phones, before, after, r)
    ensures PhonesOf(r) == set p | p in phones && Moved(before, after, p.bridgeID)
  {
  }

  lemma PhonesOfMore(changes: seq<TargetChange>, n: nat)
    requires 0 < n <= |changes|
    requires forall i, j :: 0 <= i < j < |changes| ==> changes[i].phone != changes[j].phone
    ensures PhonesOf(changes[..n]) == PhonesOf(changes[..n - 1]) + {changes[n - 1].phone}
    ensures changes[n - 1].phone !in PhonesOf(changes[..n - 1])
  {
    var few, more := changes[..n - 1], changes[..n];
    assert forall i :: 0 <= i < n - 1 ==> few[i] == changes[i];
    assert forall i :: 0 <= i < n ==> more[i] == changes[i];
    forall p | p in PhonesOf(few) ensures p in PhonesOf(more) {
      var i :| 0 <= i < |few| && few[i].phone == p;
      assert more[i].phone == p;
    }
    assert more[n - 1].phone == changes[n - 1].phone;
  }

  lemma {:induction false} PhonesOfCount(r: seq<TargetChange>)
    requires forall i, j :: 0 <= i < j < |r| ==> r[i].phone != r[j].phone
    ensures |PhonesOf(r)| == |r|
  {
    if r != [] {
      var n := |r| - 1;
      PhonesOfCount(r[..n]);
      PhonesOfMore(r, n + 1);
      assert r[..n + 1] == r;
    }
  }
}
