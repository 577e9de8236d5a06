/** Replaying the control messages of one join or leave moves every peer's
    picture from the old targets to the new ones. */
module Views {
  import opened Connections
  import opened Routing
  import opened Announcements

  /** The effect of one change's messages on any peer `x`. */
  lemma ChangeEffect(log: Log, ch: TargetChange, x: nat)
    requires ch.previous.Some? ==> ch.previous.value.handle != ch.phone.handle
    requires ch.next.Some? ==> ch.next.value.handle != ch.phone.handle
    requires ch.previous.Some? && ch.next.Some? ==> ch.previous.value.handle != ch.next.value.handle
    ensures var c := ch.phone.connID; var view := BridgeView(log, x); var log' := log + ChangeNotices(ch);
      var loses := ch.previous.Some? && ch.previous.value.handle == x;
      var gains := ch.next.Some? && ch.next.value.handle == x;
      && BridgeView(log', x) == (if loses then view - {c} else if gains then view + {c} else view)
      && CleanFor(log', x) == (CleanFor(log, x) && (loses ==> c in view) && (gains ==> c !in view))
      && TargetNotice(log', x) ==
         (if x != ch.phone.handle then TargetNotice(log, x)
          else if ch.next.Some? then Some(BridgeConnected(ch.next.value.bridgeID))
          else Some(BridgeDisconnected(ch.previousBridgeID)))
      && forall id :: LastPresence(log', x, id) == LastPresence(log, x, id)
  {
    var c := ch.phone.connID;
    var l1 := if ch.previous.Some? then log + [Sent(ch.previous.value.handle, PhoneDisconnected(c))] else log;
    if ch.previous.Some? { Announce(log, ch.previous.value.handle, PhoneDisconnected(c)); }
    if ch.next.None? {
      Announce(l1, ch.phone.handle, BridgeDisconnected(ch.previousBridgeID));
      assert log + ChangeNotices(ch) == l1 + [Sent(ch.phone.handle, BridgeDisconnected(ch.previousBridgeID))];
    } else {
      var b := ch.next.value;
      var l2 := l1 + [Sent(ch.phone.handle, BridgeConnected(b.bridgeID))];
      Announce(l1, ch.phone.handle, BridgeConnected(b.bridgeID));
      Announce(l2, b.handle, PhoneConnected(c));
      assert log + ChangeNotices(ch) == l2 + [Sent(b.handle, PhoneConnected(c))];
    }
  }

  /** `ch` takes its phone off the route it has in the table. */
  ghost predicate Follows(bridges: Bridges, phones: Phones, routes: Routes, ch: TargetChange) {
    && Registered(phones, ch.phone) && ch.phone.connID in routes
    && var was := routes[ch.phone.connID];
    && ch.next != was
    && (ch.next.Some? ==> Current(bridges, ch.next.value))
    && ch.previous == (if was.Some? && Current(bridges, was.value) then was else None)
    && (ch.next.None? && ch.phone.bridgeID != "" ==> ch.previousBridgeID == ch.phone.bridgeID)
  }

  lemma ChangeAgrees(bridges: Bridges, phones: Phones, routes: Routes, log: Log, ch: TargetChange)
    requires Keyed(bridges) && PhonesKeyed(phones) && Distinct(bridges, phones)
    requires Agrees(bridges, phones, routes, log) && Follows(bridges, phones, routes, ch)
    ensures Agrees(bridges, phones, routes[ch.phone.connID := ch.next], log + ChangeNotices(ch))
  {
    var c := ch.phone.connID;
    var routes', log' := routes[c := ch.next], log + ChangeNotices(ch);
    forall id | id in bridges ensures BridgeAgrees(bridges[id], routes', log') {
      assert BridgeAgrees(bridges[id], routes, log);
      ChangeEffect(log, ch, bridges[id].handle);
    }
    forall d | d in phones ensures PhoneAgrees(phones[d], routes'[d], log') {
      assert PhoneAgrees(phones[d], routes[d], log);
      ChangeEffect(log, ch, phones[d].handle);
    }
    assert routes'.Keys == phones.Keys;
  }

  /** The routing table of a group. */
  ghost function TargetTable(bridges: Bridges, phones: Phones): Routes
    requires Keyed(bridges)
  {
    map c | c in phones :: Target(bridges, phones[c].bridgeID)
  }

  /** The table after the first `changes` of a report. */
  ghost function Partly(before: Bridges, after: Bridges, phones: Phones, changes: seq<TargetChange>): Routes
    requires Keyed(before) && Keyed(after)
  {
    map c | c in phones ::
      Target(if phones[c] in PhonesOf(changes) then after else before, phones[c].bridgeID)
  }

  /** The next change of a report follows the table its predecessors made. */
  lemma NextFollows(before: Bridges, after: Bridges, phones: Phones, changes: seq<TargetChange>, n: nat)
    requires Keyed(before) && Keyed(after) && PhonesKeyed(phones)
    requires IsReport(phones.Values, before, after, changes) && n < |changes|
    ensures Follows(after, phones, Partly(before, after, phones, changes[..n]), changes[n])
  {
    PhonesOfMore(changes, n + 1);
    var ch := changes[n];
    assert ch.phone in phones.Values && Describes(before, after, ch) && Moved(before, after, ch.phone.bridgeID);
    assert Registered(phones, ch.phone);
  }

  lemma NextTable(before: Bridges, after: Bridges, phones: Phones, changes: seq<TargetChange>, n: nat)
    requires Keyed(before) && Keyed(after) && PhonesKeyed(phones)
    requires n < |changes| && Registered(phones, changes[n].phone)
    requires forall i, j :: 0 <= i < j < |changes| ==> changes[i].phone != changes[j].phone
    requires changes[n].next == Target(after, changes[n].phone.bridgeID)
    ensures Partly(before, after, phones, changes[..n])[changes[n].phone.connID := changes[n].next]
            == Partly(before, after, phones, changes[..n + 1])
  {
    PhonesOfMore(changes, n + 1);
  }

  ghost function TableAt(before: Bridges, after: Bridges, phones: Phones, changes: seq<TargetChange>, n: nat): Routes
    requires Keyed(before) && Keyed(after) && n <= |changes|
  {
    Partly(before, after, phones, changes[..n])
  }

  /** The changes lead from table to table, each following the one before. */
  ghost predicate Chain(before: Bridges, after: Bridges, phones: Phones, changes: seq<TargetChange>)
    requires Keyed(before) && Keyed(after)
  {
    forall n :: 0 <= n < |changes| ==> Link(before, after, phones, changes, n)
  }

  ghost predicate Link(before: Bridges, after: Bridges, phones: Phones, changes: seq<TargetChange>, n: nat)
    requires Keyed(before) && Keyed(after) && n < |changes|
  {
    && Follows(after, phones, TableAt(before, after, phones, changes, n), changes[n])
    && TableAt(before, after, phones, changes, n + 1)
       == TableAt(before, after, phones, changes, n)[changes[n].phone.connID := changes[n].next]
  }

  lemma {:induction false} ChainAgrees(before: Bridges, after: Bridges, phones: Phones,
                                       changes: seq<TargetChange>, n: nat, log: Log)
    requires Keyed(before) && Keyed(after) && PhonesKeyed(phones) && Distinct(after, phones)
    requires Chain(before, after, phones, changes) && n <= |changes|
    requires Agrees(after, phones, TableAt(before, after, phones, changes, 0), log)
    ensures Agrees(after, phones, TableAt(before, after, phones, changes, n), log + ReportNotices(changes[..n]))
    decreases n
  {
    if n == 0 {
      assert log + ReportNotices(changes[..0]) == log;
    } else {
      ChainAgrees(before, after, phones, changes, n - 1, log);
      assert Link(before, after, phones, changes, n - 1);
      ChangeAgrees(after, phones, TableAt(before, after, phones, changes, n - 1),
                   log + ReportNotices(changes[..n - 1]), changes[n - 1]);
      NoticesMore(changes, n, log);
    }
  }

  lemma NoticesMore(changes: seq<TargetChange>, n: nat, log: Log)
    requires 0 < n <= |changes|
    ensures log + ReportNotices(changes[..n]) == log + ReportNotices(changes[..n - 1]) + ChangeNotices(changes[n - 1])
  {
    assert changes[..n][..n - 1] == changes[..n - 1];
  }

  lemma FullTable(before: Bridges, after: Bridges, phones: Phones, changes: seq<TargetChange>)
    requires Keyed(before) && Keyed(after) && IsReport(phones.Values, before, after, changes)
    ensures Partly(before, after, phones, changes) == TargetTable(after, phones)
  {
    forall c | c in phones
      ensures Target(if phones[c] in PhonesOf(changes) then after else before, phones[c].bridgeID)
              == Target(after, phones[c].bridgeID)
    {
      assert phones[c] in phones.Values;
    }
  }

  lemma ReportLink(before: Bridges, after: Bridges, phones: Phones, changes: seq<TargetChange>, n: nat)
    requires Keyed(before) && Keyed(after) && PhonesKeyed(phones)
    requires IsReport(phones.Values, before, after, changes) && n < |changes|
    ensures Link(before, after, phones, changes, n)
  {
    NextFollows(before, after, phones, changes, n);
    NextTable(before, after, phones, changes, n);
  }

  lemma ReportChain(before: Bridges, after: Bridges, phones: Phones, changes: seq<TargetChange>)
    requires Keyed(before) && Keyed(after) && PhonesKeyed(phones)
    requires IsReport(phones.Values, before, after, changes)
    ensures Chain(before, after, phones, changes)
  {
    forall n | 0 <= n < |changes| ensures Link(before, after, phones, changes, n) {
      ReportLink(before, after, phones, changes, n);
    }
  }

  lemma ChainEnds(before: Bridges, after: Bridges, phones: Phones, changes: seq<TargetChange>)
    requires Keyed(before) && Keyed(after) && IsReport(phones.Values, before, after, changes)
    ensures TableAt(before, after, phones, changes, 0) == TargetTable(before, phones)
    ensures TableAt(before, after, phones, changes, |changes|) == TargetTable(after, phones)
  {
    assert changes[..|changes|] == changes;
    FullTable(before, after, phones, changes);
  }

  /** Replaying a whole report brings every picture to the new targets. */
  lemma WholeReportAgrees(before: Bridges, after: Bridges, phones: Phones, changes: seq<TargetChange>, log: Log)
    requires Keyed(before) && Keyed(after) && PhonesKeyed(phones) && Distinct(after, phones)
    requires IsReport(phones.Values, before, after, changes)
    requires Agrees(after, phones, TargetTable(before, phones), log)
    ensures Agrees(after, phones, TargetTable(after, phones), log + ReportNotices(changes))
  {
    ReportChain(before, after, phones, changes);
    ChainEnds(before, after, phones, changes);
    ChainAgrees(before, after, phones, changes, |changes|, log);
    assert changes[..|changes|] == changes;
  }

  /** Before a join is announced the joining bridge, never written to, has the
      empty picture it should have; a leave only takes a bridge away. */
  lemma OldTableAgrees(before: Bridges, after: Bridges, phones: Phones, log: Log)
    requires Keyed(before) && Keyed(after)
    requires Agrees(before, phones, TargetTable(before, phones), log)
    requires forall id :: id in after ==>
      Current(before, after[id]) || forall i :: 0 <= i < |log| ==> log[i].to != after[id].handle
    requires forall id :: id in after && !Current(before, after[id]) ==>
      forall x :: x in before ==> before[x] != after[id]
    ensures Agrees(after, phones, TargetTable(before, phones), log)
  {
    var routes := TargetTable(before, phones);
    forall id | id in after ensures BridgeAgrees(after[id], routes, log) {
      if Current(before, after[id]) {
        assert BridgeAgrees(before[id], routes, log);
      } else {
        NeverSent(log, after[id].handle);
      }
    }
  }

  lemma JoinEffect(log: Log, p: Connection, target: Option<Connection>, x: nat)
    requires target.Some? ==> target.value.handle != p.handle
    ensures var log' := log + JoinNotices(p, target); var view := BridgeView(log, x);
      var gains := target.Some? && target.value.handle == x;
      && BridgeView(log', x) == (if gains then view + {p.connID} else view)
      && CleanFor(log', x) == (CleanFor(log, x) && (gains ==> p.connID !in view))
      && TargetNotice(log', x) ==
         (if x != p.handle then TargetNotice(log, x)
          else if target.Some? then Some(BridgeConnected(target.value.bridgeID))
          else Some(BridgeDisconnected(p.bridgeID)))
      && forall id :: LastPresence(log', x, id) == LastPresence(log, x, id)
  {
    match target {
      case None => Announce(log, p.handle, BridgeDisconnected(p.bridgeID));
      case Some(b) =>
        var l1 := log + [Sent(b.handle, PhoneConnected(p.connID))];
        Announce(log, b.handle, PhoneConnected(p.connID));
        Announce(l1, p.handle, BridgeConnected(b.bridgeID));
        assert log + JoinNotices(p, target) == l1 + [Sent(p.handle, BridgeConnected(b.bridgeID))];
    }
  }

  /** A phone's join under a fresh connId keeps every picture right. */
  lemma PhoneJoinAgrees(bridges: Bridges, phones: Phones, p: Connection, log: Log)
    requires Keyed(bridges) && PhonesKeyed(phones) && p.connID !in phones
    requires Distinct(bridges, phones[p.connID := p])
    requires Agrees(bridges, phones, TargetTable(bridges, phones), log)
    ensures var more := phones[p.connID := p];
      Agrees(bridges, more, TargetTable(bridges, more), log + JoinNotices(p, Target(bridges, p.bridgeID)))
  {
    var more, target := phones[p.connID := p], Target(bridges, p.bridgeID);
    var routes, routes' := TargetTable(bridges, phones), TargetTable(bridges, more);
    var log' := log + JoinNotices(p, target);
    assert more[p.connID] == p;
    assert target.Some? ==> target.value.handle != p.handle;
    forall id | id in bridges ensures BridgeAgrees(bridges[id], routes', log') {
      assert BridgeAgrees(bridges[id], routes, log);
      JoinEffect(log, p, target, bridges[id].handle);
    }
    forall d | d in more ensures PhoneAgrees(more[d], routes'[d], log') {
      assert d in phones ==> PhoneAgrees(phones[d], routes[d], log);
      JoinEffect(log, p, target, more[d].handle);
    }
  }

  /** A phone's leave keeps every other picture right. */
  lemma PhoneLeaveAgrees(bridges: Bridges, phones: Phones, p: Connection, log: Log)
    requires Keyed(bridges) && PhonesKeyed(phones) && Registered(phones, p) && Distinct(bridges, phones)
    requires Agrees(bridges, phones, TargetTable(bridges, phones), log)
    ensures var rest := phones - {p.connID};
      Agrees(bridges, rest, TargetTable(bridges, rest), log + LeaveNotices(p, Target(bridges, p.bridgeID)))
  {
    var rest, target := phones - {p.connID}, Target(bridges, p.bridgeID);
    var routes, routes' := TargetTable(bridges, phones), TargetTable(bridges, rest);
    var log' := log + LeaveNotices(p, target);
    if target.Some? { Announce(log, target.value.handle, PhoneDisconnected(p.connID)); } else { assert log' == log; }
    forall id | id in bridges ensures BridgeAgrees(bridges[id], routes', log') {
      assert BridgeAgrees(bridges[id], routes, log);
    }
    forall d | d in rest ensures PhoneAgrees(rest[d], routes'[d], log') {
      assert PhoneAgrees(phones[d], routes[d], log);
    }
  }

  // ---------- Presence ----------

  /** What phones were last told of a bridge id is whether it is connected. */
  ghost predicate PresenceAgrees(bridges: Bridges, phones: Phones, log: Log) {
    forall c, id :: c in phones ==> PresenceOf(phones[c], id, id in bridges, log)
  }

  ghost predicate PresenceOf(p: Connection, id: string, live: bool, log: Log) {
    LastPresence(log, p.handle, id) in {None, Some(live)}
  }

  /** Every phone of `phones`, each once. */
  ghost predicate Lists(everyone: seq<Connection>, phones: Phones) {
    && (forall p :: p in everyone <==> Registered(phones, p))
    && (forall i, j :: 0 <= i < j < |everyone| ==> everyone[i] != everyone[j])
  }

  lemma {:induction false} PresenceEffect(log: Log, everyone: seq<Connection>, id: string, online: bool, x: nat)
    ensures var log' := log + PresenceNotices(everyone, id, online);
      && BridgeView(log', x) == BridgeView(log, x) && CleanFor(log', x) == CleanFor(log, x)
      && TargetNotice(log', x) == TargetNotice(log, x)
      && (forall i :: i != id ==> LastPresence(log', x, i) == LastPresence(log, x, i))
      && ((exists p :: p in everyone && p.handle == x) ==> LastPresence(log', x, id) == Some(online))
    decreases |everyone|
  {
    if everyone == [] {
      assert log + PresenceNotices(everyone, id, online) == log;
    } else {
      var n := |everyone| - 1;
      PresenceEffect(log, everyone[..n], id, online, x);
      var l1 := log + PresenceNotices(everyone[..n], id, online);
      Announce(l1, everyone[n].handle, Presence(id, online));
      assert log + PresenceNotices(everyone, id, online) == l1 + [Sent(everyone[n].handle, Presence(id, online))];
      assert forall p :: p in everyone ==> p in everyone[..n] || p == everyone[n];
    }
  }
}
