/** Control messages: what the relay writes on a change of targets, and the
    picture each peer builds from what it was sent. */
module Announcements {
  import opened Connections
  import opened Routing

  datatype Message =
    | PhoneConnected(connID: nat)
    | PhoneDisconnected(connID: nat)
    | BridgeConnected(bridgeID: string)
    | BridgeDisconnected(bridgeID: string)
    | Presence(bridgeID: string, online: bool)

  /** One message written to the connection with this handle. */
  datatype Sent = Sent(to: nat, message: Message)

  type Log = seq<Sent>

  /** The messages for one re-targeted phone, in writing order. */
  function ChangeNotices(ch: TargetChange): Log {
    (if ch.previous.Some? then [Sent(ch.previous.value.handle, PhoneDisconnected(ch.phone.connID))] else [])
    + match ch.next
      case None => [Sent(ch.phone.handle, BridgeDisconnected(ch.previousBridgeID))]
      case Some(b) =>
        [Sent(ch.phone.handle, BridgeConnected(b.bridgeID)), Sent(b.handle, PhoneConnected(ch.phone.connID))]
  }

  function ReportNotices(changes: seq<TargetChange>): Log {
    if changes == [] then []
    else ReportNotices(changes[..|changes| - 1]) + ChangeNotices(changes[|changes| - 1])
  }

  function PresenceNotices(phones: seq<Connection>, bridgeID: string, online: bool): Log {
    seq(|phones|, i requires 0 <= i < |phones| => Sent(phones[i].handle, Presence(bridgeID, online)))
  }

  /** What a phone's join and leave write. */
  function JoinNotices(p: Connection, target: Option<Connection>): Log {
    match target
    case Some(b) => [Sent(b.handle, PhoneConnected(p.connID)), Sent(p.handle, BridgeConnected(b.bridgeID))]
    case None => [Sent(p.handle, BridgeDisconnected(p.bridgeID))]
  }

  function LeaveNotices(p: Connection, target: Option<Connection>): Log {
    match target
    case Some(b) => [Sent(b.handle, PhoneDisconnected(p.connID))]
    case None => []
  }

  /** Entry `i` tells the new bridge of `ch`, the entry before tells the phone. */
  ghost predicate NewBridgeTold(log: Log, i: nat, ch: TargetChange)
    requires 0 < i < |log|
  {
    && ch.next.Some?
    && log[i] == Sent(ch.next.value.handle, PhoneConnected(ch.phone.connID))
    && log[i - 1] == Sent(ch.phone.handle, BridgeConnected(ch.next.value.bridgeID))
  }

  /** Entry `i` tells the old bridge of `ch`, the entry after tells the phone. */
  ghost predicate OldBridgeTold(log: Log, i: nat, ch: TargetChange)
    requires i + 1 < |log|
  {
    && ch.previous.Some?
    && log[i] == Sent(ch.previous.value.handle, PhoneDisconnected(ch.phone.connID))
    && log[i + 1] == Sent(ch.phone.handle, if ch.next.Some? then BridgeConnected(ch.next.value.bridgeID)
                                           else BridgeDisconnected(ch.previousBridgeID))
  }

  /** A bridge is told of a phone only right after that phone was told of that
      bridge, and that a phone left only right before that phone hears its new
      target. */
  ghost predicate InOrder(log: Log, changes: seq<TargetChange>) {
    forall i :: 0 <= i < |log| ==>
      && (log[i].message.PhoneConnected? ==> i > 0 && exists ch :: ch in changes && NewBridgeTold(log, i, ch))
      && (log[i].message.PhoneDisconnected? ==>
            i + 1 < |log| && exists ch :: ch in changes && OldBridgeTold(log, i, ch))
  }

  /** Nobody whom a change concerns is left out. */
  ghost predicate EverybodyTold(log: Log, changes: seq<TargetChange>) {
    forall ch :: ch in changes ==>
      && (ch.previous.Some? ==> Sent(ch.previous.value.handle, PhoneDisconnected(ch.phone.connID)) in log)
      && (ch.next.Some? ==> Sent(ch.next.value.handle, PhoneConnected(ch.phone.connID)) in log)
      && (ch.next.Some? ==> Sent(ch.phone.handle, BridgeConnected(ch.next.value.bridgeID)) in log)
      && (ch.next.None? ==> Sent(ch.phone.handle, BridgeDisconnected(ch.previousBridgeID)) in log)
  }

  lemma {:induction false} ReportInOrder(changes: seq<TargetChange>)
    ensures InOrder(ReportNotices(changes), changes) && EverybodyTold(ReportNotices(changes), changes)
  {
    if changes != [] {
      var n := |changes| - 1;
      ReportInOrder(changes[..n]);
      assert changes == changes[..n] + [changes[n]];
      MoreInOrder(ReportNotices(changes[..n]), changes[..n], changes[n]);
    }
  }

  lemma MoreInOrder(log: Log, changes: seq<TargetChange>, ch: TargetChange)
    requires InOrder(log, changes) && EverybodyTold(log, changes)
    ensures InOrder(log + ChangeNotices(ch), changes + [ch])
    ensures EverybodyTold(log + ChangeNotices(ch), changes + [ch])
  {
    var all, more := log + ChangeNotices(ch), changes + [ch];
    assert ch in more && forall x :: x in changes ==> x in more;
    forall i | 0 <= i < |all| && all[i].message.PhoneConnected?
      ensures i > 0 && exists x :: x in more && NewBridgeTold(all, i, x)
    {
      if i < |log| {
        var x :| x in changes && NewBridgeTold(log, i, x);
        assert x in more && NewBridgeTold(all, i, x);
      } else {
        assert NewBridgeTold(all, i, ch);
      }
    }
    forall i | 0 <= i < |all| && all[i].message.PhoneDisconnected?
      ensures i + 1 < |all| && exists x :: x in more && OldBridgeTold(all, i, x)
    {
      if i < |log| {
        var x :| x in changes && OldBridgeTold(log, i, x);
        assert x in more && OldBridgeTold(all, i, x);
      } else {
        assert OldBridgeTold(all, i, ch);
      }
    }
  }

  /** At a phone's join it is the bridge that hears first; and the phone always
      hears something, last and once. */
  lemma JoinTellsBridgeFirst(p: Connection, target: Option<Connection>)
    ensures var log := JoinNotices(p, target);
      && (forall i :: 0 <= i < |log| && log[i].message.BridgeConnected? ==>
            i > 0 && target.Some? && log[i - 1] == Sent(target.value.handle, PhoneConnected(p.connID)))
      && |log| == (if target.Some? then 2 else 1)
      && log[|log| - 1] == Sent(p.handle, if target.Some? then BridgeConnected(target.value.bridgeID)
                                          else BridgeDisconnected(p.bridgeID))
  {
  }

  method AnnounceTargetChanges(changes: seq<TargetChange>) returns (log: Log)
    ensures log == ReportNotices(changes)
    ensures InOrder(log, changes) && EverybodyTold(log, changes)
  {
    log := [];
    for i := 0 to |changes|
      invariant log == ReportNotices(changes[..i])
    {
      var change := changes[i];
      var connID := change.phone.connID;
      ghost var before := log;
      assert changes[..i + 1][..i] == changes[..i];
      if change.previous.Some? {
        log := log + [Sent(change.previous.value.handle, PhoneDisconnected(connID))];
      }
      if change.next.None? {
        log := log + [Sent(change.phone.handle, BridgeDisconnected(change.previousBridgeID))];
        assert log == before + ChangeNotices(change);
        continue;
      }
      log := log + [Sent(change.phone.handle, BridgeConnected(change.next.value.bridgeID))];
      log := log + [Sent(change.next.value.handle, PhoneConnected(connID))];
      assert log == before + ChangeNotices(change);
    }
    assert changes[..|changes|] == changes;
    ReportInOrder(changes);
  }

  method AnnouncePresence(phones: seq<Connection>, bridgeID: string, online: bool) returns (log: Log)
    ensures log == PresenceNotices(phones, bridgeID, online)
  {
    log := [];
    for i := 0 to |phones|
      invariant log == PresenceNotices(phones[..i], bridgeID, online)
    {
      log := log + [Sent(phones[i].handle, Presence(bridgeID, online))];
    }
    assert phones[..|phones|] == phones;
  }

  // ---------- What a peer believes ----------

  function Told(view: set<nat>, m: Message): set<nat> {
    match m
    case PhoneConnected(c) => view + {c}
    case PhoneDisconnected(c) => view - {c}
    case _ => view
  }

  predicate Consistent(view: set<nat>, m: Message) {
    (m.PhoneConnected? ==> m.connID !in view) && (m.PhoneDisconnected? ==> m.connID in view)
  }

  /** The phones a bridge believes it talks to. */
  function BridgeView(log: Log, h: nat): set<nat> {
    if log == [] then {}
    else
      var view, last := BridgeView(log[..|log| - 1], h), log[|log| - 1];
      if last.to == h then Told(view, last.message) else view
  }

  /** No phone was announced twice in a row, none left that was not there. */
  predicate CleanFor(log: Log, h: nat) {
    log == [] ||
    var last := log[|log| - 1];
    && CleanFor(log[..|log| - 1], h)
    && (last.to == h ==> Consistent(BridgeView(log[..|log| - 1], h), last.message))
  }

  /** The last target notice of a phone. */
  function TargetNotice(log: Log, h: nat): Option<Message> {
    if log == [] then None
    else
      var last := log[|log| - 1];
      if last.to == h && (last.message.BridgeConnected? || last.message.BridgeDisconnected?) then Some(last.message)
      else TargetNotice(log[..|log| - 1], h)
  }

  /** The last presence a phone was told of a bridge id. */
  function LastPresence(log: Log, h: nat, bridgeID: string): Option<bool> {
    if log == [] then None
    else
      var last := log[|log| - 1];
      if last.to == h && last.message.Presence? && last.message.bridgeID == bridgeID then Some(last.message.online)
      else LastPresence(log[..|log| - 1], h, bridgeID)
  }

  lemma OneMore(log: Log, m: Sent)
    ensures (log + [m])[..|log|] == log && (log + [m])[|log|] == m
  {
  }

  /** A peer's picture depends only on what was sent to it. */
  lemma {:induction false} OthersUnseen(log: Log, more: Log, h: nat)
    requires forall i :: 0 <= i < |more| ==> more[i].to != h
    ensures BridgeView(log + more, h) == BridgeView(log, h)
    ensures CleanFor(log + more, h) == CleanFor(log, h)
    ensures TargetNotice(log + more, h) == TargetNotice(log, h)
    ensures forall id :: LastPresence(log + more, h, id) == LastPresence(log, h, id)
    decreases |more|
  {
    if more == [] {
      assert log + more == log;
    } else {
      var n := |more| - 1;
      OthersUnseen(log, more[..n], h);
      assert log + more == (log + more[..n]) + [more[n]];
      OneMore(log + more[..n], more[n]);
    }
  }

  lemma {:induction false} NeverSent(log: Log, h: nat)
    requires forall i :: 0 <= i < |log| ==> log[i].to != h
    ensures BridgeView(log, h) == {} && CleanFor(log, h) && TargetNotice(log, h) == None
    ensures forall id :: LastPresence(log, h, id) == None
  {
    assert [] + log == log;
    OthersUnseen([], log, h);
  }

  // ---------- Agreement with a routing table ----------

  type Routes = map<nat, Option<Connection>>

  /** No two connections of a group are the same socket. */
  ghost predicate Distinct(bridges: Bridges, phones: Phones) {
    && (forall i, j :: i in bridges && j in bridges && i != j ==> bridges[i].handle != bridges[j].handle)
    && (forall c, d :: c in phones && d in phones && c != d ==> phones[c].handle != phones[d].handle)
    && (forall i, c :: i in bridges && c in phones ==> bridges[i].handle != phones[c].handle)
  }

  ghost predicate BridgeAgrees(b: Connection, routes: Routes, log: Log) {
    && CleanFor(log, b.handle)
    && (forall c :: c in BridgeView(log, b.handle) <==> c in routes && routes[c] == Some(b))
  }

  /** The phone's last notice names its route; a pinned phone without a bridge
      is told of the bridge it waits for. */
  ghost predicate PhoneAgrees(p: Connection, route: Option<Connection>, log: Log) {
    var notice := TargetNotice(log, p.handle);
    match route
    case Some(b) => notice == Some(BridgeConnected(b.bridgeID))
    case None => notice.Some? && notice.value.BridgeDisconnected?
                 && (p.bridgeID != "" ==> notice.value.bridgeID == p.bridgeID)
  }

  ghost predicate Agrees(bridges: Bridges, phones: Phones, routes: Routes, log: Log) {
    && routes.Keys == phones.Keys
    && (forall id :: id in bridges ==> BridgeAgrees(bridges[id], routes, log))
    && (forall c :: c in phones ==> PhoneAgrees(phones[c], routes[c], log))
  }

  /** One message changes its receiver's picture and nobody else's. */
  lemma Announce(log: Log, h: nat, m: Message)
    ensures BridgeView(log + [Sent(h, m)], h) == Told(BridgeView(log, h), m)
    ensures CleanFor(log + [Sent(h, m)], h) == (CleanFor(log, h) && Consistent(BridgeView(log, h), m))
    ensures TargetNotice(log + [Sent(h, m)], h) ==
            if m.BridgeConnected? || m.BridgeDisconnected? then Some(m) else TargetNotice(log, h)
    ensures forall id ::
      LastPresence(log + [Sent(h, m)], h, id) == LastPresence(log, h, id) || (m.Presence? && m.bridgeID == id)
    ensures m.Presence? ==> LastPresence(log + [Sent(h, m)], h, m.bridgeID) == Some(m.online)
    ensures forall x :: x != h ==>
      && BridgeView(log + [Sent(h, m)], x) == BridgeView(log, x) && CleanFor(log + [Sent(h, m)], x) == CleanFor(log, x)
      && TargetNotice(log + [Sent(h, m)], x) == TargetNotice(log, x)
    ensures forall x, id :: x != h ==> LastPresence(log + [Sent(h, m)], x, id) == LastPresence(log, x, id)
  {
    OneMore(log, Sent(h, m));
  }
}
