/** One whole join or leave of a group, announcements included, keeps every
    peer's picture of targets and presence right. */
module GroupViews {
  import opened Connections
  import opened Routing
  import opened Groups
  import opened Announcements
  import opened Views

  /** Every current bridge knows exactly the phones that talk to it, every
      phone knows its target, and what phones know of presence is true. */
  ghost predicate ViewOk(g: Group, log: Log) {
    && Keyed(g.bridges)
    && Agrees(g.bridges, g.phones, TargetTable(g.bridges, g.phones), log)
    && PresenceAgrees(g.bridges, g.phones, log)
  }

  /** The phone's last target notice says it has no bridge, and a pinned phone
      is told which bridge it waits for. */
  predicate ToldNoBridge(p: Connection, log: Log) {
    && TargetNotice(log, p.handle).Some?
    && TargetNotice(log, p.handle).value.BridgeDisconnected?
    && (p.bridgeID != "" ==> TargetNotice(log, p.handle).value.bridgeID == p.bridgeID)
  }

  /** What agreement means, said about the group itself. */
  lemma ViewMeans(g: Group, log: Log)
    requires g.Valid() && ViewOk(g, log)
    ensures forall b :: Current(g.bridges, b) ==>
      && CleanFor(log, b.handle)
      && BridgeView(log, b.handle) == set p | p in g.PhonesTargeting(b) :: p.connID
    ensures forall p :: Registered(g.phones, p) ==>
      match g.BridgeForPhone(p)
      case Some(b) => TargetNotice(log, p.handle) == Some(BridgeConnected(b.bridgeID))
      case None => ToldNoBridge(p, log)
    ensures forall p, id :: Registered(g.phones, p) && LastPresence(log, p.handle, id).Some? ==>
      LastPresence(log, p.handle, id).value == (id in g.bridges)
  {
    forall b | Current(g.bridges, b)
      ensures CleanFor(log, b.handle)
      ensures BridgeView(log, b.handle) == set p | p in g.PhonesTargeting(b) :: p.connID
    {
      assert BridgeAgrees(g.bridges[b.bridgeID], TargetTable(g.bridges, g.phones), log);
      forall c | c in BridgeView(log, b.handle) ensures c in set p | p in g.PhonesTargeting(b) :: p.connID {
        assert g.phones[c] in g.PhonesTargeting(b);
      }
    }
    forall p | Registered(g.phones, p)
      ensures PhoneAgrees(p, Target(g.bridges, p.bridgeID), log)
      ensures forall id :: PresenceOf(p, id, id in g.bridges, log)
    {
      assert PhoneAgrees(g.phones[p.connID], TargetTable(g.bridges, g.phones)[p.connID], log);
    }
  }

  ghost predicate UnseenBy(more: Log, g: Group) {
    && (forall id, i :: id in g.bridges && 0 <= i < |more| ==> more[i].to != g.bridges[id].handle)
    && (forall c, i :: c in g.phones && 0 <= i < |more| ==> more[i].to != g.phones[c].handle)
  }

  /** Messages to others do not disturb a group. */
  lemma OthersUndisturbed(g: Group, log: Log, more: Log)
    requires ViewOk(g, log) && UnseenBy(more, g)
    ensures ViewOk(g, log + more)
  {
    var routes := TargetTable(g.bridges, g.phones);
    forall id | id in g.bridges ensures BridgeAgrees(g.bridges[id], routes, log + more) {
      assert BridgeAgrees(g.bridges[id], routes, log);
      OthersUnseen(log, more, g.bridges[id].handle);
    }
    forall c | c in g.phones ensures PhoneAgrees(g.phones[c], routes[c], log + more) {
      assert PhoneAgrees(g.phones[c], routes[c], log);
      OthersUnseen(log, more, g.phones[c].handle);
    }
    forall c, id | c in g.phones ensures PresenceOf(g.phones[c], id, id in g.bridges, log + more) {
      assert PresenceOf(g.phones[c], id, id in g.bridges, log);
      OthersUnseen(log, more, g.phones[c].handle);
    }
  }

  /** Presence notices leave the routing pictures alone. */
  lemma PresenceKeepsRoutes(bridges: Bridges, phones: Phones, routes: Routes, log: Log,
                            everyone: seq<Connection>, id: string, online: bool)
    requires Agrees(bridges, phones, routes, log)
    ensures Agrees(bridges, phones, routes, log + PresenceNotices(everyone, id, online))
  {
    var log' := log + PresenceNotices(everyone, id, online);
    forall i | i in bridges ensures BridgeAgrees(bridges[i], routes, log') {
      assert BridgeAgrees(bridges[i], routes, log);
      PresenceEffect(log, everyone, id, online, bridges[i].handle);
    }
    forall c | c in phones ensures PhoneAgrees(phones[c], routes[c], log') {
      assert PhoneAgrees(phones[c], routes[c], log);
      PresenceEffect(log, everyone, id, online, phones[c].handle);
    }
  }

  /** Telling every phone that `id` is now live or gone, when nothing else
      changed, makes presence right again. */
  lemma PresenceRestored(before: Bridges, after: Bridges, phones: Phones, log: Log,
                         everyone: seq<Connection>, id: string, online: bool)
    requires PresenceAgrees(before, phones, log) && PhonesKeyed(phones) && Lists(everyone, phones)
    requires id in after <==> online
    requires forall i :: i != id ==> (i in after <==> i in before)
    ensures PresenceAgrees(after, phones, log + PresenceNotices(everyone, id, online))
  {
    forall c, i | c in phones
      ensures PresenceOf(phones[c], i, i in after, log + PresenceNotices(everyone, id, online))
    {
      assert PresenceOf(phones[c], i, i in before, log);
      assert phones[c] in everyone;
      PresenceEffect(log, everyone, id, online, phones[c].handle);
    }
  }

  /** Messages that are no presence notices leave presence alone. */
  lemma {:induction false} NoPresence(log: Log, more: Log, x: nat, id: string)
    requires forall i :: 0 <= i < |more| ==> !more[i].message.Presence?
    ensures LastPresence(log + more, x, id) == LastPresence(log, x, id)
    decreases |more|
  {
    if more == [] {
      assert log + more == log;
    } else {
      var n := |more| - 1;
      NoPresence(log, more[..n], x, id);
      assert log + more == (log + more[..n]) + [more[n]];
      OneMore(log + more[..n], more[n]);
    }
  }

  lemma NotPresent(bridges: Bridges, phones: Phones, log: Log, more: Log)
    requires PresenceAgrees(bridges, phones, log)
    requires forall i :: 0 <= i < |more| ==> !more[i].message.Presence?
    ensures PresenceAgrees(bridges, phones, log + more)
  {
    forall c, id | c in phones ensures PresenceOf(phones[c], id, id in bridges, log + more) {
      assert PresenceOf(phones[c], id, id in bridges, log);
      NoPresence(log, more, phones[c].handle, id);
    }
  }

  lemma {:induction false} ReportHasNoPresence(changes: seq<TargetChange>)
    ensures forall i :: 0 <= i < |ReportNotices(changes)| ==> !ReportNotices(changes)[i].message.Presence?
    decreases |changes|
  {
    if changes != [] { ReportHasNoPresence(changes[..|changes| - 1]); }
  }

  /** Handles never written to, so a fresh connection starts with no picture. */
  ghost predicate Unwritten(log: Log, h: nat) {
    forall i :: 0 <= i < |log| ==> log[i].to != h
  }

  lemma BridgeChangeViews(before: Bridges, after: Bridges, phones: Phones, log: Log,
                          changes: seq<TargetChange>, everyone: seq<Connection>, id: string, online: bool)
    requires Keyed(before) && Keyed(after) && PhonesKeyed(phones) && Distinct(after, phones)
    requires Agrees(after, phones, TargetTable(before, phones), log) && PresenceAgrees(before, phones, log)
    requires IsReport(phones.Values, before, after, changes) && Lists(everyone, phones)
    requires (id in after <==> online) && forall i :: i != id ==> (i in after <==> i in before)
    ensures var log' := log + ReportNotices(changes) + PresenceNotices(everyone, id, online);
      Agrees(after, phones, TargetTable(after, phones), log') && PresenceAgrees(after, phones, log')
  {
    WholeReportAgrees(before, after, phones, changes, log);
    ReportHasNoPresence(changes);
    NotPresent(before, phones, log, ReportNotices(changes));
    PresenceKeepsRoutes(after, phones, TargetTable(after, phones), log + ReportNotices(changes), everyone, id, online);
    PresenceRestored(before, after, phones, log + ReportNotices(changes), everyone, id, online);
  }

  lemma JoinBridgeViews(g: Group, b: Connection, log: Log, changes: seq<TargetChange>, everyone: seq<Connection>)
    requires g.Valid() && g.WithBridge(b).Valid() && ViewOk(g, log) && Unwritten(log, b.handle)
    requires b !in g.bridges.Values && Distinct(g.WithBridge(b).bridges, g.phones)
    requires IsReport(g.phones.Values, g.bridges, g.WithBridge(b).bridges, changes) && Lists(everyone, g.phones)
    ensures ViewOk(g.WithBridge(b), log + ReportNotices(changes) + PresenceNotices(everyone, b.bridgeID, true))
  {
    var after := g.WithBridge(b).bridges;
    assert forall id :: id in after && id != b.bridgeID ==> Current(g.bridges, after[id]);
    OldTableAgrees(g.bridges, after, g.phones, log);
    BridgeChangeViews(g.bridges, after, g.phones, log, changes, everyone, b.bridgeID, true);
  }

  lemma LeaveBridgeViews(g: Group, b: Connection, log: Log, changes: seq<TargetChange>, everyone: seq<Connection>)
    requires g.Valid() && g.WithoutBridge(b.bridgeID).Valid() && ViewOk(g, log)
    requires Current(g.bridges, b) && Distinct(g.bridges, g.phones)
    requires IsReport(g.phones.Values, g.bridges, g.WithoutBridge(b.bridgeID).bridges, changes)
    requires Lists(everyone, g.phones)
    ensures ViewOk(g.WithoutBridge(b.bridgeID),
                   log + ReportNotices(changes) + PresenceNotices(everyone, b.bridgeID, false))
  {
    var after := g.WithoutBridge(b.bridgeID).bridges;
    assert forall id :: id in after ==> Current(g.bridges, after[id]);
    OldTableAgrees(g.bridges, after, g.phones, log);
    BridgeChangeViews(g.bridges, after, g.phones, log, changes, everyone, b.bridgeID, false);
  }

  lemma JoinPhoneViews(g: Group, p: Connection, log: Log)
    requires g.Valid() && g.RoomForPhone() && ViewOk(g, log) && Unwritten(log, p.handle)
    requires Distinct(g.bridges, g.WithPhone(p).phones)
    ensures ViewOk(g.WithPhone(p), log + JoinNotices(g.Admit(p), Target(g.bridges, p.bridgeID)))
  {
    var r := g.Admit(p);
    PhoneJoinAgrees(g.bridges, g.phones, r, log);
    var more := JoinNotices(r, Target(g.bridges, p.bridgeID));
    forall c, id | c in g.WithPhone(p).phones ensures PresenceOf(g.WithPhone(p).phones[c], id, id in g.bridges, log) {
      if c == r.connID { NeverSent(log, p.handle); } else { assert PresenceOf(g.phones[c], id, id in g.bridges, log); }
    }
    NotPresent(g.bridges, g.WithPhone(p).phones, log, more);
  }

  lemma LeavePhoneViews(g: Group, p: Connection, log: Log)
    requires g.Valid() && Registered(g.phones, p) && ViewOk(g, log) && Distinct(g.bridges, g.phones)
    ensures ViewOk(g.WithoutPhone(p.connID), log + LeaveNotices(p, Target(g.bridges, p.bridgeID)))
  {
    PhoneLeaveAgrees(g.bridges, g.phones, p, log);
    var rest := g.phones - {p.connID};
    forall c, id | c in rest ensures PresenceOf(rest[c], id, id in g.bridges, log) {
      assert PresenceOf(g.phones[c], id, id in g.bridges, log);
    }
    NotPresent(g.bridges, rest, log, LeaveNotices(p, Target(g.bridges, p.bridgeID)));
  }
}
