/** What each phone is sent, message by message, as bridges come and go in a
    serial run. */
module SerialNotices {
  import opened Connections
  import opened Routing
  import opened Groups
  import opened Announcements
  import opened Views
  import opened Notices
  import opened Relay
  import opened RelayRuns
  import opened SerialRuns

  lemma HeardAfter(log: Log, log': Log, before: Bridges, after: Bridges, phones: Phones, changes: seq<TargetChange>,
                   everyone: seq<Connection>, id: string, online: bool, p: Connection)
    requires Keyed(before) && Keyed(after) && PhonesKeyed(phones) && Distinct(after, phones)
    requires IsReport(phones.Values, before, after, changes) && Lists(everyone, phones) && Registered(phones, p)
    requires log' == log + ReportNotices(changes) + PresenceNotices(everyone, id, online)
    ensures Inbox(log', p.handle) == Inbox(log, p.handle)
      + (if Moved(before, after, p.bridgeID) then [MoveNotice(before, after, p.bridgeID)] else [])
      + [Presence(id, online)]
  {
    PhoneHears(before, after, phones, changes, everyone, id, online, p);
    NewsInbox(log, ReportNotices(changes), PresenceNotices(everyone, id, online), p.handle);
  }

  lemma NewsInbox(log: Log, report: Log, presence: Log, h: nat)
    ensures Inbox(log + report + presence, h) == Inbox(log, h) + Inbox(report + presence, h)
  {
    assert log + report + presence == log + (report + presence);
    InboxAppend(log, report + presence, h);
  }

  /** The account a join finds, and its group afterwards. */
  lemma JoinedGroup(w: World, op: Op, v: World)
    requires Inv(w) && Inv(v) && op.JoinBridge? && BridgeJoins(w, op, v)
    requires Home(w.relay, op.user).RoomForBridge(op.bridgeID)
    ensures var g, b := Home(w.relay, op.user), NewConnection(op.h, op.bridgeID, op.now);
      && op.bridgeID != "" && g.Valid() && g.WithBridge(b).Valid()
      && Distinct(g.WithBridge(b).bridges, g.phones) && b !in g.bridges.Values
  {
    var g, b := Home(w.relay, op.user), NewConnection(op.h, op.bridgeID, op.now);
    ArrivalEffect(w.relay, op.h, op.ip, op.user, Bridge, op.bridgeID, op.requested, op.now);
    AddBridgeEffect(w.relay, op.h, op.ip, op.user, op.bridgeID, op.requested, op.now);
    HomeOk(w.relay, op.user);
    JoinBridgeKeepsValid(g, b);
    FreshNotMember(w.relay, op.h, op.user, b);
    var k := HomeIndex(w.relay, op.user);
    assert v.relay.groups[k] == g.WithBridge(b) && GroupOk(v.relay, k);
    MembersDistinct(v.relay, k);
  }

  /** In every serial run, when a bridge joins, each phone of the account is
      sent exactly this: the bridge it now talks to, if that changed, and never
      that it lost one; then that the joining bridge is online. */
  lemma PhonesHearJoin(limit: int, ops: seq<Op>, worlds: seq<World>, n: nat, p: Connection)
    requires SerialRun(limit, ops, worlds) && n < |ops| && ops[n].JoinBridge?
    requires var op, g := ops[n], Home(worlds[n].relay, ops[n].user);
      Registered(g.phones, p) && (op.bridgeID in g.bridges || |g.bridges| <= 9)
    ensures var op, g := ops[n], Home(worlds[n].relay, ops[n].user);
      var after := g.bridges[op.bridgeID := Connection(op.h, 0, op.bridgeID, op.now)];
      && Keyed(g.bridges) && Keyed(after)
      && (Moved(g.bridges, after, p.bridgeID) ==> Target(after, p.bridgeID).Some?)
      && Inbox(worlds[n + 1].log, p.handle) == Inbox(worlds[n].log, p.handle)
         + (if Moved(g.bridges, after, p.bridgeID)
            then [BridgeConnected(Target(after, p.bridgeID).value.bridgeID)] else [])
         + [Presence(op.bridgeID, true)]
  {
    var w, op, v := worlds[n], ops[n], worlds[n + 1];
    var g, b := Home(w.relay, op.user), NewConnection(op.h, op.bridgeID, op.now);
    RunKeepsInv(limit, ops, worlds, n);
    RunKeepsInv(limit, ops, worlds, n + 1);
    assert Step(w, op, v);
    JoinedGroup(w, op, v);
    HeardAfter(w.log, v.log, g.bridges, g.WithBridge(b).bridges, g.phones, op.changes, op.everyone,
               op.bridgeID, true, p);
    JoinLeavesNobodyAlone(g.bridges, b, p.bridgeID);
  }

  lemma JoinLeavesNobodyAlone(bridges: Bridges, b: Connection, pin: string)
    requires Keyed(bridges) && Keyed(bridges[b.bridgeID := b])
    ensures Moved(bridges, bridges[b.bridgeID := b], pin) ==> Target(bridges[b.bridgeID := b], pin).Some?
  {
    assert b.bridgeID in bridges[b.bridgeID := b];
  }

  /** When a current bridge leaves, each phone of its account is sent the bridge
      it talks to next, or that it has none, if that changed; then that the
      leaving bridge is offline. */
  lemma PhonesHearLeave(limit: int, ops: seq<Op>, worlds: seq<World>, n: nat, p: Connection)
    requires SerialRun(limit, ops, worlds) && n < |ops| && ops[n].LeaveBridge?
    requires Enabled(worlds[n].relay, RemoveBridge(ops[n].h))
    requires var s, h := worlds[n].relay, ops[n].h; var g := s.groups[s.handlers[h].phase.group];
      Current(g.bridges, s.handlers[h].phase.conn) && Registered(g.phones, p)
    ensures var s, h := worlds[n].relay, ops[n].h;
      var g, id := s.groups[s.handlers[h].phase.group], s.handlers[h].phase.conn.bridgeID;
      var after := g.bridges - {id};
      && Keyed(g.bridges) && Keyed(after)
      && Inbox(worlds[n + 1].log, p.handle) == Inbox(worlds[n].log, p.handle)
         + (if Target(g.bridges, p.bridgeID) != Target(after, p.bridgeID)
            then [if Target(after, p.bridgeID).Some? then BridgeConnected(Target(after, p.bridgeID).value.bridgeID)
                  else BridgeDisconnected(id)]
            else [])
         + [Presence(id, false)]
  {
    var w, op, v := worlds[n], ops[n], worlds[n + 1];
    var s, h := w.relay, op.h;
    var k, b := s.handlers[h].phase.group, s.handlers[h].phase.conn;
    var g := s.groups[k];
    RunKeepsInv(limit, ops, worlds, n);
    assert Step(w, op, v) && GroupOk(s, k) && HandlerOk(s, h);
    LeaveIsNoticed(s, h);
    MembersDistinct(s, k);
    HeardAfter(w.log, v.log, g.bridges, g.WithoutBridge(b.bridgeID).bridges, g.phones, op.changes, op.everyone,
               b.bridgeID, false, p);
    LeaveIsMinimal(g.bridges, b, p.bridgeID);
  }
}
