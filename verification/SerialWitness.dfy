/** Serial runs are runs of the relay, and their operations can always happen:
    the statements about serial runs are about real and plentiful runs. */
module SerialWitness {
  import opened Connections
  import opened Routing
  import opened Groups
  import opened Announcements
  import opened Views
  import opened Relay
  import opened RelayRuns
  import opened SerialRuns
  import RateLimits

  // ---------- Every serial run is an interleaving ----------

  lemma DepartEvents(s: State, h: nat, t: State) returns (es: seq<Event>)
    requires Departs(s, h, t)
    ensures Legal(s, es) && Run(s, es) == t
  {
    var s1 := Next(s, CheckEmpty(h));
    OneEvent(s, CheckEmpty(h));
    if Enabled(s1, Unregister(h)) {
      Three(s, CheckEmpty(h), Unregister(h), Release(h));
      es := [CheckEmpty(h), Unregister(h), Release(h)];
    } else {
      OneEvent(s1, Release(h));
      RunAppend(s, [CheckEmpty(h)], [Release(h)]);
      es := [CheckEmpty(h)] + [Release(h)];
    }
  }

  lemma ArrivalEvents(s: State, arrival: seq<Event>, h: nat, t: State) returns (es: seq<Event>)
    requires Legal(s, arrival)
    requires t == Run(s, arrival) || (Enabled(Run(s, arrival), Release(h)) && t == Next(Run(s, arrival), Release(h)))
    ensures Legal(s, es) && Run(s, es) == t
  {
    if t == Run(s, arrival) {
      es := arrival;
    } else {
      OneEvent(Run(s, arrival), Release(h));
      RunAppend(s, arrival, [Release(h)]);
      es := arrival + [Release(h)];
    }
  }

  lemma StepEvents(w: World, op: Op, v: World) returns (es: seq<Event>)
    requires Step(w, op, v)
    ensures Legal(w.relay, es) && Run(w.relay, es) == v.relay
  {
    match op {
      case JoinBridge(h, ip, user, id, requested, now, _, _) =>
        es := ArrivalEvents(w.relay, Arrival(h, ip, user, Bridge, id, requested, now), h, v.relay);
      case JoinPhone(h, ip, user, pin) =>
        es := ArrivalEvents(w.relay, Arrival(h, ip, user, Phone, pin, "", 0), h, v.relay);
      case LeaveBridge(h, _, _) =>
        var s1 := Next(w.relay, RemoveBridge(h));
        var s2 := Next(s1, CheckLive(h));
        var rest := DepartEvents(s2, h, v.relay);
        OneEvent(s1, CheckLive(h));
        RunAppend(s1, [CheckLive(h)], rest);
        OneEvent(w.relay, RemoveBridge(h));
        RunAppend(w.relay, [RemoveBridge(h)], [CheckLive(h)] + rest);
        es := [RemoveBridge(h)] + ([CheckLive(h)] + rest);
      case LeavePhone(h) =>
        var rest := DepartEvents(Next(w.relay, RemovePhone(h)), h, v.relay);
        OneEvent(w.relay, RemovePhone(h));
        RunAppend(w.relay, [RemovePhone(h)], rest);
        es := [RemovePhone(h)] + rest;
      case Announce(h, policy) =>
        OneEvent(w.relay, PolicyMessage(h, policy));
        es := [PolicyMessage(h, policy)];
      case TurnedAway(ip) =>
        OneEvent(w.relay, Refuse(ip));
        es := [Refuse(ip)];
      case GivenUp(h, ip, user, role, id, requested) =>
        es := [Arrive(h, ip, user, role, id, requested), Abandon(h), Release(h)];
    }
  }

  /** What holds in every interleaving holds in every serial run. */
  lemma {:induction false} SerialRunIsRelayRun(limit: int, ops: seq<Op>, worlds: seq<World>, n: nat)
    returns (es: seq<Event>)
    requires SerialRun(limit, ops, worlds) && n < |worlds|
    ensures Legal(Init(limit), es) && Run(Init(limit), es) == worlds[n].relay
    decreases n
  {
    if n == 0 {
      es := [];
    } else {
      var before := SerialRunIsRelayRun(limit, ops, worlds, n - 1);
      var last := StepEvents(worlds[n - 1], ops[n - 1], worlds[n]);
      RunAppend(Init(limit), before, last);
      es := before + last;
    }
  }

  // ---------- Operations can always happen ----------

  /** Some order of the map iterations yields an exact report. */
  lemma {:induction false} ReportExists(phones: set<Connection>, before: Bridges, after: Bridges)
    returns (changes: seq<TargetChange>)
    requires Keyed(before) && Keyed(after)
    ensures IsReport(phones, before, after, changes)
    decreases |phones|
  {
    if phones == {} {
      changes := [];
    } else {
      var p :| p in phones;
      var rest := phones - {p};
      var fewer := ReportExists(rest, before, after);
      var was := Target(before, p.bridgeID);
      var ch := TargetChange(p, if was.Some? && Current(after, was.value) then was else None,
                             if was.Some? then was.value.bridgeID else "", Target(after, p.bridgeID));
      ExtendReport(rest, before, after, fewer, ch);
      assert rest + {p} == phones;
      changes := if Moved(before, after, p.bridgeID) then fewer + [ch] else fewer;
    }
  }

  lemma {:induction false} ListExists(all: set<Connection>) returns (list: seq<Connection>)
    ensures forall p :: p in list <==> p in all
    ensures forall i, j :: 0 <= i < j < |list| ==> list[i] != list[j]
    decreases |all|
  {
    if all == {} {
      list := [];
    } else {
      var p :| p in all;
      var fewer := ListExists(all - {p});
      list := fewer + [p];
    }
  }

  /** What the iterations of a bridge's join or leave can yield. */
  lemma IterationsExist(g: Group, after: Bridges) returns (changes: seq<TargetChange>, everyone: seq<Connection>)
    requires g.Valid() && Keyed(after)
    ensures ExactReport(g, after, changes) && Lists(everyone, g.phones)
  {
    changes := ReportExists(g.phones.Values, g.bridges, after);
    everyone := ListExists(g.phones.Values);
    assert forall p :: p in g.phones.Values <==> Registered(g.phones, p);
  }

  lemma ArrivalCanHappen(s: State, h: nat, ip: string, user: string, role: Role, id: string, requested: string,
                         now: int)
    requires Membership(s) && s.lock.None? && h !in s.handlers && RateLimits.CountOf(s.counts, ip) < s.limit
    requires role.Bridge? ==> id != ""
    ensures Legal(s, Arrival(h, ip, user, role, id, requested, now))
  {
    var a := Arrive(h, ip, user, role, id, requested);
    var e := if role.Bridge? then AddBridge(h, now) else AddPhone(h);
    FetchEffect(s, h, ip, user, role, id, requested);
    HomeOk(s, user);
    FetchedHome(s, h, ip, user, role, id, requested);
    assert Enabled(AfterFetch(s, h, ip, user, role, id, requested), e);
    Three(s, a, Fetch(h), e);
  }

  /** From every state of a serial run any new bridge below its address limit
      can come and join, or be turned down at the cap. */
  lemma JoinCanHappen(w: World, h: nat, ip: string, user: string, id: string, requested: string, now: int)
    returns (op: Op, v: World)
    requires Inv(w) && h !in w.relay.handlers && id != ""
    requires RateLimits.CountOf(w.relay.counts, ip) < w.relay.limit
    ensures op.JoinBridge? && op.h == h && op.ip == ip && op.user == user && op.bridgeID == id
    ensures op.requested == requested && op.now == now && Step(w, op, v)
  {
    var es := Arrival(h, ip, user, Bridge, id, requested, now);
    ArrivalCanHappen(w.relay, h, ip, user, Bridge, id, requested, now);
    ArrivalEffect(w.relay, h, ip, user, Bridge, id, requested, now);
    AddBridgeEffect(w.relay, h, ip, user, id, requested, now);
    HomeOk(w.relay, user);
    var t, g, b := Run(w.relay, es), Home(w.relay, user), NewConnection(h, id, now);
    if g.RoomForBridge(id) {
      JoinBridgeKeepsValid(g, b);
      var changes, everyone := IterationsExist(g, g.WithBridge(b).bridges);
      op := JoinBridge(h, ip, user, id, requested, now, changes, everyone);
      v := World(t, w.log + ReportNotices(changes) + PresenceNotices(everyone, id, true));
    } else {
      op := JoinBridge(h, ip, user, id, requested, now, [], []);
      v := World(Next(t, Release(h)), w.log);
    }
  }

  lemma DepartureCanHappen(s: State, h: nat) returns (t: State)
    requires Membership(s) && s.lock.None? && h in s.handlers && s.handlers[h].phase.Checked?
    ensures Departs(s, h, t)
  {
    assert HandlerOk(s, h) && GroupOk(s, s.handlers[h].phase.group);
    var s1 := Next(s, CheckEmpty(h));
    t := if Enabled(s1, Unregister(h)) then Next(Next(s1, Unregister(h)), Release(h)) else Next(s1, Release(h));
  }

  /** And any joined bridge, current or displaced, can leave. */
  lemma LeaveCanHappen(w: World, h: nat) returns (op: Op, v: World)
    requires Inv(w) && Is(w.relay, h, Bridge) && w.relay.handlers[h].phase.Joined?
    ensures op.LeaveBridge? && op.h == h && Step(w, op, v)
  {
    var s := w.relay;
    assert HandlerOk(s, h) && GroupOk(s, s.handlers[h].phase.group);
    var k, b := s.handlers[h].phase.group, s.handlers[h].phase.conn;
    var g := s.groups[k];
    var s1 := Next(s, RemoveBridge(h));
    StepKeepsSound(s, RemoveBridge(h));
    RemoveBridgeEffect(s, h);
    var s2 := Next(s1, CheckLive(h));
    StepKeepsSound(s1, CheckLive(h));
    var t := DepartureCanHappen(s2, h);
    LeaveBridgeKeepsValid(g, b.bridgeID);
    var changes, everyone := IterationsExist(g, g.WithoutBridge(b.bridgeID).bridges);
    op := LeaveBridge(h, changes, everyone);
    var presence := if HasLiveBridge(s1, s.handlers[h].user, b.bridgeID) then []
                    else PresenceNotices(everyone, b.bridgeID, false);
    v := World(t, if Current(g.bridges, b) then w.log + ReportNotices(changes) + presence else w.log);
  }

  /** The same for phones. */
  lemma PhoneJoinCanHappen(w: World, h: nat, ip: string, user: string, pin: string) returns (v: World)
    requires Inv(w) && h !in w.relay.handlers && RateLimits.CountOf(w.relay.counts, ip) < w.relay.limit
    ensures Step(w, JoinPhone(h, ip, user, pin), v)
  {
    ArrivalCanHappen(w.relay, h, ip, user, Phone, pin, "", 0);
    ArrivalEffect(w.relay, h, ip, user, Phone, pin, "", 0);
    AddPhoneEffect(w.relay, h, ip, user, pin);
    HomeOk(w.relay, user);
    var t, g, p := Run(w.relay, Arrival(h, ip, user, Phone, pin, "", 0)), Home(w.relay, user), NewConnection(h, pin, 0);
    v := if g.RoomForPhone() then World(t, w.log + JoinNotices(g.Admit(p), Target(g.bridges, pin)))
         else World(Next(t, Release(h)), w.log);
  }

  lemma PhoneLeaveCanHappen(w: World, h: nat) returns (v: World)
    requires Inv(w) && Is(w.relay, h, Phone) && w.relay.handlers[h].phase.Joined?
    ensures Step(w, LeavePhone(h), v)
  {
    var s := w.relay;
    assert HandlerOk(s, h) && GroupOk(s, s.handlers[h].phase.group);
    var k, p := s.handlers[h].phase.group, s.handlers[h].phase.conn;
    StepKeepsSound(s, RemovePhone(h));
    var t := DepartureCanHappen(Next(s, RemovePhone(h)), h);
    v := World(t, w.log + LeaveNotices(p, Target(s.groups[k].bridges, p.bridgeID)));
  }
}
