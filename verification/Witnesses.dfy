/** Two short runs of the relay in which what one would expect fails. */
module Witnesses {
  import opened Connections
  import opened Routing
  import opened Groups
  import opened Relay
  import opened RelayRuns
  import opened Anchors

  const A: string := "br_aaaaaaaa"
  const B: string := "br_bbbbbbbb"

  // ---------- The stale join happens ----------

  function Hand(role: Role, id: string, phase: Phase): Handler {
    Handler("ip", "user", role, id, "normal", phase, "normal", [])
  }

  /** Bridge B fetches the group of a leaving bridge A, which is then
      unregistered as empty; B joins the stale instance, the next phone gets
      a fresh one, and the phone has no bridge although B is live. */
  lemma StaleJoinHappens() returns (es: seq<Event>)
    ensures Legal(Init(20), es)
    ensures var s := Run(Init(20), es);
      && Member(s, 1, 0) && Member(s, 2, 1)
      && s.handlers[1].role == Bridge && s.handlers[2].role == Phone
      && s.handlers[1].user == s.handlers[2].user
      && 1 < |s.groups| && s.groups[1].Valid()
      && s.groups[1].BridgeForPhone(s.handlers[2].phase.conn) == None
  {
    var first, s0 := BothFetch();
    var second, s1 := JoinAndLeave(s0);
    var third, s2 := CleanUp(s1);
    var fourth, s3 := JoinStale(s2);
    var last, s4 := PhoneArrives(s3);
    RunAppend(s2, fourth, last);
    RunAppend(s1, third, fourth + last);
    RunAppend(s0, second, third + (fourth + last));
    es := first + (second + (third + (fourth + last)));
    RunAppend(Init(20), first, second + (third + (fourth + last)));
    RunKeepsMembership(Init(20), es);
    BothMembers(s4);
  }

  lemma BothMembers(s: State)
    requires |s.groups| == 2 && 1 in s.handlers && 2 in s.handlers && Membership(s)
    requires s.groups[0].bridges == map[B := NewConnection(1, B, 2)] && s.groups[1].bridges == map[]
    requires s.handlers[1].phase.Joined? && s.handlers[1].phase.group == 0
    requires s.handlers[2].phase.Joined? && s.handlers[2].phase.group == 1 && s.handlers[2].role == Phone
    ensures Member(s, 1, 0) && Member(s, 2, 1) && s.groups[1].Valid()
    ensures s.groups[1].BridgeForPhone(s.handlers[2].phase.conn) == None
  {
    assert GroupOk(s, 1);
    assert s.groups[0].bridges[B].handle == 1;
  }

  lemma BothFetch() returns (es: seq<Event>, s: State)
    ensures Legal(Init(20), es) && s == Run(Init(20), es)
    ensures s.limit == 20 && s.counts == map["ip" := 2] && s.lock == None
    ensures s.groups == [NewGroup("user")] && s.registry == map["user" := 0]
    ensures s.handlers == map[0 := Hand(Bridge, A, Fetched(0)), 1 := Hand(Bridge, B, Fetched(0))]
  {
    var a, b := Arrive(0, "ip", "user", Bridge, A, "normal"), Arrive(1, "ip", "user", Bridge, B, "normal");
    es := [];
    Extend(Init(20), es, a); es := es + [a];
    Extend(Init(20), es, b); es := es + [b];
    Extend(Init(20), es, Fetch(0)); es := es + [Fetch(0)];
    Extend(Init(20), es, Fetch(1)); es := es + [Fetch(1)];
    s := Run(Init(20), es);
  }

  lemma JoinAndLeave(s: State) returns (es: seq<Event>, t: State)
    requires s.limit == 20 && s.counts == map["ip" := 2] && s.lock == None
    requires s.groups == [NewGroup("user")] && s.registry == map["user" := 0]
    requires s.handlers == map[0 := Hand(Bridge, A, Fetched(0)), 1 := Hand(Bridge, B, Fetched(0))]
    ensures Legal(s, es) && t == Run(s, es)
    ensures t.limit == 20 && t.counts == map["ip" := 2] && t.lock == None
    ensures t.groups == [NewGroup("user")] && t.registry == map["user" := 0]
    ensures t.handlers == map[0 := Hand(Bridge, A, Left(0, true)), 1 := Hand(Bridge, B, Fetched(0))]
  {
    es := [];
    Extend(s, es, AddBridge(0, 1)); es := es + [AddBridge(0, 1)];
    Extend(s, es, RemoveBridge(0)); es := es + [RemoveBridge(0)];
    t := Run(s, es);
    assert t.groups[0] == NewGroup("user");
  }

  lemma CleanUp(s: State) returns (es: seq<Event>, t: State)
    requires s.limit == 20 && s.counts == map["ip" := 2] && s.lock == None
    requires s.groups == [NewGroup("user")] && s.registry == map["user" := 0]
    requires s.handlers == map[0 := Hand(Bridge, A, Left(0, true)), 1 := Hand(Bridge, B, Fetched(0))]
    ensures Legal(s, es) && t == Run(s, es)
    ensures t.limit == 20 && t.counts == map["ip" := 2] && t.lock == None
    ensures t.groups == [NewGroup("user")] && t.registry == map[]
    ensures t.handlers == map[0 := Hand(Bridge, A, Exiting), 1 := Hand(Bridge, B, Fetched(0))]
  {
    es := [];
    Extend(s, es, CheckLive(0)); es := es + [CheckLive(0)];
    Extend(s, es, CheckEmpty(0)); es := es + [CheckEmpty(0)];
    Extend(s, es, Unregister(0)); es := es + [Unregister(0)];
    t := Run(s, es);
  }

  lemma JoinStale(s: State) returns (es: seq<Event>, t: State)
    requires s.limit == 20 && s.counts == map["ip" := 2] && s.lock == None
    requires s.groups == [NewGroup("user")] && s.registry == map[]
    requires s.handlers == map[0 := Hand(Bridge, A, Exiting), 1 := Hand(Bridge, B, Fetched(0))]
    ensures Legal(s, es) && t == Run(s, es)
    ensures t.limit == 20 && t.counts == map["ip" := 2] && t.lock == None && t.registry == map[]
    ensures t.groups == [NewGroup("user").WithBridge(NewConnection(1, B, 2))]
    ensures t.handlers == map[0 := Hand(Bridge, A, Exiting),
                              1 := Hand(Bridge, B, Joined(0, NewConnection(1, B, 2)))]
  {
    es := [AddBridge(1, 2)];
    OneEvent(s, AddBridge(1, 2));
    t := Run(s, es);
  }

  lemma PhoneArrives(s: State) returns (es: seq<Event>, t: State)
    requires s.limit == 20 && s.counts == map["ip" := 2] && s.lock == None && s.registry == map[]
    requires s.groups == [NewGroup("user").WithBridge(NewConnection(1, B, 2))]
    requires s.handlers == map[0 := Hand(Bridge, A, Exiting),
                               1 := Hand(Bridge, B, Joined(0, NewConnection(1, B, 2)))]
    ensures Legal(s, es) && t == Run(s, es)
    ensures |t.groups| == 2 && t.groups[0] == s.groups[0] && t.groups[1].bridges == map[]
    ensures 1 in t.handlers && t.handlers[1] == s.handlers[1]
    ensures 2 in t.handlers && t.handlers[2].role == Phone && t.handlers[2].user == "user"
    ensures t.handlers[2].phase.Joined? && t.handlers[2].phase.group == 1
  {
    es := [];
    var arrive := Arrive(2, "ip", "user", Phone, "", "normal");
    Extend(s, es, arrive); es := es + [arrive];
    Extend(s, es, Fetch(2)); es := es + [Fetch(2)];
    Extend(s, es, AddPhone(2)); es := es + [AddPhone(2)];
    t := Run(s, es);
  }

  // ---------- The stale takeover happens ----------

  /** Bridge A joined at 10 and bridge B at 7; a phone that names no bridge
      talks to A. Another connection of A, stamped 5, takes over, and the phone
      is moved to B. */
  lemma StaleTakeoverHappens() returns (es: seq<Event>)
    ensures Legal(Init(20), es) && Enabled(Run(Init(20), es), AddBridge(3, 5))
    ensures var s := Run(Init(20), es); var t := Next(s, AddBridge(3, 5));
      && 2 in s.handlers && s.handlers[2].phase.Joined? && s.handlers[2].phase.group == 0
      && 0 < |s.groups| && 0 < |t.groups| && s.groups[0].Valid() && t.groups[0].Valid()
      && var phone := s.handlers[2].phase.conn;
      && s.groups[0].BridgeForPhone(phone) == Some(Connection(0, 0, A, 10))
      && t.groups[0].BridgeForPhone(phone) == Some(Connection(1, 0, B, 7))
      && Current(t.groups[0].bridges, Connection(3, 0, A, 5))
  {
    var first, s0 := BothFetch();
    var second, s1 := BothJoin(s0);
    var third, s2 := PhoneJoins(s1);
    var last, s3 := SecondComes(s2);
    RunAppend(s1, third, last);
    RunAppend(s0, second, third + last);
    es := first + (second + (third + last));
    RunAppend(Init(20), first, second + (third + last));
    TakeoverMovesDefault(s3.groups[0]);
  }

  lemma TakeoverMovesDefault(g: Group)
    requires g.Valid() && g.bridges == TwoBridges().bridges
    ensures Default(g.bridges) == Some(NewConnection(0, A, 10))
    ensures var after := g.WithBridge(NewConnection(3, A, 5));
      after.Valid() && Default(after.bridges) == Some(NewConnection(1, B, 7))
  {
    var a, b, a2 := NewConnection(0, A, 10), NewConnection(1, B, 7), NewConnection(3, A, 5);
    assert A[3] != B[3];
    JoinBridgeKeepsValid(g, a2);
    DefaultIs(g.bridges, a);
    DefaultIs(g.WithBridge(a2).bridges, b);
  }

  function TwoBridges(): Group {
    NewGroup("user").WithBridge(NewConnection(0, A, 10)).WithBridge(NewConnection(1, B, 7))
  }

  lemma TwoBridgesValid()
    ensures TwoBridges().Valid() && |TwoBridges().phones| == 0
  {
    var one := NewGroup("user").WithBridge(NewConnection(0, A, 10));
    JoinBridgeKeepsValid(NewGroup("user"), NewConnection(0, A, 10));
    JoinBridgeKeepsValid(one, NewConnection(1, B, 7));
  }

  lemma BothJoin(s: State) returns (es: seq<Event>, t: State)
    requires s.limit == 20 && s.counts == map["ip" := 2] && s.lock == None
    requires s.groups == [NewGroup("user")] && s.registry == map["user" := 0]
    requires s.handlers == map[0 := Hand(Bridge, A, Fetched(0)), 1 := Hand(Bridge, B, Fetched(0))]
    ensures Legal(s, es) && t == Run(s, es)
    ensures t.limit == 20 && t.counts == map["ip" := 2] && t.lock == None
    ensures t.groups == [TwoBridges()] && t.registry == map["user" := 0] && t.handlers.Keys == {0, 1}
  {
    JoinBridgeKeepsValid(NewGroup("user"), NewConnection(0, A, 10));
    es := [];
    Extend(s, es, AddBridge(0, 10)); es := es + [AddBridge(0, 10)];
    Extend(s, es, AddBridge(1, 7)); es := es + [AddBridge(1, 7)];
    t := Run(s, es);
  }

  lemma PhoneJoins(s: State) returns (es: seq<Event>, t: State)
    requires s.limit == 20 && s.counts == map["ip" := 2] && s.lock == None
    requires s.groups == [TwoBridges()] && s.registry == map["user" := 0] && s.handlers.Keys == {0, 1}
    ensures Legal(s, es) && t == Run(s, es)
    ensures t.limit == 20 && t.counts == map["ip" := 3] && t.lock == None && t.registry == map["user" := 0]
    ensures t.handlers.Keys == {0, 1, 2} && t.handlers[2].phase.Joined? && t.handlers[2].phase.group == 0
    ensures |t.groups| == 1 && t.groups[0].Valid() && t.groups[0].bridges == TwoBridges().bridges
    ensures var p := t.handlers[2].phase.conn; Registered(t.groups[0].phones, p) && p.bridgeID == ""
  {
    TwoBridgesValid();
    JoinPhoneKeepsValid(TwoBridges(), NewConnection(2, "", 0));
    var arrive := Arrive(2, "ip", "user", Phone, "", "normal");
    es := [];
    Extend(s, es, arrive); es := es + [arrive];
    Extend(s, es, Fetch(2)); es := es + [Fetch(2)];
    Extend(s, es, AddPhone(2)); es := es + [AddPhone(2)];
    t := Run(s, es);
  }

  lemma SecondComes(s: State) returns (es: seq<Event>, t: State)
    requires s.limit == 20 && s.counts == map["ip" := 3] && s.lock == None && s.registry == map["user" := 0]
    requires s.handlers.Keys == {0, 1, 2} && |s.groups| == 1
    ensures Legal(s, es) && t == Run(s, es)
    ensures t.groups == s.groups && t.handlers == s.handlers[3 := Hand(Bridge, A, Fetched(0))]
  {
    var arrive := Arrive(3, "ip", "user", Bridge, A, "normal");
    es := [];
    Extend(s, es, arrive); es := es + [arrive];
    Extend(s, es, Fetch(3)); es := es + [Fetch(3)];
    t := Run(s, es);
  }
}
