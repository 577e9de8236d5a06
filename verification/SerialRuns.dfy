/** Serial runs: every join or leave, with its group lookup, announcements and
    cleanup, finishes before the next begins. They are runs of the relay in
    which the control messages are written at once, and in them every peer's
    picture is right after every operation. */
module SerialRuns {
  import opened Connections
  import opened Routing
  import opened Groups
  import opened Announcements
  import opened Views
  import opened GroupViews
  import opened Policies
  import opened Relay
  import opened RelayRuns
  import RateLimits

  datatype World = World(relay: State, log: Log)

  /** One operation; `changes` and `everyone` are the orders in which the map
      iterations happened to list re-targeted phones and all phones. */
  datatype Op =
    | JoinBridge(h: nat, ip: string, user: string, bridgeID: string, requested: string, now: int,
                 changes: seq<TargetChange>, everyone: seq<Connection>)
    | LeaveBridge(h: nat, changes: seq<TargetChange>, everyone: seq<Connection>)
    | JoinPhone(h: nat, ip: string, user: string, pin: string)
    | LeavePhone(h: nat)
    | Announce(h: nat, policy: string)
    | TurnedAway(ip: string)
    | GivenUp(h: nat, ip: string, user: string, role: Role, bridgeID: string, requested: string)

  /** A handler's way from its arrival up to its attempt to join. */
  function Arrival(h: nat, ip: string, user: string, role: Role, bridgeID: string, requested: string, now: int)
    : seq<Event>
  {
    [Arrive(h, ip, user, role, bridgeID, requested), Fetch(h), if role.Bridge? then AddBridge(h, now) else AddPhone(h)]
  }

  /** The registry cleanup and the release, from state `s` to state `t`. */
  ghost predicate Departs(s: State, h: nat, t: State) {
    && Enabled(s, CheckEmpty(h))
    && var s1 := Next(s, CheckEmpty(h));
    if Enabled(s1, Unregister(h))
    then Enabled(Next(s1, Unregister(h)), Release(h)) && t == Next(Next(s1, Unregister(h)), Release(h))
    else Enabled(s1, Release(h)) && t == Next(s1, Release(h))
  }

  /** The group a user's next connection will fetch. */
  function HomeIndex(s: State, user: string): nat {
    if user in s.registry then s.registry[user] else |s.groups|
  }

  function Home(s: State, user: string): Group {
    if HomeIndex(s, user) < |s.groups| then s.groups[HomeIndex(s, user)] else NewGroup(user)
  }

  ghost predicate ExactReport(g: Group, after: Bridges, changes: seq<TargetChange>) {
    Keyed(g.bridges) && Keyed(after) && IsReport(g.phones.Values, g.bridges, after, changes)
  }

  ghost predicate BridgeJoins(w: World, op: Op, v: World)
    requires op.JoinBridge?
  {
    var es := Arrival(op.h, op.ip, op.user, Bridge, op.bridgeID, op.requested, op.now);
    && Legal(w.relay, es)
    && var t := Run(w.relay, es);
    var g, b := Home(w.relay, op.user), NewConnection(op.h, op.bridgeID, op.now);
    if g.RoomForBridge(op.bridgeID) then
      && v.relay == t
      && ExactReport(g, g.WithBridge(b).bridges, op.changes) && Lists(op.everyone, g.phones)
      && v.log == w.log + ReportNotices(op.changes) + PresenceNotices(op.everyone, op.bridgeID, true)
    else
      Enabled(t, Release(op.h)) && v == World(Next(t, Release(op.h)), w.log)
  }

  ghost predicate BridgeLeaves(w: World, op: Op, v: World)
    requires op.LeaveBridge?
  {
    && Enabled(w.relay, RemoveBridge(op.h))
    && var k, b := w.relay.handlers[op.h].phase.group, w.relay.handlers[op.h].phase.conn;
    var g := w.relay.groups[k];
    var s1 := Next(w.relay, RemoveBridge(op.h));
    && Enabled(s1, CheckLive(op.h))
    && Departs(Next(s1, CheckLive(op.h)), op.h, v.relay)
    && if Current(g.bridges, b) then
         && ExactReport(g, g.WithoutBridge(b.bridgeID).bridges, op.changes) && Lists(op.everyone, g.phones)
         && v.log == w.log + ReportNotices(op.changes)
                     + if HasLiveBridge(s1, w.relay.handlers[op.h].user, b.bridgeID) then []
                       else PresenceNotices(op.everyone, b.bridgeID, false)
       else v.log == w.log
  }

  ghost predicate PhoneJoins(w: World, op: Op, v: World)
    requires op.JoinPhone?
  {
    var es := Arrival(op.h, op.ip, op.user, Phone, op.pin, "", 0);
    && Legal(w.relay, es)
    && var t := Run(w.relay, es);
    var g, p := Home(w.relay, op.user), NewConnection(op.h, op.pin, 0);
    && g.Valid()
    && if g.RoomForPhone()
       then v == World(t, w.log + JoinNotices(g.Admit(p), Target(g.bridges, op.pin)))
       else Enabled(t, Release(op.h)) && v == World(Next(t, Release(op.h)), w.log)
  }

  ghost predicate PhoneLeaves(w: World, op: Op, v: World)
    requires op.LeavePhone?
  {
    && Enabled(w.relay, RemovePhone(op.h))
    && var k, p := w.relay.handlers[op.h].phase.group, w.relay.handlers[op.h].phase.conn;
    && Departs(Next(w.relay, RemovePhone(op.h)), op.h, v.relay)
    && v.log == w.log + LeaveNotices(p, Target(w.relay.groups[k].bridges, p.bridgeID))
  }

  ghost predicate Step(w: World, op: Op, v: World) {
    match op
    case JoinBridge(_, _, _, _, _, _, _, _) => BridgeJoins(w, op, v)
    case LeaveBridge(_, _, _) => BridgeLeaves(w, op, v)
    case JoinPhone(_, _, _, _) => PhoneJoins(w, op, v)
    case LeavePhone(_) => PhoneLeaves(w, op, v)
    case Announce(h, policy) =>
      Enabled(w.relay, PolicyMessage(h, policy)) && v == World(Next(w.relay, PolicyMessage(h, policy)), w.log)
    case TurnedAway(ip) => Enabled(w.relay, Refuse(ip)) && v == World(Next(w.relay, Refuse(ip)), w.log)
    case GivenUp(h, ip, user, role, bridgeID, requested) =>
      var es := [Arrive(h, ip, user, role, bridgeID, requested), Abandon(h), Release(h)];
      Legal(w.relay, es) && v == World(Run(w.relay, es), w.log)
  }

  // ---------- Invariant ----------

  ghost predicate Quiet(s: State) {
    s.lock.None? && forall h :: h in s.handlers ==> s.handlers[h].phase.Joined? || s.handlers[h].phase.Released?
  }

  /** Between operations every group with a member is its user's registered
      group: no connection is in a stale one. */
  ghost predicate Settled(s: State) {
    forall k :: 0 <= k < |s.groups| && !s.groups[k].Empty() ==> Lookup(s.registry, s.groups[k].user) == Some(k)
  }

  ghost predicate Known(w: World) {
    forall i :: 0 <= i < |w.log| ==> w.log[i].to in w.relay.handlers
  }

  ghost predicate AllViewsOk(groups: seq<Group>, log: Log) {
    forall k :: 0 <= k < |groups| ==> ViewOk(groups[k], log)
  }

  /** The last status reported for a bridge id of a user. */
  function LastStatus(reports: seq<Report>, user: string, id: string): Option<bool> {
    if reports == [] then None
    else
      var last := reports[|reports| - 1];
      if last.user == user && last.bridgeID == id then Some(last.online)
      else LastStatus(reports[..|reports| - 1], user, id)
  }

  /** Every offline report is preceded by an online one with no other offline
      report of the same bridge in between. */
  predicate Alternates(reports: seq<Report>, user: string, id: string) {
    reports == [] ||
    var last, rest := reports[|reports| - 1], reports[..|reports| - 1];
    && Alternates(rest, user, id)
    && (last.user == user && last.bridgeID == id && !last.online ==> LastStatus(rest, user, id) == Some(true))
  }

  ghost predicate StatusOk(reports: seq<Report>, user: string, id: string, live: bool) {
    && Alternates(reports, user, id)
    && (if live then LastStatus(reports, user, id) == Some(true) else LastStatus(reports, user, id) != Some(true))
  }

  ghost predicate StatusesOk(s: State) {
    forall user, id :: StatusOk(s.reports, user, id, HasLiveBridge(s, user, id))
  }

  ghost predicate Inv(w: World) {
    && Membership(w.relay) && NoLeak(w.relay) && Quiet(w.relay) && Settled(w.relay)
    && Known(w) && AllViewsOk(w.relay.groups, w.log) && StatusesOk(w.relay)
  }

  // ---------- Sockets of different groups ----------

  ghost function Handles(g: Group): set<nat> {
    (set id | id in g.bridges :: g.bridges[id].handle) + (set c | c in g.phones :: g.phones[c].handle)
  }

  lemma MembersDistinct(s: State, k: nat)
    requires k < |s.groups| && GroupOk(s, k)
    ensures Distinct(s.groups[k].bridges, s.groups[k].phones)
  {
    var g := s.groups[k];
    forall i, j | i in g.bridges && j in g.bridges && i != j ensures g.bridges[i].handle != g.bridges[j].handle {
      assert Owned(s, k, g.bridges[i], Bridge) && Owned(s, k, g.bridges[j], Bridge);
    }
    forall c, d | c in g.phones && d in g.phones && c != d ensures g.phones[c].handle != g.phones[d].handle {
      assert Owned(s, k, g.phones[c], Phone) && Owned(s, k, g.phones[d], Phone);
    }
    forall i, c | i in g.bridges && c in g.phones ensures g.bridges[i].handle != g.phones[c].handle {
      assert Owned(s, k, g.bridges[i], Bridge) && Owned(s, k, g.phones[c], Phone);
    }
  }

  lemma HandleOwned(s: State, k: nat, x: nat)
    requires k < |s.groups| && GroupOk(s, k) && x in Handles(s.groups[k])
    ensures x in s.handlers && s.handlers[x].phase.Joined? && s.handlers[x].phase.group == k
  {
    var g := s.groups[k];
    if id :| id in g.bridges && g.bridges[id].handle == x {
      assert Owned(s, k, g.bridges[id], Bridge);
    } else {
      var c :| c in g.phones && g.phones[c].handle == x;
      assert Owned(s, k, g.phones[c], Phone);
    }
  }

  ghost predicate AddressedTo(more: Log, g: Group) {
    forall i :: 0 <= i < |more| ==> more[i].to in Handles(g)
  }

  lemma ReportAddressed(g: Group, before: Bridges, changes: seq<TargetChange>)
    requires Keyed(before) && Keyed(g.bridges) && IsReport(g.phones.Values, before, g.bridges, changes)
    ensures AddressedTo(ReportNotices(changes), g)
  {
    forall n | 0 <= n < |changes| ensures AddressedTo(ChangeNotices(changes[n]), g) {
      var ch := changes[n];
      assert Describes(before, g.bridges, ch) && ch.phone in g.phones.Values;
      var c :| c in g.phones && g.phones[c] == ch.phone;
    }
    NoticesAddressed(changes, g);
  }

  lemma {:induction false} NoticesAddressed(changes: seq<TargetChange>, g: Group)
    requires forall n :: 0 <= n < |changes| ==> AddressedTo(ChangeNotices(changes[n]), g)
    ensures AddressedTo(ReportNotices(changes), g)
    decreases |changes|
  {
    if changes != [] {
      var n := |changes| - 1;
      NoticesAddressed(changes[..n], g);
      assert AddressedTo(ChangeNotices(changes[n]), g);
    }
  }

  lemma PresenceAddressed(g: Group, everyone: seq<Connection>, id: string, online: bool)
    requires Lists(everyone, g.phones)
    ensures AddressedTo(PresenceNotices(everyone, id, online), g)
  {
    forall i | 0 <= i < |everyone| ensures everyone[i].handle in Handles(g) {
      assert everyone[i] in everyone;
      assert g.phones[everyone[i].connID] == everyone[i];
    }
  }

  /** Announcing to the members of one group disturbs no other group. */
  lemma OnlyGroupHears(s: State, t: State, k: nat, log: Log, more: Log)
    requires Membership(t) && k < |t.groups| && |t.groups| <= |s.groups| + 1 && k <= |s.groups|
    requires forall j :: 0 <= j < |t.groups| && j != k ==> j < |s.groups| && t.groups[j] == s.groups[j]
    requires AllViewsOk(s.groups, log) && ViewOk(t.groups[k], log + more) && AddressedTo(more, t.groups[k])
    ensures AllViewsOk(t.groups, log + more)
  {
    forall j | 0 <= j < |t.groups| ensures ViewOk(t.groups[j], log + more) {
      if j != k {
        GroupsApart(t, j, k, more);
        OthersUndisturbed(t.groups[j], log, more);
      }
    }
  }

  lemma GroupsApart(t: State, j: nat, k: nat, more: Log)
    requires j < |t.groups| && k < |t.groups| && j != k && GroupOk(t, j) && GroupOk(t, k)
    requires AddressedTo(more, t.groups[k])
    ensures UnseenBy(more, t.groups[j])
  {
    forall i | 0 <= i < |more| ensures more[i].to !in Handles(t.groups[j]) {
      HandleOwned(t, k, more[i].to);
      if more[i].to in Handles(t.groups[j]) {
        HandleOwned(t, j, more[i].to);
        assert false;
      }
    }
    assert forall id :: id in t.groups[j].bridges ==> t.groups[j].bridges[id].handle in Handles(t.groups[j]);
    assert forall c :: c in t.groups[j].phones ==> t.groups[j].phones[c].handle in Handles(t.groups[j]);
  }

  lemma NewsKnown(w: World, t: State, k: nat, more: Log)
    requires Known(w) && w.relay.handlers.Keys <= t.handlers.Keys
    requires k < |t.groups| && GroupOk(t, k) && AddressedTo(more, t.groups[k])
    ensures Known(World(t, w.log + more))
  {
    forall i | 0 <= i < |more| ensures more[i].to in t.handlers { HandleOwned(t, k, more[i].to); }
  }

  // ---------- Effects of whole operations on the relay ----------

  lemma Three(s: State, a: Event, b: Event, c: Event)
    ensures Legal(s, [a, b, c]) <==>
      Enabled(s, a) && Enabled(Next(s, a), b) && Enabled(Next(Next(s, a), b), c)
    ensures Legal(s, [a, b, c]) ==> Run(s, [a, b, c]) == Next(Next(Next(s, a), b), c)
  {
    var es := [a, b, c];
    assert es[1..] == [b, c] && es[1..][1..] == [c] && es[1..][1..][1..] == [];
    if Enabled(s, a) {
      var s1 := Next(s, a);
      assert Legal(s, es) <==> Legal(s1, [b, c]);
      if Enabled(s1, b) {
        var s2 := Next(s1, b);
        assert Legal(s1, [b, c]) <==> Legal(s2, [c]);
        if Enabled(s2, c) {
          assert Legal(Next(s2, c), []);
          assert Run(s2, [c]) == Next(s2, c);
          assert Run(s1, [b, c]) == Run(s2, [c]);
          assert Run(s, es) == Run(s1, [b, c]);
        }
      }
    }
  }

  /** The state in which an arriving handler holds its group. */
  function AfterFetch(s: State, h: nat, ip: string, user: string, role: Role, id: string, requested: string): State {
    s.(counts := RateLimits.Admitted(s.counts, ip),
       handlers := s.handlers[h := Handler(ip, user, role, id, requested, Fetched(HomeIndex(s, user)),
                                           Normalize(requested), [])],
       groups := if user in s.registry then s.groups else s.groups + [NewGroup(user)],
       registry := s.registry[user := HomeIndex(s, user)])
  }

  lemma FetchEffect(s: State, h: nat, ip: string, user: string, role: Role, id: string, requested: string)
    requires s.lock.None? && Enabled(s, Arrive(h, ip, user, role, id, requested)) && (role.Bridge? ==> id != "")
    ensures var s1 := Next(s, Arrive(h, ip, user, role, id, requested));
      Enabled(s1, Fetch(h)) && Next(s1, Fetch(h)) == AfterFetch(s, h, ip, user, role, id, requested)
  {
    var s1 := Next(s, Arrive(h, ip, user, role, id, requested));
    var u := Next(s1, Fetch(h));
    var v := AfterFetch(s, h, ip, user, role, id, requested);
    assert u.handlers == v.handlers;
    assert u.registry == v.registry;
  }

  lemma ArrivalEffect(s: State, h: nat, ip: string, user: string, role: Role, id: string, requested: string, now: int)
    requires s.lock.None? && Legal(s, Arrival(h, ip, user, role, id, requested, now))
    ensures var u := AfterFetch(s, h, ip, user, role, id, requested);
      var e := if role.Bridge? then AddBridge(h, now) else AddPhone(h);
      && Enabled(s, Arrive(h, ip, user, role, id, requested)) && (role.Bridge? ==> id != "")
      && Enabled(u, e) && Run(s, Arrival(h, ip, user, role, id, requested, now)) == Next(u, e)
  {
    var e := if role.Bridge? then AddBridge(h, now) else AddPhone(h);
    Three(s, Arrive(h, ip, user, role, id, requested), Fetch(h), e);
    FetchEffect(s, h, ip, user, role, id, requested);
  }

  /** Nothing but handler `h` and perhaps the registry differs. */
  ghost predicate OnlyMoved(s: State, h: nat, t: State) {
    && t.groups == s.groups && t.reports == s.reports
    && h in s.handlers && t.handlers.Keys == s.handlers.Keys
    && forall x :: x in s.handlers && x != h ==> t.handlers[x] == s.handlers[x]
  }

  ghost predicate LosesEmpty(s: State, t: State) {
    t.registry == s.registry
    || exists user :: user in s.registry && t.registry == s.registry - {user} && s.registry[user] < |s.groups|
                      && s.groups[s.registry[user]].Empty()
  }

  lemma CheckEmptyEffect(s: State, h: nat)
    requires Enabled(s, CheckEmpty(h))
    ensures var t := Next(s, CheckEmpty(h)); var user := s.handlers[h].user;
      && OnlyMoved(s, h, t) && t.registry == s.registry
      && (t.handlers[h].phase.Emptied? ==>
            user in s.registry && s.registry[user] < |s.groups| && s.groups[s.registry[user]].Empty()
            && t.handlers[h].user == user)
      && (!t.handlers[h].phase.Emptied? ==> t.lock.None?)
  {
  }

  lemma UnregisterEffect(s: State, h: nat)
    requires Enabled(s, Unregister(h))
    ensures var t := Next(s, Unregister(h));
      OnlyMoved(s, h, t) && t.registry == s.registry - {s.handlers[h].user} && t.lock.None?
  {
  }

  lemma ReleaseEffect(s: State, h: nat)
    requires Enabled(s, Release(h))
    ensures var t := Next(s, Release(h));
      OnlyMoved(s, h, t) && t.registry == s.registry && t.lock == s.lock && t.handlers[h].phase.Released?
  {
  }

  /** A departure changes no group and takes at most an empty one out of the
      registry. */
  lemma DepartEffect(s: State, h: nat, t: State)
    requires Departs(s, h, t)
    ensures OnlyMoved(s, h, t) && t.lock.None? && t.handlers[h].phase.Released? && LosesEmpty(s, t)
  {
    CheckEmptyEffect(s, h);
    var s1 := Next(s, CheckEmpty(h));
    if Enabled(s1, Unregister(h)) {
      UnregisterEffect(s1, h);
      ReleaseEffect(Next(s1, Unregister(h)), h);
    } else {
      ReleaseEffect(s1, h);
    }
  }

  lemma RegistryShrinkKeepsLiveness(s: State, t: State)
    requires t.groups == s.groups && RegistryOk(s)
    requires LosesEmpty(s, t)
    ensures forall user, id :: HasLiveBridge(t, user, id) == HasLiveBridge(s, user, id)
    ensures Settled(s) ==> Settled(t)
  {
  }

  lemma DepartSound(s: State, h: nat, t: State)
    requires Membership(s) && NoLeak(s) && Departs(s, h, t)
    ensures Membership(t) && NoLeak(t)
  {
    StepKeepsSound(s, CheckEmpty(h));
    var s1 := Next(s, CheckEmpty(h));
    if Enabled(s1, Unregister(h)) {
      StepKeepsSound(s1, Unregister(h));
      StepKeepsSound(Next(s1, Unregister(h)), Release(h));
    } else {
      StepKeepsSound(s1, Release(h));
    }
  }

  lemma QuietAfterDeparture(s: State, h: nat, t: State, before: State)
    requires Quiet(before) && t.lock.None? && h in t.handlers && t.handlers[h].phase.Released?
    requires t.handlers.Keys <= before.handlers.Keys + {h}
    requires forall x :: x in t.handlers && x != h ==> t.handlers[x] == before.handlers[x]
    ensures Quiet(t)
  {
  }

  // ---------- Joins ----------

  function Put(groups: seq<Group>, k: nat, g: Group): (r: seq<Group>)
    requires k <= |groups|
    ensures k < |r| && r[k] == g && |groups| <= |r| <= |groups| + 1
    ensures forall j :: 0 <= j < |r| && j != k ==> j < |groups| && r[j] == groups[j]
  {
    if k < |groups| then groups[k := g] else groups + [g]
  }

  /** A handler came in and joined group `k` of its user as `c`. */
  ghost predicate CameIn(s: State, t: State, h: nat, user: string, k: nat, g: Group) {
    && h !in s.handlers && t.handlers.Keys == s.handlers.Keys + {h}
    && t.handlers[h].phase.Joined? && (forall x :: x in s.handlers ==> t.handlers[x] == s.handlers[x])
    && k == HomeIndex(s, user) && k <= |s.groups| && t.groups == Put(s.groups, k, g) && g.user == user
    && t.registry == s.registry[user := k] && t.lock == s.lock
  }

  /** A handler came in and was turned down at the cap. */
  ghost predicate TurnedDown(s: State, t: State, h: nat) {
    && h !in s.handlers && t.handlers.Keys == s.handlers.Keys + {h}
    && t.handlers[h].phase.Exiting? && (forall x :: x in s.handlers ==> t.handlers[x] == s.handlers[x])
    && t.groups == s.groups && t.registry == s.registry && t.lock == s.lock && t.reports == s.reports
  }

  lemma HomeOk(s: State, user: string)
    requires Membership(s)
    ensures HomeIndex(s, user) <= |s.groups| && Home(s, user).Valid() && Home(s, user).user == user
  {
    if user in s.registry { assert GroupOk(s, s.registry[user]); }
  }

  /** What the join itself does, in terms of the state it finds. */
  lemma AddBridgeAt(u: State, h: nat, now: int)
    requires Enabled(u, AddBridge(h, now))
    ensures var t := Next(u, AddBridge(h, now)); var H := u.handlers[h]; var k := H.phase.group;
      var b := NewConnection(h, H.bridgeID, now);
      && t.registry == u.registry && t.lock == u.lock && h in t.handlers && t.handlers.Keys == u.handlers.Keys
      && (forall x :: x in u.handlers && x != h ==> t.handlers[x] == u.handlers[x])
      && if u.groups[k].RoomForBridge(H.bridgeID)
         then t.groups == u.groups[k := u.groups[k].WithBridge(b)] && t.handlers[h].phase.Joined?
              && t.reports == u.reports + [Report(H.user, H.bridgeID, true, Normalize(H.requested), h)]
         else t.groups == u.groups && t.handlers[h].phase.Exiting? && t.reports == u.reports
  {
  }

  lemma AddPhoneAt(u: State, h: nat)
    requires Enabled(u, AddPhone(h))
    ensures var t := Next(u, AddPhone(h)); var H := u.handlers[h]; var k := H.phase.group;
      var p := NewConnection(h, H.bridgeID, 0);
      && t.registry == u.registry && t.lock == u.lock && h in t.handlers && t.handlers.Keys == u.handlers.Keys
      && t.reports == u.reports
      && (forall x :: x in u.handlers && x != h ==> t.handlers[x] == u.handlers[x])
      && if u.groups[k].RoomForPhone()
         then t.groups == u.groups[k := u.groups[k].WithPhone(p)] && t.handlers[h].phase.Joined?
         else t.groups == u.groups && t.handlers[h].phase.Exiting?
  {
  }

  /** What the fetched state has to do with the state before the arrival. */
  lemma FetchedHome(s: State, h: nat, ip: string, user: string, role: Role, id: string, requested: string)
    requires HomeIndex(s, user) <= |s.groups| && (user in s.registry ==> s.registry[user] < |s.groups|)
    requires h !in s.handlers
    ensures var u := AfterFetch(s, h, ip, user, role, id, requested); var k := HomeIndex(s, user);
      && k < |u.groups| && u.groups[k] == Home(s, user) && u.registry == s.registry[user := k]
      && (forall g :: u.groups[k := g] == Put(s.groups, k, g))
      && u.handlers.Keys == s.handlers.Keys + {h} && (forall x :: x in s.handlers ==> u.handlers[x] == s.handlers[x])
      && (user in s.registry ==> u.groups == s.groups && u.registry == s.registry)
  {
  }

  lemma AddBridgeEffect(s: State, h: nat, ip: string, user: string, id: string, requested: string, now: int)
    requires Membership(s) && h !in s.handlers
    requires Enabled(AfterFetch(s, h, ip, user, Bridge, id, requested), AddBridge(h, now))
    ensures var t := Next(AfterFetch(s, h, ip, user, Bridge, id, requested), AddBridge(h, now));
      var g, b := Home(s, user), NewConnection(h, id, now);
      if g.RoomForBridge(id) then
        && CameIn(s, t, h, user, HomeIndex(s, user), g.WithBridge(b))
        && t.reports == s.reports + [Report(user, id, true, Normalize(requested), h)]
      else TurnedDown(s, t, h)
  {
    HomeOk(s, user);
    FetchedHome(s, h, ip, user, Bridge, id, requested);
    AddBridgeAt(AfterFetch(s, h, ip, user, Bridge, id, requested), h, now);
  }

  lemma AddPhoneEffect(s: State, h: nat, ip: string, user: string, pin: string)
    requires Membership(s) && h !in s.handlers
    requires Enabled(AfterFetch(s, h, ip, user, Phone, pin, ""), AddPhone(h))
    ensures var t := Next(AfterFetch(s, h, ip, user, Phone, pin, ""), AddPhone(h));
      var g, p := Home(s, user), NewConnection(h, pin, 0);
      && g.Valid()
      && if g.RoomForPhone() then
           CameIn(s, t, h, user, HomeIndex(s, user), g.WithPhone(p)) && t.reports == s.reports
         else TurnedDown(s, t, h)
  {
    HomeOk(s, user);
    FetchedHome(s, h, ip, user, Phone, pin, "");
    AddPhoneAt(AfterFetch(s, h, ip, user, Phone, pin, ""), h);
  }

  lemma CameInQuiet(s: State, t: State, h: nat, user: string, k: nat, g: Group)
    requires CameIn(s, t, h, user, k, g) && Quiet(s)
    ensures Quiet(t)
  {
  }

  lemma CameInSettled(s: State, t: State, h: nat, user: string, k: nat, g: Group)
    requires CameIn(s, t, h, user, k, g) && Settled(s) && RegistryOk(s)
    ensures Settled(t)
  {
    forall j | 0 <= j < |t.groups| && !t.groups[j].Empty() ensures Lookup(t.registry, t.groups[j].user) == Some(j) {
      if j != k { assert Lookup(s.registry, s.groups[j].user) == Some(j); }
    }
  }

  lemma NewGroupViewOk(user: string, log: Log)
    ensures ViewOk(NewGroup(user), log)
  {
  }

  lemma HomeViewOk(w: World, user: string)
    requires Inv(w)
    ensures ViewOk(Home(w.relay, user), w.log)
  {
    NewGroupViewOk(user, w.log);
  }

  lemma FreshUnwritten(w: World, h: nat)
    requires Known(w) && h !in w.relay.handlers
    ensures Unwritten(w.log, h)
  {
  }

  lemma FreshNotMember(s: State, h: nat, user: string, b: Connection)
    requires Membership(s) && h !in s.handlers && b.handle == h
    ensures b !in Home(s, user).bridges.Values
  {
    var k := HomeIndex(s, user);
    if k < |s.groups| {
      assert GroupOk(s, k);
      assert forall id :: id in s.groups[k].bridges ==> Owned(s, k, s.groups[k].bridges[id], Bridge);
    }
  }

  lemma OneMoreReport(reports: seq<Report>, r: Report, user: string, id: string)
    ensures LastStatus(reports + [r], user, id) ==
      if r.user == user && r.bridgeID == id then Some(r.online) else LastStatus(reports, user, id)
    ensures Alternates(reports + [r], user, id) <==>
      (Alternates(reports, user, id)
       && (r.user == user && r.bridgeID == id && !r.online ==> LastStatus(reports, user, id) == Some(true)))
  {
    assert (reports + [r])[..|reports|] == reports;
  }

  /** One status report that matches the one change of liveness keeps the
      statuses right. */
  lemma StatusFollows(s: State, t: State, r: Report)
    requires StatusesOk(s) && t.reports == s.reports + [r]
    requires forall user, id ::
      HasLiveBridge(t, user, id)
      == (if user == r.user && id == r.bridgeID then r.online else HasLiveBridge(s, user, id))
    requires !r.online ==> HasLiveBridge(s, r.user, r.bridgeID)
    ensures StatusesOk(t)
  {
    forall user, id ensures StatusOk(t.reports, user, id, HasLiveBridge(t, user, id)) {
      assert StatusOk(s.reports, user, id, HasLiveBridge(s, user, id));
      OneMoreReport(s.reports, r, user, id);
    }
  }

  lemma CameInLiveness(s: State, t: State, h: nat, user: string, k: nat, g: Group, u: string, id: string)
    requires CameIn(s, t, h, user, k, g) && RegistryOk(s)
    ensures HasLiveBridge(t, u, id) == if u == user then id in g.bridges else HasLiveBridge(s, u, id)
    ensures HasLiveBridge(s, user, id) == (id in Home(s, user).bridges)
  {
  }

  lemma TurnedDownKeepsInv(w: World, t: State, h: nat)
    requires Inv(w) && Membership(t) && NoLeak(t) && TurnedDown(w.relay, t, h) && Enabled(t, Release(h))
    ensures Inv(World(Next(t, Release(h)), w.log))
  {
    var r := Next(t, Release(h));
    StepKeepsSound(t, Release(h));
    ReleaseEffect(t, h);
    assert forall user, id :: HasLiveBridge(r, user, id) == HasLiveBridge(w.relay, user, id);
  }

  lemma BridgeJoinKeepsInv(w: World, op: Op, v: World)
    requires Inv(w) && op.JoinBridge? && BridgeJoins(w, op, v)
    ensures Inv(v)
  {
    var es := Arrival(op.h, op.ip, op.user, Bridge, op.bridgeID, op.requested, op.now);
    var t, g := Run(w.relay, es), Home(w.relay, op.user);
    RunKeepsMembership(w.relay, es);
    ArrivalEffect(w.relay, op.h, op.ip, op.user, Bridge, op.bridgeID, op.requested, op.now);
    AddBridgeEffect(w.relay, op.h, op.ip, op.user, op.bridgeID, op.requested, op.now);
    if g.RoomForBridge(op.bridgeID) {
      BridgeIn(w, op, v);
    } else {
      TurnedDownKeepsInv(w, t, op.h);
    }
  }

  lemma BridgeIn(w: World, op: Op, v: World)
    requires Inv(w) && op.JoinBridge? && Membership(v.relay) && NoLeak(v.relay) && op.bridgeID != ""
    requires var g, b := Home(w.relay, op.user), NewConnection(op.h, op.bridgeID, op.now);
      && CameIn(w.relay, v.relay, op.h, op.user, HomeIndex(w.relay, op.user), g.WithBridge(b))
      && v.relay.reports == w.relay.reports + [Report(op.user, op.bridgeID, true, Normalize(op.requested), op.h)]
      && ExactReport(g, g.WithBridge(b).bridges, op.changes) && Lists(op.everyone, g.phones)
      && v.log == w.log + ReportNotices(op.changes) + PresenceNotices(op.everyone, op.bridgeID, true)
    ensures Inv(v)
  {
    var s, t, k := w.relay, v.relay, HomeIndex(w.relay, op.user);
    var g, b := Home(s, op.user), NewConnection(op.h, op.bridgeID, op.now);
    CameInQuiet(s, t, op.h, op.user, k, g.WithBridge(b));
    CameInSettled(s, t, op.h, op.user, k, g.WithBridge(b));
    HomeViewOk(w, op.user);
    HomeOk(s, op.user);
    FreshUnwritten(w, op.h);
    FreshNotMember(s, op.h, op.user, b);
    BridgeInNews(t, k, g, b, w.log, op.changes, op.everyone);
    BridgeNewsAddressed(g.WithBridge(b), g.bridges, op.changes, op.everyone, op.bridgeID, true);
    NewsAppended(w.log, op.changes, op.everyone, op.bridgeID, true);
    Heard(w, v, k, g.WithBridge(b), BridgeNews(op.changes, op.everyone, op.bridgeID, true));
    BridgeInStatus(s, t, op.h, op.user, k, g, b);
  }

  /** All a bridge's join or leave has the relay write. */
  function BridgeNews(changes: seq<TargetChange>, everyone: seq<Connection>, id: string, online: bool): Log {
    ReportNotices(changes) + PresenceNotices(everyone, id, online)
  }

  lemma BridgeNewsAddressed(g: Group, before: Bridges, changes: seq<TargetChange>, everyone: seq<Connection>,
                            id: string, online: bool)
    requires Keyed(before) && Keyed(g.bridges) && IsReport(g.phones.Values, before, g.bridges, changes)
    requires Lists(everyone, g.phones)
    ensures AddressedTo(BridgeNews(changes, everyone, id, online), g)
  {
    ReportAddressed(g, before, changes);
    PresenceAddressed(g, everyone, id, online);
  }

  lemma NewsAppended(log: Log, changes: seq<TargetChange>, everyone: seq<Connection>, id: string, online: bool)
    ensures log + BridgeNews(changes, everyone, id, online)
            == log + ReportNotices(changes) + PresenceNotices(everyone, id, online)
  {
  }

  lemma BridgeInNews(t: State, k: nat, g: Group, b: Connection, log: Log,
                     changes: seq<TargetChange>, everyone: seq<Connection>)
    requires k < |t.groups| && GroupOk(t, k) && t.groups[k] == g.WithBridge(b)
    requires g.Valid() && ViewOk(g, log) && Unwritten(log, b.handle) && b !in g.bridges.Values
    requires ExactReport(g, g.WithBridge(b).bridges, changes) && Lists(everyone, g.phones)
    ensures ViewOk(t.groups[k], log + ReportNotices(changes) + PresenceNotices(everyone, b.bridgeID, true))
  {
    MembersDistinct(t, k);
    JoinBridgeViews(g, b, log, changes, everyone);
  }

  /** News that is right for its group and addressed to its members. */
  lemma Heard(w: World, v: World, k: nat, g: Group, more: Log)
    requires Known(w) && AllViewsOk(w.relay.groups, w.log) && Membership(v.relay)
    requires w.relay.handlers.Keys <= v.relay.handlers.Keys
    requires k <= |w.relay.groups| && v.relay.groups == Put(w.relay.groups, k, g)
    requires v.log == w.log + more && AddressedTo(more, g) && ViewOk(g, w.log + more)
    ensures AllViewsOk(v.relay.groups, v.log) && Known(v)
  {
    OnlyGroupHears(w.relay, v.relay, k, w.log, more);
    assert GroupOk(v.relay, k);
    NewsKnown(w, v.relay, k, more);
  }

  lemma BridgeInStatus(s: State, t: State, h: nat, user: string, k: nat, g: Group, b: Connection)
    requires RegistryOk(s) && StatusesOk(s) && g == Home(s, user) && CameIn(s, t, h, user, k, g.WithBridge(b))
    requires |t.reports| == |s.reports| + 1 && t.reports == s.reports + [t.reports[|s.reports|]]
    requires var r := t.reports[|s.reports|]; r.user == user && r.bridgeID == b.bridgeID && r.online
    ensures StatusesOk(t)
  {
    forall u, id ensures HasLiveBridge(t, u, id) ==
      (if u == user && id == b.bridgeID then true else HasLiveBridge(s, u, id))
    {
      CameInLiveness(s, t, h, user, k, g.WithBridge(b), u, id);
    }
    StatusFollows(s, t, t.reports[|s.reports|]);
  }

  lemma PhoneJoinKeepsInv(w: World, op: Op, v: World)
    requires Inv(w) && op.JoinPhone? && PhoneJoins(w, op, v)
    ensures Inv(v)
  {
    var es := Arrival(op.h, op.ip, op.user, Phone, op.pin, "", 0);
    var t, g := Run(w.relay, es), Home(w.relay, op.user);
    RunKeepsMembership(w.relay, es);
    ArrivalEffect(w.relay, op.h, op.ip, op.user, Phone, op.pin, "", 0);
    AddPhoneEffect(w.relay, op.h, op.ip, op.user, op.pin);
    if g.RoomForPhone() {
      PhoneIn(w, op, v);
    } else {
      TurnedDownKeepsInv(w, t, op.h);
    }
  }

  lemma PhoneIn(w: World, op: Op, v: World)
    requires Inv(w) && op.JoinPhone? && Membership(v.relay) && NoLeak(v.relay)
    requires var g, p := Home(w.relay, op.user), NewConnection(op.h, op.pin, 0);
      && g.Valid() && g.RoomForPhone()
      && CameIn(w.relay, v.relay, op.h, op.user, HomeIndex(w.relay, op.user), g.WithPhone(p))
      && v.relay.reports == w.relay.reports
      && v.log == w.log + JoinNotices(g.Admit(p), Target(g.bridges, op.pin))
    ensures Inv(v)
  {
    var s, t, k := w.relay, v.relay, HomeIndex(w.relay, op.user);
    var g, p := Home(s, op.user), NewConnection(op.h, op.pin, 0);
    CameInQuiet(s, t, op.h, op.user, k, g.WithPhone(p));
    CameInSettled(s, t, op.h, op.user, k, g.WithPhone(p));
    HomeViewOk(w, op.user);
    PhoneInViews(w, v, k, g, p, op.user);
    PhoneInStatus(s, t, op.h, op.user, k, g, p);
  }

  lemma PhoneInViews(w: World, v: World, k: nat, g: Group, p: Connection, user: string)
    requires Known(w) && AllViewsOk(w.relay.groups, w.log) && ViewOk(g, w.log)
    requires Membership(v.relay) && g.Valid() && g.RoomForPhone()
    requires CameIn(w.relay, v.relay, p.handle, user, k, g.WithPhone(p))
    requires v.log == w.log + JoinNotices(g.Admit(p), Target(g.bridges, p.bridgeID))
    ensures AllViewsOk(v.relay.groups, v.log) && Known(v)
  {
    assert GroupOk(v.relay, k);
    FreshUnwritten(w, p.handle);
    PhoneInNews(v.relay, k, g, p, w.log);
    Heard(w, v, k, g.WithPhone(p), JoinNotices(g.Admit(p), Target(g.bridges, p.bridgeID)));
  }

  lemma PhoneInNews(t: State, k: nat, g: Group, p: Connection, log: Log)
    requires g.Valid() && g.RoomForPhone() && ViewOk(g, log) && Unwritten(log, p.handle)
    requires k < |t.groups| && GroupOk(t, k) && t.groups[k] == g.WithPhone(p)
    ensures var more := JoinNotices(g.Admit(p), Target(g.bridges, p.bridgeID));
      ViewOk(t.groups[k], log + more) && AddressedTo(more, t.groups[k])
  {
    MembersDistinct(t, k);
    JoinPhoneViews(g, p, log);
    assert t.groups[k].phones[g.Admit(p).connID].handle == p.handle;
  }

  lemma PhoneInStatus(s: State, t: State, h: nat, user: string, k: nat, g: Group, p: Connection)
    requires RegistryOk(s) && StatusesOk(s) && g == Home(s, user) && g.Valid() && g.RoomForPhone()
    requires CameIn(s, t, h, user, k, g.WithPhone(p)) && t.reports == s.reports
    ensures StatusesOk(t)
  {
    forall u, id ensures StatusOk(t.reports, u, id, HasLiveBridge(t, u, id)) {
      CameInLiveness(s, t, h, user, k, g.WithPhone(p), u, id);
      assert StatusOk(s.reports, u, id, HasLiveBridge(s, u, id));
    }
  }

  // ---------- Leaves ----------

  /** A member of group `k` took itself out and is about to clean up. */
  ghost predicate TookOut(s: State, t: State, h: nat, k: nat, g: Group) {
    && h in s.handlers && t.handlers.Keys == s.handlers.Keys
    && (forall x :: x in s.handlers && x != h ==> t.handlers[x] == s.handlers[x])
    && k < |s.groups| && t.groups == s.groups[k := g] && g.user == s.groups[k].user
    && t.registry == s.registry && t.lock == s.lock
    && (s.groups[k].Empty() ==> g.Empty())
  }

  lemma RemoveBridgeEffect(s: State, h: nat)
    requires Membership(s) && Enabled(s, RemoveBridge(h)) && s.lock.None?
    ensures var k, b := s.handlers[h].phase.group, s.handlers[h].phase.conn;
      var g := s.groups[k]; var s1 := Next(s, RemoveBridge(h)); var s2 := Next(s1, CheckLive(h));
      && Enabled(s1, CheckLive(h))
      && TookOut(s, s2, h, k, if Current(g.bridges, b) then g.WithoutBridge(b.bridgeID) else g)
      && s1.groups == s2.groups && s1.registry == s.registry
      && s2.reports == s.reports + (
        if Current(g.bridges, b) && !HasLiveBridge(s1, s.handlers[h].user, b.bridgeID)
        then [Report(s.handlers[h].user, b.bridgeID, false, s.handlers[h].disconnectPolicy, h)] else [])
  {
    assert HandlerOk(s, h);
  }

  lemma RemovePhoneEffect(s: State, h: nat)
    requires Membership(s) && Enabled(s, RemovePhone(h))
    ensures var k, p := s.handlers[h].phase.group, s.handlers[h].phase.conn;
      var t := Next(s, RemovePhone(h));
      TookOut(s, t, h, k, s.groups[k].WithoutPhone(p.connID)) && t.reports == s.reports
  {
    assert HandlerOk(s, h);
    EmptyStaysEmpty(s.groups[s.handlers[h].phase.group], s.handlers[h].phase.conn.connID);
  }

  lemma EmptyStaysEmpty(g: Group, connID: nat)
    ensures g.Empty() ==> g.WithoutPhone(connID).Empty()
  {
  }

  lemma TookOutSettled(s: State, t: State, h: nat, k: nat, g: Group)
    requires TookOut(s, t, h, k, g) && Settled(s)
    ensures Settled(t)
  {
  }

  lemma TookOutLiveness(s: State, t: State, h: nat, k: nat, g: Group, user: string, id: string)
    requires TookOut(s, t, h, k, g) && RegistryOk(s)
    ensures HasLiveBridge(t, user, id) ==
      if Lookup(s.registry, user) == Some(k) then id in g.bridges else HasLiveBridge(s, user, id)
    ensures Lookup(s.registry, user) == Some(k) ==> HasLiveBridge(s, user, id) == (id in s.groups[k].bridges)
  {
  }

  /** The departure after a leave keeps everything but the registry entry of an
      empty group. */
  lemma AfterDeparture(w: World, t: State, h: nat, v: World)
    requires Quiet(w.relay) && t.handlers.Keys == w.relay.handlers.Keys
    requires forall x :: x in w.relay.handlers && x != h ==> t.handlers[x] == w.relay.handlers[x]
    requires Membership(t) && NoLeak(t) && Settled(t) && StatusesOk(t)
    requires Departs(t, h, v.relay) && Known(World(t, v.log)) && AllViewsOk(t.groups, v.log)
    ensures Inv(v)
  {
    DepartEffect(t, h, v.relay);
    DepartSound(t, h, v.relay);
    RegistryShrinkKeepsLiveness(t, v.relay);
    QuietAfterDeparture(t, h, v.relay, w.relay);
  }

  lemma PhoneLeaveKeepsInv(w: World, op: Op, v: World)
    requires Inv(w) && op.LeavePhone? && PhoneLeaves(w, op, v)
    ensures Inv(v)
  {
    var s, t := w.relay, Next(w.relay, RemovePhone(op.h));
    var k, p := s.handlers[op.h].phase.group, s.handlers[op.h].phase.conn;
    var g := s.groups[k];
    StepKeepsSound(s, RemovePhone(op.h));
    RemovePhoneEffect(s, op.h);
    TookOutSettled(s, t, op.h, k, g.WithoutPhone(p.connID));
    PhoneOutNews(s, t, op.h, w.log);
    Heard(w, World(t, v.log), k, g.WithoutPhone(p.connID), LeaveNotices(p, Target(g.bridges, p.bridgeID)));
    forall user, id ensures StatusOk(t.reports, user, id, HasLiveBridge(t, user, id)) {
      TookOutLiveness(s, t, op.h, k, g.WithoutPhone(p.connID), user, id);
      assert StatusOk(s.reports, user, id, HasLiveBridge(s, user, id));
    }
    AfterDeparture(w, t, op.h, v);
  }

  lemma PhoneOutNews(s: State, t: State, h: nat, log: Log)
    requires Membership(s) && Enabled(s, RemovePhone(h)) && AllViewsOk(s.groups, log)
    ensures var k, p := s.handlers[h].phase.group, s.handlers[h].phase.conn;
      var g := s.groups[k];
      var more := LeaveNotices(p, Target(g.bridges, p.bridgeID));
      ViewOk(g.WithoutPhone(p.connID), log + more) && AddressedTo(more, g.WithoutPhone(p.connID))
  {
    var k, p := s.handlers[h].phase.group, s.handlers[h].phase.conn;
    assert HandlerOk(s, h) && GroupOk(s, k);
    MembersDistinct(s, k);
    LeavePhoneViews(s.groups[k], p, log);
  }

  lemma BridgeLeaveKeepsInv(w: World, op: Op, v: World)
    requires Inv(w) && op.LeaveBridge? && BridgeLeaves(w, op, v)
    ensures Inv(v)
  {
    var s, h := w.relay, op.h;
    var k, b := s.handlers[h].phase.group, s.handlers[h].phase.conn;
    var g := s.groups[k];
    var s1 := Next(s, RemoveBridge(h));
    var t := Next(s1, CheckLive(h));
    StepKeepsSound(s, RemoveBridge(h));
    StepKeepsSound(s1, CheckLive(h));
    RemoveBridgeEffect(s, h);
    assert HandlerOk(s, h) && GroupOk(s, k);
    if Current(g.bridges, b) {
      BridgeOut(w, op, v, t);
    } else {
      assert t.groups == s.groups;
      TookOutSettled(s, t, h, k, g);
      forall user, id ensures StatusOk(t.reports, user, id, HasLiveBridge(t, user, id)) {
        TookOutLiveness(s, t, h, k, g, user, id);
        assert StatusOk(s.reports, user, id, HasLiveBridge(s, user, id));
      }
    }
    AfterDeparture(w, t, h, v);
  }

  /** In a serial run a leaving current bridge is always noticed: no other
      instance of the group hides it. */
  lemma LeaveIsNoticed(s: State, h: nat)
    requires Membership(s) && Settled(s) && Enabled(s, RemoveBridge(h))
    requires Current(s.groups[s.handlers[h].phase.group].bridges, s.handlers[h].phase.conn)
    ensures Lookup(s.registry, s.handlers[h].user) == Some(s.handlers[h].phase.group)
    ensures s.groups[s.handlers[h].phase.group].user == s.handlers[h].user
    ensures !HasLiveBridge(Next(s, RemoveBridge(h)), s.handlers[h].user, s.handlers[h].phase.conn.bridgeID)
  {
    assert HandlerOk(s, h);
  }

  lemma BridgeOut(w: World, op: Op, v: World, t: State)
    requires Inv(w) && op.LeaveBridge? && BridgeLeaves(w, op, v)
    requires Current(w.relay.groups[w.relay.handlers[op.h].phase.group].bridges, w.relay.handlers[op.h].phase.conn)
    requires t == Next(Next(w.relay, RemoveBridge(op.h)), CheckLive(op.h)) && Membership(t)
    ensures Settled(t) && StatusesOk(t) && AllViewsOk(t.groups, v.log) && Known(World(t, v.log))
  {
    var s, h := w.relay, op.h;
    var k, b := s.handlers[h].phase.group, s.handlers[h].phase.conn;
    RemoveBridgeEffect(s, h);
    LeaveIsNoticed(s, h);
    TookOutSettled(s, t, h, k, s.groups[k].WithoutBridge(b.bridgeID));
    BridgeOutNews(s, k, b, w.log, op.changes, op.everyone);
    BridgeNewsAddressed(s.groups[k].WithoutBridge(b.bridgeID), s.groups[k].bridges, op.changes, op.everyone,
                        b.bridgeID, false);
    NewsAppended(w.log, op.changes, op.everyone, b.bridgeID, false);
    Heard(w, World(t, v.log), k, s.groups[k].WithoutBridge(b.bridgeID),
          BridgeNews(op.changes, op.everyone, b.bridgeID, false));
    BridgeOutStatus(s, t, h, k, b);
  }

  lemma BridgeOutStatus(s: State, t: State, h: nat, k: nat, b: Connection)
    requires RegistryOk(s) && StatusesOk(s) && k < |s.groups| && Current(s.groups[k].bridges, b)
    requires TookOut(s, t, h, k, s.groups[k].WithoutBridge(b.bridgeID))
    requires Lookup(s.registry, s.groups[k].user) == Some(k)
    requires |t.reports| == |s.reports| + 1 && t.reports == s.reports + [t.reports[|s.reports|]]
    requires var r := t.reports[|s.reports|]; r.user == s.groups[k].user && r.bridgeID == b.bridgeID && !r.online
    ensures StatusesOk(t)
  {
    var g := s.groups[k];
    forall user, id ensures HasLiveBridge(t, user, id) ==
      (if user == g.user && id == b.bridgeID then false else HasLiveBridge(s, user, id))
    {
      TookOutLiveness(s, t, h, k, g.WithoutBridge(b.bridgeID), user, id);
    }
    StatusFollows(s, t, t.reports[|s.reports|]);
  }

  lemma BridgeOutNews(s: State, k: nat, b: Connection, log: Log, changes: seq<TargetChange>, everyone: seq<Connection>)
    requires k < |s.groups| && GroupOk(s, k) && Current(s.groups[k].bridges, b) && ViewOk(s.groups[k], log)
    requires ExactReport(s.groups[k], s.groups[k].WithoutBridge(b.bridgeID).bridges, changes)
    requires Lists(everyone, s.groups[k].phones)
    ensures ViewOk(s.groups[k].WithoutBridge(b.bridgeID),
                   log + ReportNotices(changes) + PresenceNotices(everyone, b.bridgeID, false))
  {
    MembersDistinct(s, k);
    LeaveBridgeKeepsValid(s.groups[k], b.bridgeID);
    LeaveBridgeViews(s.groups[k], b, log, changes, everyone);
  }

  // ---------- Every serial run ----------

  lemma OtherStepKeepsInv(w: World, op: Op, v: World)
    requires Inv(w) && Step(w, op, v) && (op.Announce? || op.TurnedAway?)
    ensures Inv(v)
  {
    var e := if op.Announce? then PolicyMessage(op.h, op.policy) else Refuse(op.ip);
    StepKeepsSound(w.relay, e);
    assert v.relay.groups == w.relay.groups && v.relay.registry == w.relay.registry;
    assert v.relay.reports == w.relay.reports;
    assert forall user, id :: HasLiveBridge(v.relay, user, id) == HasLiveBridge(w.relay, user, id);
  }

  /** A handler that gives up before it has a group leaves only its own record. */
  lemma GivenUpEffect(s: State, a: Event, h: nat)
    requires a.Arrive? && a.h == h && Legal(s, [a, Abandon(h), Release(h)])
    ensures var t := Run(s, [a, Abandon(h), Release(h)]);
      && t.groups == s.groups && t.registry == s.registry && t.reports == s.reports && t.lock == s.lock
      && t.handlers.Keys == s.handlers.Keys + {h} && t.handlers[h].phase.Released?
      && forall x :: x in s.handlers && x != h ==> t.handlers[x] == s.handlers[x]
  {
    Three(s, a, Abandon(h), Release(h));
    ReleaseEffect(Next(Next(s, a), Abandon(h)), h);
  }

  lemma SameGroupsKeepInv(w: World, v: World)
    requires Inv(w) && Membership(v.relay) && NoLeak(v.relay) && Quiet(v.relay) && v.log == w.log
    requires v.relay.groups == w.relay.groups && v.relay.registry == w.relay.registry
    requires v.relay.reports == w.relay.reports && w.relay.handlers.Keys <= v.relay.handlers.Keys
    ensures Inv(v)
  {
    assert forall user, id :: HasLiveBridge(v.relay, user, id) == HasLiveBridge(w.relay, user, id);
  }

  lemma GivenUpKeepsInv(w: World, op: Op, v: World)
    requires Inv(w) && op.GivenUp? && Step(w, op, v)
    ensures Inv(v)
  {
    var a := Arrive(op.h, op.ip, op.user, op.role, op.bridgeID, op.requested);
    RunKeepsMembership(w.relay, [a, Abandon(op.h), Release(op.h)]);
    GivenUpEffect(w.relay, a, op.h);
    QuietAfterDeparture(v.relay, op.h, v.relay, w.relay);
    SameGroupsKeepInv(w, v);
  }

  lemma StepKeepsInv(w: World, op: Op, v: World)
    requires Inv(w) && Step(w, op, v)
    ensures Inv(v)
  {
    match op {
      case JoinBridge(_, _, _, _, _, _, _, _) => BridgeJoinKeepsInv(w, op, v);
      case LeaveBridge(_, _, _) => BridgeLeaveKeepsInv(w, op, v);
      case JoinPhone(_, _, _, _) => PhoneJoinKeepsInv(w, op, v);
      case LeavePhone(_) => PhoneLeaveKeepsInv(w, op, v);
      case GivenUp(_, _, _, _, _, _) => GivenUpKeepsInv(w, op, v);
      case _ => OtherStepKeepsInv(w, op, v);
    }
  }

  /** `worlds` is what a serial run of `ops` passes through. */
  ghost predicate SerialRun(limit: int, ops: seq<Op>, worlds: seq<World>) {
    && |worlds| == |ops| + 1 && worlds[0] == World(Init(limit), [])
    && forall i :: 0 <= i < |ops| ==> Step(worlds[i], ops[i], worlds[i + 1])
  }

  lemma {:induction false} RunKeepsInv(limit: int, ops: seq<Op>, worlds: seq<World>, n: nat)
    requires SerialRun(limit, ops, worlds) && n < |worlds|
    ensures Inv(worlds[n])
    decreases n
  {
    if n > 0 {
      RunKeepsInv(limit, ops, worlds, n - 1);
      StepKeepsInv(worlds[n - 1], ops[n - 1], worlds[n]);
    }
  }

  /** View agreement: after every operation of every serial run, replaying what
      each peer was sent gives the truth. A current bridge believes in exactly
      the connIds of the phones whose target it is and was never told of one
      twice or of the leave of one it did not have; a phone's last notice names
      its target, or says it has none (naming the bridge a pinned phone waits
      for); its last word on any bridge id is
      whether that id is live. */
  lemma ViewsAgree(limit: int, ops: seq<Op>, worlds: seq<World>, n: nat, k: nat)
    requires SerialRun(limit, ops, worlds) && n < |worlds| && k < |worlds[n].relay.groups|
    ensures var g, log := worlds[n].relay.groups[k], worlds[n].log;
      && g.Valid()
      && (forall b :: Current(g.bridges, b) ==>
            CleanFor(log, b.handle) && BridgeView(log, b.handle) == set p | p in g.PhonesTargeting(b) :: p.connID)
      && (forall p :: Registered(g.phones, p) ==>
            match g.BridgeForPhone(p)
            case Some(b) => TargetNotice(log, p.handle) == Some(BridgeConnected(b.bridgeID))
            case None => ToldNoBridge(p, log))
      && (forall p, id :: Registered(g.phones, p) && LastPresence(log, p.handle, id).Some? ==>
            LastPresence(log, p.handle, id).value == (id in g.bridges))
  {
    RunKeepsInv(limit, ops, worlds, n);
    assert GroupOk(worlds[n].relay, k);
    ViewMeans(worlds[n].relay.groups[k], worlds[n].log);
  }

  /** Status agreement: the last report about a bridge id says offline, or there
      is none, exactly when the id is not live, and between two offline reports
      there is an online one. */
  lemma StatusesAgree(limit: int, ops: seq<Op>, worlds: seq<World>, n: nat, user: string, id: string)
    requires SerialRun(limit, ops, worlds) && n < |worlds|
    ensures var s := worlds[n].relay;
      && (HasLiveBridge(s, user, id) <==> LastStatus(s.reports, user, id) == Some(true))
      && Alternates(s.reports, user, id)
  {
    RunKeepsInv(limit, ops, worlds, n);
    assert StatusOk(worlds[n].relay.reports, user, id, HasLiveBridge(worlds[n].relay, user, id));
  }
}
