/** The relay as a step system. Any number of connection handlers run at once;
    each event is one critical section of one handler, so a sequence of events
    is an interleaving of the handlers. Group instances are never reused: a
    group is named by the order of its creation, and an unregistered one stays
    reachable by the handlers that fetched it. */
module Relay {
  import opened Connections
  import opened Routing
  import opened Groups
  import opened RateLimits
  import opened Policies

  datatype Role = Bridge | Phone

  datatype Phase =
    | Admitted                                // past the limiter, not yet in a group
    | Fetched(group: nat)                     // holds a group, not yet added to it
    | Joined(group: nat, conn: Connection)    // added; serves the socket
    | Left(group: nat, wasCurrent: bool)      // bridge removed, liveness not checked
    | Checked(group: nat)                     // only the registry cleanup is left
    | Emptied(group: nat)                     // inside the cleanup, saw its group empty
    | Exiting                                 // only the limiter release is left
    | Released

  datatype Handler = Handler(
    ip: string, user: string, role: Role, bridgeID: string, requested: string,
    phase: Phase, disconnectPolicy: string, stream: seq<string>)

  /** A bridge-status report, logged when the relay decides to send it. */
  datatype Report = Report(user: string, bridgeID: string, online: bool, policy: string, handle: nat)

  datatype State = State(
    limit: int, counts: Counts, rejected: nat,
    groups: seq<Group>, registry: map<string, nat>, lock: Option<nat>,
    handlers: map<nat, Handler>, reports: seq<Report>)

  function Init(limit: int): State {
    State(limit, map[], 0, [], map[], None, map[], [])
  }

  datatype Event =
    | Arrive(h: nat, ip: string, user: string, role: Role, bridgeID: string, requested: string)
    | Refuse(ip: string)
    | Abandon(h: nat)
    | Fetch(h: nat)
    | AddBridge(h: nat, now: int)
    | AddPhone(h: nat)
    | PolicyMessage(h: nat, policy: string)
    | RemoveBridge(h: nat)
    | RemovePhone(h: nat)
    | CheckLive(h: nat)
    | CheckEmpty(h: nat)
    | Unregister(h: nat)
    | Release(h: nat)

  predicate Is(s: State, h: nat, role: Role) { h in s.handlers && s.handlers[h].role == role }

  /** The group of handler `h` exists and is well formed; see GuardsHold. */
  ghost predicate Guard(s: State, k: nat) { k < |s.groups| && s.groups[k].Valid() }

  ghost predicate Enabled(s: State, e: Event) {
    match e
    case Arrive(h, ip, _, _, _, _) => h !in s.handlers && CountOf(s.counts, ip) < s.limit
    case Refuse(ip) => CountOf(s.counts, ip) >= s.limit
    case Abandon(h) => h in s.handlers && s.handlers[h].phase.Admitted?
    case Fetch(h) =>
      && h in s.handlers && s.handlers[h].phase.Admitted? && s.lock.None?
      && (s.handlers[h].role.Bridge? ==> s.handlers[h].bridgeID != "")
    case AddBridge(h, _) => Is(s, h, Bridge) && s.handlers[h].phase.Fetched? && Guard(s, s.handlers[h].phase.group)
    case AddPhone(h) => Is(s, h, Phone) && s.handlers[h].phase.Fetched? && Guard(s, s.handlers[h].phase.group)
    case PolicyMessage(h, _) => Is(s, h, Bridge) && s.handlers[h].phase.Joined? && Guard(s, s.handlers[h].phase.group)
    case RemoveBridge(h) => Is(s, h, Bridge) && s.handlers[h].phase.Joined? && Guard(s, s.handlers[h].phase.group)
    case RemovePhone(h) => Is(s, h, Phone) && s.handlers[h].phase.Joined? && Guard(s, s.handlers[h].phase.group)
    case CheckLive(h) => h in s.handlers && s.handlers[h].phase.Left? && s.lock.None?
    case CheckEmpty(h) =>
      h in s.handlers && s.handlers[h].phase.Checked? && s.lock.None? && Guard(s, s.handlers[h].phase.group)
    case Unregister(h) => h in s.handlers && s.handlers[h].phase.Emptied?
    case Release(h) => h in s.handlers && s.handlers[h].phase.Exiting?
  }

  function To(s: State, h: nat, phase: Phase): State
    requires h in s.handlers
  {
    s.(handlers := s.handlers[h := s.handlers[h].(phase := phase)])
  }

  function SetGroup(s: State, k: nat, g: Group): State
    requires k < |s.groups|
  {
    s.(groups := s.groups[k := g])
  }

  /** Whether the user's registered group has a bridge with this id. */
  predicate HasLiveBridge(s: State, user: string, bridgeID: string) {
    user in s.registry && s.registry[user] < |s.groups| && bridgeID in s.groups[s.registry[user]].bridges
  }

  /** The connection a handler creates. */
  function NewConnection(h: nat, bridgeID: string, now: int): Connection {
    Connection(h, 0, bridgeID, now)
  }

  ghost function Next(s: State, e: Event): State
    requires Enabled(s, e)
  {
    match e
    case Arrive(h, ip, user, role, bridgeID, requested) =>
      s.(counts := RateLimits.Admitted(s.counts, ip),
         handlers := s.handlers[h := Handler(ip, user, role, bridgeID, requested, Admitted, Normalize(requested), [])])
    case Refuse(_) => s.(rejected := s.rejected + 1)
    case Abandon(h) => To(s, h, Exiting)
    case Fetch(h) =>
      var user := s.handlers[h].user;
      if user in s.registry then To(s, h, Fetched(s.registry[user]))
      else
        To(s.(groups := s.groups + [NewGroup(user)], registry := s.registry[user := |s.groups|]),
           h, Fetched(|s.groups|))
    case AddBridge(h, now) =>
      var H := s.handlers[h];
      var k := H.phase.group;
      var b := NewConnection(h, H.bridgeID, now);
      if !s.groups[k].RoomForBridge(H.bridgeID) then To(s, h, Exiting)
      else
        To(SetGroup(s, k, s.groups[k].WithBridge(b)), h, Joined(k, b))
        .(reports := s.reports + [Report(H.user, H.bridgeID, true, Normalize(H.requested), h)])
    case AddPhone(h) =>
      var H := s.handlers[h];
      var k := H.phase.group;
      var p := NewConnection(h, H.bridgeID, 0);
      if !s.groups[k].RoomForPhone() then To(s, h, Exiting)
      else To(SetGroup(s, k, s.groups[k].WithPhone(p)), h, Joined(k, s.groups[k].Admit(p)))
    case PolicyMessage(h, policy) =>
      var H := s.handlers[h];
      var accepted := Current(s.groups[H.phase.group].bridges, H.phase.conn);
      s.(handlers := s.handlers[h := H.(
        stream := H.stream + [policy],
        disconnectPolicy := if accepted then Sticky(H.disconnectPolicy, Normalize(policy)) else H.disconnectPolicy)])
    case RemoveBridge(h) =>
      var Joined(k, b) := s.handlers[h].phase;
      if Current(s.groups[k].bridges, b)
      then To(SetGroup(s, k, s.groups[k].WithoutBridge(b.bridgeID)), h, Left(k, true))
      else To(s, h, Left(k, false))
    case RemovePhone(h) =>
      var Joined(k, p) := s.handlers[h].phase;
      To(SetGroup(s, k, s.groups[k].WithoutPhone(p.connID)), h, Checked(k))
    case CheckLive(h) =>
      var H := s.handlers[h];
      var notify := H.phase.wasCurrent && !HasLiveBridge(s, H.user, H.bridgeID);
      To(s, h, Checked(H.phase.group))
      .(reports := if notify
                   then s.reports + [Report(H.user, H.bridgeID, false, H.disconnectPolicy, h)]
                   else s.reports)
    case CheckEmpty(h) =>
      var H := s.handlers[h];
      var k := H.phase.group;
      if Lookup(s.registry, H.user) == Some(k) && s.groups[k].Empty()
      then To(s, h, Emptied(k)).(lock := Some(h))
      else To(s, h, Exiting)
    case Unregister(h) =>
      To(s, h, Exiting).(registry := s.registry - {s.handlers[h].user}, lock := None)
    case Release(h) =>
      To(s, h, Phase.Released).(counts := RateLimits.Released(s.counts, s.handlers[h].ip))
  }

  ghost predicate Legal(s: State, es: seq<Event>)
    decreases |es|
  {
    es == [] || (Enabled(s, es[0]) && Legal(Next(s, es[0]), es[1..]))
  }

  ghost function Run(s: State, es: seq<Event>): State
    requires Legal(s, es)
    decreases |es|
  {
    if es == [] then s else Run(Next(s, es[0]), es[1..])
  }

  // ---------- Who is in which group ----------

  ghost predicate InGroup(s: State, k: nat, user: string) {
    k < |s.groups| && s.groups[k].user == user
  }

  ghost predicate HandlerOk(s: State, h: nat)
    requires h in s.handlers
  {
    var H := s.handlers[h];
    match H.phase
    case Fetched(k) => InGroup(s, k, H.user) && (H.role.Bridge? ==> H.bridgeID != "")
    case Joined(k, c) =>
      && InGroup(s, k, H.user) && c.handle == h && c.bridgeID == H.bridgeID
      && (H.role.Phone? ==> Registered(s.groups[k].phones, c))
    case Left(k, _) => InGroup(s, k, H.user) && H.role.Bridge?
    case Checked(k) => InGroup(s, k, H.user)
    case Emptied(k) => InGroup(s, k, H.user) && Lookup(s.registry, H.user) == Some(k) && s.lock == Some(h)
    case _ => true
  }

  /** `c` belongs to a handler of this role that is in group `k`. */
  ghost predicate Owned(s: State, k: nat, c: Connection, role: Role) {
    Is(s, c.handle, role) && s.handlers[c.handle].phase == Joined(k, c)
  }

  ghost predicate GroupOk(s: State, k: nat)
    requires k < |s.groups|
  {
    && s.groups[k].Valid()
    && (forall id :: id in s.groups[k].bridges ==> Owned(s, k, s.groups[k].bridges[id], Bridge))
    && (forall c :: c in s.groups[k].phones ==> Owned(s, k, s.groups[k].phones[c], Phone))
  }

  ghost predicate RegistryOk(s: State) {
    forall user :: user in s.registry ==> InGroup(s, s.registry[user], user)
  }

  ghost predicate LockOk(s: State) {
    s.lock.Some? ==> s.lock.value in s.handlers && s.handlers[s.lock.value].phase.Emptied?
  }

  ghost predicate Membership(s: State) {
    && (forall h :: h in s.handlers ==> HandlerOk(s, h))
    && (forall k :: 0 <= k < |s.groups| ==> GroupOk(s, k))
    && RegistryOk(s)
    && LockOk(s)
  }

  /** Everybody who is in group `k` still is. */
  ghost predicate KeepsJoined(s: State, t: State, k: nat) {
    forall x :: x in s.handlers && s.handlers[x].phase.Joined? && s.handlers[x].phase.group == k ==>
      x in t.handlers && t.handlers[x].role == s.handlers[x].role && t.handlers[x].phase == s.handlers[x].phase
  }

  lemma OwnedFrame(s: State, t: State, k: nat, c: Connection, role: Role)
    requires KeepsJoined(s, t, k) && Owned(s, k, c, role)
    ensures Owned(t, k, c, role)
  {
  }

  lemma GroupFrame(s: State, t: State, k: nat)
    requires k < |s.groups| && k < |t.groups| && t.groups[k] == s.groups[k]
    requires GroupOk(s, k) && KeepsJoined(s, t, k)
    ensures GroupOk(t, k)
  {
    var g := s.groups[k];
    forall id | id in g.bridges ensures Owned(t, k, g.bridges[id], Bridge) {
      OwnedFrame(s, t, k, g.bridges[id], Bridge);
    }
    forall c | c in g.phones ensures Owned(t, k, g.phones[c], Phone) {
      OwnedFrame(s, t, k, g.phones[c], Phone);
    }
  }

  /** A handler that did not move keeps its place as long as its group, its
      phone entry and its claim on the registry are untouched. */
  lemma HandlerFrame(s: State, t: State, x: nat)
    requires x in s.handlers && x in t.handlers && t.handlers[x] == s.handlers[x] && HandlerOk(s, x)
    requires |s.groups| <= |t.groups| && forall k :: 0 <= k < |s.groups| ==> t.groups[k].user == s.groups[k].user
    requires var H := s.handlers[x]; H.phase.Joined? && H.role.Phone? ==>
      Registered(t.groups[H.phase.group].phones, H.phase.conn)
    requires var H := s.handlers[x]; H.phase.Emptied? ==>
      t.lock == s.lock && Lookup(t.registry, H.user) == Lookup(s.registry, H.user)
    ensures HandlerOk(t, x)
  {
  }

  // Per event: what happens to one group, and to one handler.

  lemma QuietHandler(s: State, e: Event, x: nat)
    requires Enabled(s, e) && x in Next(s, e).handlers && (x in s.handlers ==> HandlerOk(s, x))
    requires e.Arrive? || e.Refuse? || e.Abandon? || e.PolicyMessage? || e.CheckLive? || e.CheckEmpty? || e.Release?
    ensures HandlerOk(Next(s, e), x)
  {
    var t := Next(s, e);
    if x in s.handlers && t.handlers[x] == s.handlers[x] { HandlerFrame(s, t, x); }
  }

  lemma QuietFrame(s: State, e: Event, j: nat)
    requires Enabled(s, e) && j < |s.groups|
    requires !e.Fetch? && !e.AddBridge? && !e.AddPhone? && !e.RemoveBridge? && !e.RemovePhone?
    ensures Next(s, e).groups == s.groups && KeepsJoined(s, Next(s, e), j)
  {
  }

  lemma QuietGroup(s: State, e: Event, j: nat)
    requires Enabled(s, e) && j < |s.groups| && GroupOk(s, j)
    requires !e.Fetch? && !e.AddBridge? && !e.AddPhone? && !e.RemoveBridge? && !e.RemovePhone?
    ensures j < |Next(s, e).groups| && GroupOk(Next(s, e), j)
  {
    QuietFrame(s, e, j);
    GroupFrame(s, Next(s, e), j);
  }

  lemma FetchFrame(s: State, h: nat, j: nat)
    requires Enabled(s, Fetch(h)) && j < |Next(s, Fetch(h)).groups|
    ensures j < |s.groups| ==> Next(s, Fetch(h)).groups[j] == s.groups[j] && KeepsJoined(s, Next(s, Fetch(h)), j)
    ensures j >= |s.groups| ==> Next(s, Fetch(h)).groups[j] == NewGroup(s.handlers[h].user)
  {
  }

  lemma FetchGroup(s: State, h: nat, j: nat)
    requires Enabled(s, Fetch(h)) && j < |Next(s, Fetch(h)).groups| && (j < |s.groups| ==> GroupOk(s, j))
    ensures GroupOk(Next(s, Fetch(h)), j)
  {
    FetchFrame(s, h, j);
    if j < |s.groups| { GroupFrame(s, Next(s, Fetch(h)), j); }
  }

  lemma FetchHandler(s: State, h: nat, x: nat)
    requires Enabled(s, Fetch(h)) && x in s.handlers && HandlerOk(s, x)
    requires RegistryOk(s)
    requires s.handlers[x].phase.Emptied? ==> s.lock == Some(x)
    ensures HandlerOk(Next(s, Fetch(h)), x)
  {
    if x != h { HandlerFrame(s, Next(s, Fetch(h)), x); }
  }

  lemma BridgeEnters(s: State, t: State, j: nat, b: Connection)
    requires j < |s.groups| && j < |t.groups| && GroupOk(s, j) && KeepsJoined(s, t, j)
    requires b.bridgeID != "" && s.groups[j].RoomForBridge(b.bridgeID) && Owned(t, j, b, Bridge)
    requires t.groups[j] == s.groups[j].WithBridge(b)
    ensures GroupOk(t, j)
  {
    var g := s.groups[j];
    JoinBridgeKeepsValid(g, b);
    forall id | id in t.groups[j].bridges ensures Owned(t, j, t.groups[j].bridges[id], Bridge) {
      if id != b.bridgeID { OwnedFrame(s, t, j, g.bridges[id], Bridge); }
    }
    forall c | c in t.groups[j].phones ensures Owned(t, j, t.groups[j].phones[c], Phone) {
      OwnedFrame(s, t, j, g.phones[c], Phone);
    }
  }

  lemma AddBridgeFrame(s: State, h: nat, now: int, j: nat)
    requires Enabled(s, AddBridge(h, now)) && j < |s.groups|
    ensures var t := Next(s, AddBridge(h, now)); var b := NewConnection(h, s.handlers[h].bridgeID, now);
      && KeepsJoined(s, t, j) && |t.groups| == |s.groups|
      && if j == s.handlers[h].phase.group && s.groups[j].RoomForBridge(b.bridgeID)
         then t.groups[j] == s.groups[j].WithBridge(b) && Owned(t, j, b, Bridge)
         else t.groups[j] == s.groups[j]
  {
  }

  lemma AddBridgeGroup(s: State, h: nat, now: int, j: nat)
    requires Enabled(s, AddBridge(h, now)) && HandlerOk(s, h) && j < |s.groups| && GroupOk(s, j)
    ensures GroupOk(Next(s, AddBridge(h, now)), j)
  {
    var t := Next(s, AddBridge(h, now));
    var b := NewConnection(h, s.handlers[h].bridgeID, now);
    AddBridgeFrame(s, h, now, j);
    if j == s.handlers[h].phase.group && s.groups[j].RoomForBridge(b.bridgeID) {
      BridgeEnters(s, t, j, b);
    } else {
      GroupFrame(s, t, j);
    }
  }

  lemma AddBridgeHandler(s: State, h: nat, now: int, x: nat)
    requires Enabled(s, AddBridge(h, now)) && HandlerOk(s, h) && x in s.handlers && HandlerOk(s, x)
    ensures HandlerOk(Next(s, AddBridge(h, now)), x)
  {
    if x != h { HandlerFrame(s, Next(s, AddBridge(h, now)), x); }
  }

  lemma PhoneEnters(s: State, t: State, j: nat, p: Connection)
    requires j < |s.groups| && j < |t.groups| && GroupOk(s, j) && KeepsJoined(s, t, j)
    requires s.groups[j].RoomForPhone() && Owned(t, j, s.groups[j].Admit(p), Phone)
    requires t.groups[j] == s.groups[j].WithPhone(p)
    ensures GroupOk(t, j)
  {
    var g := s.groups[j];
    JoinPhoneKeepsValid(g, p);
    forall id | id in t.groups[j].bridges ensures Owned(t, j, t.groups[j].bridges[id], Bridge) {
      OwnedFrame(s, t, j, g.bridges[id], Bridge);
    }
    forall c | c in t.groups[j].phones ensures Owned(t, j, t.groups[j].phones[c], Phone) {
      if c != g.Admit(p).connID { OwnedFrame(s, t, j, g.phones[c], Phone); }
    }
  }

  lemma AddPhoneFrame(s: State, h: nat, j: nat)
    requires Enabled(s, AddPhone(h)) && j < |s.groups|
    ensures var t := Next(s, AddPhone(h)); var p := NewConnection(h, s.handlers[h].bridgeID, 0);
      && KeepsJoined(s, t, j) && |t.groups| == |s.groups|
      && if j == s.handlers[h].phase.group && s.groups[j].RoomForPhone()
         then s.groups[j].Valid() && t.groups[j] == s.groups[j].WithPhone(p) && Owned(t, j, s.groups[j].Admit(p), Phone)
         else t.groups[j] == s.groups[j]
  {
  }

  lemma AddPhoneGroup(s: State, h: nat, j: nat)
    requires Enabled(s, AddPhone(h)) && HandlerOk(s, h) && j < |s.groups| && GroupOk(s, j)
    ensures GroupOk(Next(s, AddPhone(h)), j)
  {
    var t := Next(s, AddPhone(h));
    var p := NewConnection(h, s.handlers[h].bridgeID, 0);
    AddPhoneFrame(s, h, j);
    if j == s.handlers[h].phase.group && s.groups[j].RoomForPhone() {
      PhoneEnters(s, t, j, p);
    } else {
      GroupFrame(s, t, j);
    }
  }

  lemma AddPhoneHandler(s: State, h: nat, x: nat)
    requires Enabled(s, AddPhone(h)) && HandlerOk(s, h) && x in s.handlers && HandlerOk(s, x)
    ensures HandlerOk(Next(s, AddPhone(h)), x)
  {
    if x != h { HandlerFrame(s, Next(s, AddPhone(h)), x); }
  }

  /** The only entries a bridge handler can have are its own connection's. */
  lemma OwnEntries(s: State, h: nat, j: nat)
    requires Is(s, h, Bridge) && s.handlers[h].phase.Joined? && HandlerOk(s, h) && j < |s.groups| && GroupOk(s, j)
    ensures forall c :: c in s.groups[j].phones ==> s.groups[j].phones[c].handle != h
    ensures forall id :: id in s.groups[j].bridges && s.groups[j].bridges[id].handle == h ==>
      id == s.handlers[h].bridgeID && s.handlers[h].phase == Joined(j, s.groups[j].bridges[id])
  {
    forall c | c in s.groups[j].phones ensures s.groups[j].phones[c].handle != h {
      assert Owned(s, j, s.groups[j].phones[c], Phone);
    }
    forall id | id in s.groups[j].bridges && s.groups[j].bridges[id].handle == h
      ensures id == s.handlers[h].bridgeID && s.handlers[h].phase == Joined(j, s.groups[j].bridges[id])
    {
      assert Owned(s, j, s.groups[j].bridges[id], Bridge);
    }
  }

  /** A removal of `h` leaves the entries of all other handlers in place. */
  lemma RemovalKeepsOwners(s: State, t: State, h: nat, j: nat)
    requires j < |s.groups| && j < |t.groups| && GroupOk(s, j) && t.groups[j].Valid()
    requires forall x :: x in s.handlers && x != h ==> x in t.handlers && t.handlers[x] == s.handlers[x]
    requires forall id :: id in t.groups[j].bridges ==>
      id in s.groups[j].bridges && t.groups[j].bridges[id] == s.groups[j].bridges[id]
      && t.groups[j].bridges[id].handle != h
    requires forall c :: c in t.groups[j].phones ==>
      c in s.groups[j].phones && t.groups[j].phones[c] == s.groups[j].phones[c] && t.groups[j].phones[c].handle != h
    ensures GroupOk(t, j)
  {
  }

  lemma BridgeLeaves(s: State, t: State, h: nat, j: nat)
    requires Is(s, h, Bridge) && s.handlers[h].phase.Joined? && HandlerOk(s, h) && j < |s.groups| && GroupOk(s, j)
    requires forall x :: x in s.handlers && x != h ==> x in t.handlers && t.handlers[x] == s.handlers[x]
    requires j < |t.groups|
    requires
      var b := s.handlers[h].phase.conn;
      t.groups[j] == if s.handlers[h].phase.group == j && Current(s.groups[j].bridges, b)
                     then s.groups[j].WithoutBridge(b.bridgeID) else s.groups[j]
    ensures GroupOk(t, j)
  {
    LeaveBridgeKeepsValid(s.groups[j], s.handlers[h].bridgeID);
    OwnEntries(s, h, j);
    RemovalKeepsOwners(s, t, h, j);
  }

  lemma RemoveBridgeFrame(s: State, h: nat, j: nat)
    requires Enabled(s, RemoveBridge(h)) && j < |s.groups|
    ensures var t := Next(s, RemoveBridge(h)); var b := s.handlers[h].phase.conn;
      && |t.groups| == |s.groups|
      && (forall x :: x in s.handlers && x != h ==> x in t.handlers && t.handlers[x] == s.handlers[x])
      && t.groups[j] == if s.handlers[h].phase.group == j && Current(s.groups[j].bridges, b)
                        then s.groups[j].WithoutBridge(b.bridgeID) else s.groups[j]
  {
  }

  lemma RemoveBridgeGroup(s: State, h: nat, j: nat)
    requires Enabled(s, RemoveBridge(h)) && HandlerOk(s, h) && j < |s.groups| && GroupOk(s, j)
    ensures GroupOk(Next(s, RemoveBridge(h)), j)
  {
    RemoveBridgeFrame(s, h, j);
    BridgeLeaves(s, Next(s, RemoveBridge(h)), h, j);
  }

  lemma RemoveBridgeHandler(s: State, h: nat, x: nat)
    requires Enabled(s, RemoveBridge(h)) && HandlerOk(s, h) && x in s.handlers && HandlerOk(s, x)
    ensures HandlerOk(Next(s, RemoveBridge(h)), x)
  {
    if x != h { HandlerFrame(s, Next(s, RemoveBridge(h)), x); }
  }

  lemma PhoneLeaves(s: State, t: State, h: nat, j: nat)
    requires Is(s, h, Phone) && s.handlers[h].phase.Joined? && HandlerOk(s, h) && j < |s.groups| && GroupOk(s, j)
    requires forall x :: x in s.handlers && x != h ==> x in t.handlers && t.handlers[x] == s.handlers[x]
    requires j < |t.groups|
    requires t.groups[j] == if s.handlers[h].phase.group == j
                            then s.groups[j].WithoutPhone(s.handlers[h].phase.conn.connID) else s.groups[j]
    ensures GroupOk(t, j)
  {
    LeavePhoneKeepsValid(s.groups[j], s.handlers[h].phase.conn.connID);
    forall id | id in s.groups[j].bridges ensures s.groups[j].bridges[id].handle != h {
      assert Owned(s, j, s.groups[j].bridges[id], Bridge);
    }
    forall c | c in s.groups[j].phones && s.groups[j].phones[c].handle == h
      ensures s.handlers[h].phase == Joined(j, s.groups[j].phones[c])
    {
      assert Owned(s, j, s.groups[j].phones[c], Phone);
    }
    RemovalKeepsOwners(s, t, h, j);
  }

  lemma RemovePhoneGroup(s: State, h: nat, j: nat)
    requires Enabled(s, RemovePhone(h)) && HandlerOk(s, h) && j < |s.groups| && GroupOk(s, j)
    ensures GroupOk(Next(s, RemovePhone(h)), j)
  {
    PhoneLeaves(s, Next(s, RemovePhone(h)), h, j);
  }

  lemma RemovePhoneHandler(s: State, h: nat, x: nat)
    requires Enabled(s, RemovePhone(h)) && HandlerOk(s, h) && x in s.handlers && HandlerOk(s, x)
    ensures HandlerOk(Next(s, RemovePhone(h)), x)
  {
    if x != h { HandlerFrame(s, Next(s, RemovePhone(h)), x); }
  }

  lemma UnregisterHandler(s: State, h: nat, x: nat)
    requires Enabled(s, Unregister(h)) && HandlerOk(s, h) && x in s.handlers && HandlerOk(s, x)
    ensures HandlerOk(Next(s, Unregister(h)), x)
  {
    if x != h { HandlerFrame(s, Next(s, Unregister(h)), x); }
  }

  lemma EntryGroup(s: State, e: Event, j: nat)
    requires Membership(s) && Enabled(s, e) && (e.Fetch? || e.AddBridge? || e.AddPhone?)
    requires j < |Next(s, e).groups|
    ensures GroupOk(Next(s, e), j)
  {
    match e {
      case Fetch(h) => FetchGroup(s, h, j);
      case AddBridge(h, now) => AddBridgeGroup(s, h, now, j);
      case AddPhone(h) => AddPhoneGroup(s, h, j);
    }
  }

  lemma ExitGroup(s: State, e: Event, j: nat)
    requires Membership(s) && Enabled(s, e) && (e.RemoveBridge? || e.RemovePhone?)
    requires j < |Next(s, e).groups|
    ensures GroupOk(Next(s, e), j)
  {
    match e {
      case RemoveBridge(h) => RemoveBridgeGroup(s, h, j);
      case RemovePhone(h) => RemovePhoneGroup(s, h, j);
    }
  }

  lemma StepKeepsGroups(s: State, e: Event)
    requires Membership(s) && Enabled(s, e)
    ensures forall j :: 0 <= j < |Next(s, e).groups| ==> GroupOk(Next(s, e), j)
  {
    forall j | 0 <= j < |Next(s, e).groups| ensures GroupOk(Next(s, e), j) {
      if e.Fetch? || e.AddBridge? || e.AddPhone? {
        EntryGroup(s, e, j);
      } else if e.RemoveBridge? || e.RemovePhone? {
        ExitGroup(s, e, j);
      } else {
        QuietGroup(s, e, j);
      }
    }
  }

  lemma EntryHandler(s: State, e: Event, x: nat)
    requires Membership(s) && Enabled(s, e) && (e.Fetch? || e.AddBridge? || e.AddPhone?)
    requires x in Next(s, e).handlers
    ensures HandlerOk(Next(s, e), x)
  {
    match e {
      case Fetch(h) => FetchHandler(s, h, x);
      case AddBridge(h, now) => AddBridgeHandler(s, h, now, x);
      case AddPhone(h) => AddPhoneHandler(s, h, x);
    }
  }

  lemma ExitHandler(s: State, e: Event, x: nat)
    requires Membership(s) && Enabled(s, e) && (e.RemoveBridge? || e.RemovePhone? || e.Unregister?)
    requires x in Next(s, e).handlers
    ensures HandlerOk(Next(s, e), x)
  {
    match e {
      case RemoveBridge(h) => RemoveBridgeHandler(s, h, x);
      case RemovePhone(h) => RemovePhoneHandler(s, h, x);
      case Unregister(h) => UnregisterHandler(s, h, x);
    }
  }

  lemma StepKeepsHandlers(s: State, e: Event)
    requires Membership(s) && Enabled(s, e)
    ensures forall x :: x in Next(s, e).handlers ==> HandlerOk(Next(s, e), x)
  {
    forall x | x in Next(s, e).handlers ensures HandlerOk(Next(s, e), x) {
      if e.Fetch? || e.AddBridge? || e.AddPhone? {
        EntryHandler(s, e, x);
      } else if e.RemoveBridge? || e.RemovePhone? || e.Unregister? {
        ExitHandler(s, e, x);
      } else {
        QuietHandler(s, e, x);
      }
    }
  }

  lemma StepKeepsRegistry(s: State, e: Event)
    requires RegistryOk(s) && Enabled(s, e)
    ensures RegistryOk(Next(s, e))
  {
    if !e.Fetch? && !e.Unregister? { RegistryFrame(s, e); }
  }

  lemma RegistryFrame(s: State, e: Event)
    requires Enabled(s, e) && !e.Fetch? && !e.Unregister?
    ensures Next(s, e).registry == s.registry && |Next(s, e).groups| == |s.groups|
    ensures forall k :: 0 <= k < |s.groups| ==> Next(s, e).groups[k].user == s.groups[k].user
  {
  }

  lemma StepKeepsLock(s: State, e: Event)
    requires LockOk(s) && Enabled(s, e)
    ensures LockOk(Next(s, e))
  {
  }

  lemma StepKeepsMembership(s: State, e: Event)
    requires Membership(s) && Enabled(s, e)
    ensures Membership(Next(s, e))
  {
    StepKeepsGroups(s, e);
    StepKeepsHandlers(s, e);
    StepKeepsRegistry(s, e);
    StepKeepsLock(s, e);
  }
}
