/** The default bridge, seen from the outside: a phone that names no bridge
    follows the bridge that joined last among those still connected. */
module JoinHistory {
  import opened Connections
  import opened Routing
  import opened Groups
  import opened Relay
  import opened RelayRuns

  // ---------- What happened to one group ----------

  datatype Op = Join(bridge: Connection) | Leave(bridge: Connection)

  /** What an event means to the bridges of group `k`. */
  ghost function OpOf(s: State, e: Event, k: nat): seq<Op>
    requires Enabled(s, e)
  {
    match e
    case AddBridge(h, now) =>
      var H := s.handlers[h];
      if H.phase.group == k && s.groups[k].RoomForBridge(H.bridgeID)
      then [Join(NewConnection(h, H.bridgeID, now))] else []
    case RemoveBridge(h) =>
      if s.handlers[h].phase.group == k then [Leave(s.handlers[h].phase.conn)] else []
    case _ => []
  }

  /** The accepted joins and the leaves of one group, out of any interleaving. */
  ghost function History(s: State, es: seq<Event>, k: nat): seq<Op>
    requires Legal(s, es)
    decreases |es|
  {
    if es == [] then [] else OpOf(s, es[0], k) + History(Next(s, es[0]), es[1..], k)
  }

  // ---------- The simple view ----------

  predicate Stays(c: Connection, op: Op) {
    match op
    case Join(b) => c.bridgeID != b.bridgeID
    case Leave(b) => c != b
  }

  function Keep(line: seq<Connection>, op: Op): seq<Connection> {
    if line == [] then []
    else
      var rest, last := Keep(line[..|line| - 1], op), line[|line| - 1];
      if Stays(last, op) then rest + [last] else rest
  }

  /** The bridges queue up as they join; a leave and a takeover take one out. */
  function Follow(line: seq<Connection>, op: Op): seq<Connection> {
    match op
    case Join(b) => Keep(line, op) + [b]
    case Leave(_) => Keep(line, op)
  }

  function FollowAll(line: seq<Connection>, ops: seq<Op>): seq<Connection>
    decreases |ops|
  {
    if ops == [] then line else FollowAll(Follow(line, ops[0]), ops[1..])
  }

  function Last(line: seq<Connection>): Option<Connection> {
    if line == [] then None else Some(line[|line| - 1])
  }

  // ---------- The group and its line ----------

  /** Bridges join in the order of their timestamps. */
  ghost predicate InOrder(ops: seq<Op>) {
    forall i, j :: 0 <= i < j < |ops| && ops[i].Join? && ops[j].Join? ==>
      ops[i].bridge.connectedAt < ops[j].bridge.connectedAt
  }

  /** Everybody in line joined before the joins to come. */
  ghost predicate Earlier(line: seq<Connection>, ops: seq<Op>) {
    forall c, i :: c in line && 0 <= i < |ops| && ops[i].Join? ==> c.connectedAt < ops[i].bridge.connectedAt
  }

  ghost predicate Rising(line: seq<Connection>) {
    forall i, j :: 0 <= i < j < |line| ==> line[i].connectedAt < line[j].connectedAt
  }

  /** The line holds exactly the current bridges. */
  ghost predicate Matches(bridges: Bridges, line: seq<Connection>) {
    Keyed(bridges) && forall c :: c in line <==> Current(bridges, c)
  }

  /** The line ends with the newest bridge in it. */
  ghost predicate NewestIsLast(line: seq<Connection>) {
    forall c :: c in line ==> !Newer(c, line[|line| - 1])
  }

  /** The bridges of an instance, none before it is created. */
  function BridgesAt(s: State, k: nat): Bridges {
    if k < |s.groups| then s.groups[k].bridges else map[]
  }

  lemma {:induction false} KeepKeeps(line: seq<Connection>, op: Op)
    ensures forall c :: c in Keep(line, op) <==> c in line && Stays(c, op)
    ensures Rising(line) ==> Rising(Keep(line, op))
  {
    if line != [] {
      var n := |line| - 1;
      KeepKeeps(line[..n], op);
      assert line == line[..n] + [line[n]];
      if Rising(line) {
        assert forall c :: c in line[..n] ==> c.connectedAt < line[n].connectedAt;
      }
    }
  }

  lemma JoinMatches(g: Group, line: seq<Connection>, b: Connection)
    requires Matches(g.bridges, line)
    ensures Matches(g.WithBridge(b).bridges, Follow(line, Join(b)))
  {
    KeepKeeps(line, Join(b));
    var after := g.WithBridge(b).bridges;
    forall c ensures c in Follow(line, Join(b)) <==> Current(after, c) {
      assert c in line <==> Current(g.bridges, c);
    }
  }

  lemma LeaveMatches(g: Group, line: seq<Connection>, b: Connection)
    requires Matches(g.bridges, line)
    ensures Matches(if Current(g.bridges, b) then g.WithoutBridge(b.bridgeID).bridges else g.bridges,
                    Follow(line, Leave(b)))
  {
    KeepKeeps(line, Leave(b));
    var after := if Current(g.bridges, b) then g.WithoutBridge(b.bridgeID).bridges else g.bridges;
    forall c ensures c in Follow(line, Leave(b)) <==> Current(after, c) {
      assert c in line <==> Current(g.bridges, c);
    }
  }

  /** Other events leave the bridges of the group alone. */
  lemma QuietStep(s: State, e: Event, k: nat)
    requires Enabled(s, e) && OpOf(s, e, k) == []
    ensures BridgesAt(Next(s, e), k) == BridgesAt(s, k)
  {
  }

  /** A join or a leave is what the group does to its bridges. */
  lemma OpEffect(s: State, e: Event, k: nat)
    requires Enabled(s, e) && OpOf(s, e, k) != []
    ensures k < |s.groups|
    ensures var g, b := s.groups[k], OpOf(s, e, k)[0].bridge;
      && OpOf(s, e, k) == [OpOf(s, e, k)[0]]
      && BridgesAt(Next(s, e), k) ==
         if OpOf(s, e, k)[0].Join? then g.WithBridge(b).bridges
         else if Current(g.bridges, b) then g.WithoutBridge(b.bridgeID).bridges else g.bridges
  {
  }

  lemma StepMatches(s: State, e: Event, k: nat, line: seq<Connection>)
    requires Enabled(s, e) && Matches(BridgesAt(s, k), line)
    ensures Matches(BridgesAt(Next(s, e), k), FollowAll(line, OpOf(s, e, k)))
  {
    var ops := OpOf(s, e, k);
    if ops == [] {
      QuietStep(s, e, k);
    } else {
      OpEffect(s, e, k);
      if ops[0].Join? {
        JoinMatches(s.groups[k], line, ops[0].bridge);
      } else {
        LeaveMatches(s.groups[k], line, ops[0].bridge);
      }
    }
  }

  lemma {:induction false} FollowAppend(line: seq<Connection>, ops: seq<Op>, more: seq<Op>)
    ensures FollowAll(line, ops + more) == FollowAll(FollowAll(line, ops), more)
    decreases |ops|
  {
    if ops == [] {
      assert ops + more == more;
    } else {
      FollowAppend(Follow(line, ops[0]), ops[1..], more);
      assert (ops + more)[1..] == ops[1..] + more;
    }
  }

  /** In every interleaving the current bridges of an instance are those in line. */
  lemma {:induction false} RunMatches(s: State, es: seq<Event>, k: nat, line: seq<Connection>)
    requires Legal(s, es) && Matches(BridgesAt(s, k), line)
    ensures Matches(BridgesAt(Run(s, es), k), FollowAll(line, History(s, es, k)))
    decreases |es|
  {
    if es != [] {
      var t, ops := Next(s, es[0]), OpOf(s, es[0], k);
      StepMatches(s, es[0], k, line);
      RunMatches(t, es[1..], k, FollowAll(line, ops));
      FollowAppend(line, ops, History(t, es[1..], k));
    }
  }

  // ---------- Joins in timestamp order ----------

  lemma {:induction false} LineRises(line: seq<Connection>, ops: seq<Op>)
    requires Rising(line) && InOrder(ops) && Earlier(line, ops)
    ensures Rising(FollowAll(line, ops))
    decreases |ops|
  {
    if ops != [] {
      KeepKeeps(line, ops[0]);
      var rest := ops[1..];
      assert forall i :: 0 <= i < |rest| ==> rest[i] == ops[i + 1];
      LineRises(Follow(line, ops[0]), rest);
    }
  }

  /** In every interleaving the current bridges of an instance are those in
      line, and its default is the last in line iff no other in line is newer.
      If joins came in timestamp order that is always so, whatever leaves and
      same-id takeovers there were, and a phone that names no bridge talks to
      the last in line. */
  lemma DefaultIsLastJoined(limit: int, es: seq<Event>, k: nat)
    requires Legal(Init(limit), es) && k < |Run(Init(limit), es).groups|
    ensures var g := Run(Init(limit), es).groups[k]; var ops := History(Init(limit), es, k);
      var line := FollowAll([], ops);
      && g.Valid() && (forall c :: c in line <==> Current(g.bridges, c))
      && (Default(g.bridges) == Last(line) <==> NewestIsLast(line))
      && (InOrder(ops) ==> Default(g.bridges) == Last(line))
      && (InOrder(ops) ==>
            forall p :: Registered(g.phones, p) && p.bridgeID == "" ==> g.BridgeForPhone(p) == Last(line))
  {
    RunKeepsMembership(Init(limit), es);
    assert GroupOk(Run(Init(limit), es), k);
    var ops := History(Init(limit), es, k);
    RunMatches(Init(limit), es, k, []);
    LastIsDefault(Run(Init(limit), es).groups[k].bridges, FollowAll([], ops));
    if InOrder(ops) { LineRises([], ops); }
  }

  lemma LastIsDefault(bridges: Bridges, line: seq<Connection>)
    requires Matches(bridges, line)
    ensures Rising(line) ==> NewestIsLast(line)
    ensures Default(bridges) == Last(line) <==> NewestIsLast(line)
  {
    if line == [] {
      forall id ensures id !in bridges {
        assert id in bridges ==> Current(bridges, bridges[id]);
      }
    } else {
      var last := line[|line| - 1];
      assert last in line;
      forall id | id in bridges && id != last.bridgeID
        ensures bridges[id] in line && (Newer(last, bridges[id]) <==> !Newer(bridges[id], last))
      {
        assert Current(bridges, bridges[id]);
        NewerTotal(bridges[id], last);
      }
      NewerTotal(last, last);
      if NewestIsLast(line) {
        DefaultIs(bridges, last);
      } else {
        var c :| c in line && Newer(c, last);
        assert Current(bridges, c) && c.bridgeID != last.bridgeID;
      }
    }
  }
}
