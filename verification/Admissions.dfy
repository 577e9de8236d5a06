/** Who is let into a group, and under which connId, over whole runs. */
module Admissions {
  import opened Connections
  import opened ConnIds
  import opened Routing
  import opened Groups
  import opened Relay
  import opened RelayRuns

  // ---------- Exactly when there is room ----------

  /** The handlers whose connection is a current bridge of instance `k`. */
  ghost function LiveBridges(s: State, k: nat): set<nat>
    requires k < |s.groups|
  {
    set h | Is(s, h, Bridge) && h in s.handlers && s.handlers[h].phase.Joined? && s.handlers[h].phase.group == k
            && Current(s.groups[k].bridges, s.handlers[h].phase.conn)
  }

  /** The handlers whose connection is a phone of instance `k`. */
  ghost function LivePhones(s: State, k: nat): set<nat> {
    set h | Is(s, h, Phone) && h in s.handlers && s.handlers[h].phase.Joined? && s.handlers[h].phase.group == k
  }

  ghost function HandlesOf<K(!new)>(m: map<K, Connection>): set<nat> {
    set i | i in m :: m[i].handle
  }

  lemma {:induction false} HandleCount<K(!new)>(m: map<K, Connection>)
    requires forall i, j :: i in m && j in m && i != j ==> m[i].handle != m[j].handle
    ensures |HandlesOf(m)| == |m|
    decreases |m|
  {
    if m == map[] {
      assert HandlesOf(m) == {};
    } else {
      var k :| k in m;
      var rest := m - {k};
      HandleCount(rest);
      assert m.Keys == rest.Keys + {k};
      assert HandlesOf(m) == HandlesOf(rest) + {m[k].handle};
    }
  }

  /** The bridges of a group are its live bridge handlers, one each. */
  lemma BridgesAreHandlers(s: State, k: nat)
    requires Membership(s) && k < |s.groups|
    ensures |s.groups[k].bridges| == |LiveBridges(s, k)|
  {
    var m := s.groups[k].bridges;
    assert GroupOk(s, k);
    forall i, j | i in m && j in m && i != j ensures m[i].handle != m[j].handle {
      assert Owned(s, k, m[i], Bridge) && Owned(s, k, m[j], Bridge);
    }
    forall h ensures h in LiveBridges(s, k) <==> exists i :: i in m && m[i].handle == h {
      if h in LiveBridges(s, k) {
        assert HandlerOk(s, h) && m[s.handlers[h].phase.conn.bridgeID].handle == h;
      }
      if i :| i in m && m[i].handle == h { assert Owned(s, k, m[i], Bridge); }
    }
    assert LiveBridges(s, k) == HandlesOf(m);
    HandleCount(m);
  }

  lemma PhonesAreHandlers(s: State, k: nat)
    requires Membership(s) && k < |s.groups|
    ensures |s.groups[k].phones| == |LivePhones(s, k)|
  {
    var m := s.groups[k].phones;
    assert GroupOk(s, k);
    forall i, j | i in m && j in m && i != j ensures m[i].handle != m[j].handle {
      assert Owned(s, k, m[i], Phone) && Owned(s, k, m[j], Phone);
    }
    forall h ensures h in LivePhones(s, k) <==> exists i :: i in m && m[i].handle == h {
      if h in LivePhones(s, k) {
        assert HandlerOk(s, h) && m[s.handlers[h].phase.conn.connID].handle == h;
      }
      if i :| i in m && m[i].handle == h { assert Owned(s, k, m[i], Phone); }
    }
    assert LivePhones(s, k) == HandlesOf(m);
    HandleCount(m);
  }

  /** In every interleaving a bridge that tries to join its instance is let in
      iff its id is connected there or at most nine bridges are; then it is the
      connection of its id, and otherwise nothing changes but its way out. */
  lemma BridgeAdmitted(limit: int, es: seq<Event>, h: nat, now: int)
    requires Legal(Init(limit), es) && Enabled(Run(Init(limit), es), AddBridge(h, now))
    ensures var s := Run(Init(limit), es); var t := Next(s, AddBridge(h, now));
      var H, k := s.handlers[h], s.handlers[h].phase.group;
      && k < |s.groups| && k < |t.groups| && |s.groups[k].bridges| == |LiveBridges(s, k)|
      && (t.handlers[h].phase.Joined? <==> H.bridgeID in s.groups[k].bridges || |LiveBridges(s, k)| <= 9)
      && (t.handlers[h].phase.Joined? ==>
            && t.handlers[h].phase == Joined(k, Connection(h, 0, H.bridgeID, now))
            && H.bridgeID in t.groups[k].bridges
            && t.groups[k].bridges[H.bridgeID] == Connection(h, 0, H.bridgeID, now))
      && (!t.handlers[h].phase.Joined? ==> t == s.(handlers := s.handlers[h := H.(phase := Exiting)]))
  {
    RunKeepsMembership(Init(limit), es);
    BridgesAreHandlers(Run(Init(limit), es), Run(Init(limit), es).handlers[h].phase.group);
  }

  /** The same for a phone: let in iff at most four phones are connected. */
  lemma PhoneAdmitted(limit: int, es: seq<Event>, h: nat)
    requires Legal(Init(limit), es) && Enabled(Run(Init(limit), es), AddPhone(h))
    ensures var s := Run(Init(limit), es); var t := Next(s, AddPhone(h));
      var H, k := s.handlers[h], s.handlers[h].phase.group;
      && k < |s.groups| && k < |t.groups| && |s.groups[k].phones| == |LivePhones(s, k)|
      && (t.handlers[h].phase.Joined? <==> |LivePhones(s, k)| <= 4)
      && (t.handlers[h].phase.Joined? ==>
            var p := t.handlers[h].phase.conn;
            && p == Connection(h, p.connID, H.bridgeID, 0) && 1 <= p.connID <= 65535
            && p.connID !in s.groups[k].phones
            && t.groups[k].phones == s.groups[k].phones[p.connID := p])
      && (!t.handlers[h].phase.Joined? ==> t == s.(handlers := s.handlers[h := H.(phase := Exiting)]))
  {
    RunKeepsMembership(Init(limit), es);
    PhonesAreHandlers(Run(Init(limit), es), Run(Init(limit), es).handlers[h].phase.group);
  }

  // ---------- Which connIds are given out ----------

  /** The connId an event gives out in instance `k`, if it lets a phone in. */
  ghost function IDOf(s: State, e: Event, k: nat): seq<nat>
    requires Enabled(s, e)
  {
    if e.AddPhone? && s.handlers[e.h].phase.group == k && Next(s, e).handlers[e.h].phase.Joined?
    then [Next(s, e).handlers[e.h].phase.conn.connID] else []
  }

  /** All connIds that a run gives out in instance `k`, in order. */
  ghost function IDsGiven(s: State, es: seq<Event>, k: nat): seq<nat>
    requires Legal(s, es)
    decreases |es|
  {
    if es == [] then [] else IDOf(s, es[0], k) + IDsGiven(Next(s, es[0]), es[1..], k)
  }

  /** The id at a distance from the first one, however many rounds away. */
  function Lap(d: nat): (id: nat)
    ensures IsConnID(id)
  {
    1 + d % 65535
  }

  lemma Remainder(d: nat, m: nat)
    requires m <= 65535
    ensures (d + m) % 65535 == var r := d % 65535 + m; if r < 65535 then r else r - 65535
  {
    var q, r := d / 65535, d % 65535 + m;
    if r < 65535 {
      assert d + m == 65535 * q + r;
    } else {
      assert d + m == 65535 * (q + 1) + (r - 65535);
    }
  }

  lemma LapGoesOn(d: nat, m: nat)
    requires m <= MAX_CONN_ID
    ensures Nth(Lap(d), m) == Lap(d + m) && Advance(Lap(d)) == Lap(d + 1)
  {
    Remainder(d, m);
    Remainder(d, 1);
  }

  lemma LapsDiffer(d: nat, e: nat)
    requires d < e < d + 65535
    ensures Lap(d) != Lap(e)
  {
  }

  /** The counter of instance `k` stands at distance `d`. */
  ghost predicate CounterAt(s: State, k: nat, d: nat) {
    if k < |s.groups| then s.groups[k].nextConnID == Lap(d) else d == 0
  }

  /** No phone of instance `k` has an id that the first round has yet to reach. */
  ghost predicate NoneAhead(s: State, k: nat, d: nat) {
    d < 65535 && k < |s.groups| ==> forall c :: c in s.groups[k].phones ==> c <= d
  }

  lemma NoIDStep(s: State, e: Event, k: nat, d: nat)
    requires Enabled(s, e) && CounterAt(s, k, d) && NoneAhead(s, k, d) && IDOf(s, e, k) == []
    ensures CounterAt(Next(s, e), k, d) && NoneAhead(Next(s, e), k, d)
  {
  }

  /** The first free id lies at most four further on, and in the first round it
      is the next one. */
  lemma FreeDistance(g: Group, d: nat) returns (at: nat)
    requires g.Valid() && g.RoomForPhone() && g.nextConnID == Lap(d)
    requires d < 65535 ==> forall c :: c in g.phones ==> c <= d
    ensures FreeID(g.phones.Keys, g.nextConnID) == Lap(at) && Advance(Lap(at)) == Lap(at + 1)
    ensures d <= at <= d + 4 && (d < 65535 ==> at == d && Lap(at) == d + 1)
  {
    var used := g.phones.Keys;
    var m := Misses(used, g.nextConnID, 0);
    at := d + m;
    LapGoesOn(d, m);
    LapGoesOn(at, 0);
    if d < 65535 {
      assert Lap(d) !in used;
      FreeIDIs(used, g.nextConnID, 0);
      LapsDifferOrEqual(d, m);
    }
  }

  lemma IDEffect(s: State, e: Event, k: nat)
    requires Enabled(s, e) && IDOf(s, e, k) != []
    ensures k < |s.groups| && k < |Next(s, e).groups|
    ensures var g, g' := s.groups[k], Next(s, e).groups[k];
      && g.Valid() && g.RoomForPhone()
      && var id := FreeID(g.phones.Keys, g.nextConnID);
      IDOf(s, e, k) == [id] && g'.nextConnID == Advance(id) && g'.phones.Keys == g.phones.Keys + {id}
  {
  }

  /** An admission moves the counter by at most five, and in the first round by
      exactly one. */
  lemma IDStep(s: State, e: Event, k: nat, d: nat) returns (at: nat)
    requires Enabled(s, e) && CounterAt(s, k, d) && NoneAhead(s, k, d) && IDOf(s, e, k) != []
    ensures IDOf(s, e, k) == [Lap(at)] && d <= at <= d + 4 && (d < 65535 ==> at == d)
    ensures CounterAt(Next(s, e), k, at + 1) && NoneAhead(Next(s, e), k, at + 1)
  {
    IDEffect(s, e, k);
    at := FreeDistance(s.groups[k], d);
    assert forall c :: c in Next(s, e).groups[k].phones ==> c in s.groups[k].phones || c == Lap(at);
  }

  lemma LapsDifferOrEqual(d: nat, m: nat)
    requires m < 65535 && Lap(d + m) == Lap(d)
    ensures m == 0
  {
    if m > 0 { LapsDiffer(d, d + m); }
  }

  /** The distances at which the ids of a run were given out. */
  ghost predicate Strides(ds: seq<nat>, ids: seq<nat>, d: nat) {
    && |ds| == |ids| && (forall i :: 0 <= i < |ds| ==> ids[i] == Lap(ds[i]))
    && (ds != [] ==> d <= ds[0] <= d + 4 && (d < 65535 ==> ds[0] == d))
    && (forall i :: 0 <= i < |ds| - 1 ==>
          ds[i] < ds[i + 1] <= ds[i] + 5 && (ds[i] < 65534 ==> ds[i + 1] == ds[i] + 1))
  }

  lemma {:induction false} RunStrides(s: State, es: seq<Event>, k: nat, d: nat) returns (ds: seq<nat>)
    requires Legal(s, es) && CounterAt(s, k, d) && NoneAhead(s, k, d)
    ensures Strides(ds, IDsGiven(s, es, k), d)
    decreases |es|
  {
    if es == [] {
      ds := [];
    } else if IDOf(s, es[0], k) == [] {
      NoIDStep(s, es[0], k, d);
      ds := RunStrides(Next(s, es[0]), es[1..], k, d);
    } else {
      var at := IDStep(s, es[0], k, d);
      var rest := RunStrides(Next(s, es[0]), es[1..], k, at + 1);
      OneMoreStride(at, rest, IDsGiven(Next(s, es[0]), es[1..], k), d);
      ds := [at] + rest;
    }
  }

  lemma OneMoreStride(at: nat, ds: seq<nat>, ids: seq<nat>, d: nat)
    requires Strides(ds, ids, at + 1) && d <= at <= d + 4 && (d < 65535 ==> at == d)
    ensures Strides([at] + ds, [Lap(at)] + ids, d)
  {
  }

  lemma {:induction false} StrideLength(ds: seq<nat>, ids: seq<nat>, i: nat, j: nat)
    requires Strides(ds, ids, 0) && i <= j < |ds|
    ensures ds[i] + (j - i) <= ds[j] <= ds[i] + 5 * (j - i)
    decreases j - i
  {
    if i < j { StrideLength(ds, ids, i, j - 1); }
  }

  lemma {:induction false} FirstRound(ds: seq<nat>, ids: seq<nat>, i: nat)
    requires Strides(ds, ids, 0) && i < |ds| && i < 65535
    ensures ds[i] == i
    decreases i
  {
    if i > 0 { FirstRound(ds, ids, i - 1); }
  }

  /** In every interleaving the phones let into an instance get 1, 2, 3, ... up
      to 65535 in the order of their joins, whoever left in between; and at any
      time, wrap-arounds included, an id is not given out again within the next
      13106 joins. */
  lemma ConnIDsInOrder(limit: int, es: seq<Event>, k: nat)
    requires Legal(Init(limit), es)
    ensures var ids := IDsGiven(Init(limit), es, k);
      && (forall i :: 0 <= i < |ids| && i < 65535 ==> ids[i] == i + 1)
      && (forall i, j :: 0 <= i < j < |ids| && j - i <= 13106 ==> ids[i] != ids[j])
  {
    var ids := IDsGiven(Init(limit), es, k);
    var ds := RunStrides(Init(limit), es, k, 0);
    forall i | 0 <= i < |ids| && i < 65535 ensures ids[i] == i + 1 { FirstRound(ds, ids, i); }
    forall i, j | 0 <= i < j < |ids| && j - i <= 13106 ensures ids[i] != ids[j] {
      StrideLength(ds, ids, i, j);
      LapsDiffer(ds[i], ds[j]);
    }
  }
}
