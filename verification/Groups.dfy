/** An account group as a value: what the group's methods do to its state. */
module Groups {
  import opened Connections
  import opened Routing
  import opened ConnIds

  datatype Group = Group(user: string, bridges: Bridges, phones: Phones, nextConnID: nat) {

    /** Keys match ids, ids are usable, the caps hold. */
    ghost predicate Valid() {
      && Keyed(bridges) && "" !in bridges && |bridges| <= MAX_BRIDGES
      && PhonesKeyed(phones) && |phones| <= MAX_PHONES
      && IsConnID(nextConnID)
    }

    predicate Empty() { bridges == map[] && phones == map[] }

    predicate RoomForBridge(id: string) { id in bridges || |bridges| < MAX_BRIDGES }

    predicate RoomForPhone() { |phones| < MAX_PHONES }

    function WithBridge(b: Connection): Group {
      this.(bridges := bridges[b.bridgeID := b])
    }

    function WithoutBridge(id: string): Group {
      this.(bridges := bridges - {id})
    }

    /** The connection `p` becomes when it is registered as a phone. */
    ghost function Admit(p: Connection): (r: Connection)
      requires Valid() && RoomForPhone()
      ensures r == p.(connID := r.connID) && IsConnID(r.connID) && r.connID !in phones
    {
      p.(connID := FreeID(phones.Keys, nextConnID))
    }

    ghost function WithPhone(p: Connection): (g: Group)
      requires Valid() && RoomForPhone()
    {
      var r := Admit(p);
      this.(phones := phones[r.connID := r], nextConnID := Advance(r.connID))
    }

    function WithoutPhone(connID: nat): Group {
      this.(phones := phones - {connID})
    }

    /** The bridge a phone pinned to `pin` talks to. */
    ghost function TargetOf(pin: string): Option<Connection>
      requires Keyed(bridges)
    {
      Target(bridges, pin)
    }

    ghost function BridgeForPhone(p: Connection): Option<Connection>
      requires Keyed(bridges)
    {
      if Registered(phones, p) then Target(bridges, p.bridgeID) else None
    }

    /** The phones a broadcast of `b` reaches. */
    ghost function PhonesTargeting(b: Connection): set<Connection>
      requires Keyed(bridges)
    {
      if Current(bridges, b)
      then set c | c in phones && Target(bridges, phones[c].bridgeID) == Some(b) :: phones[c]
      else {}
    }

    /** The phone a unicast of `b` to `connID` reaches. */
    ghost function PhoneTargeting(b: Connection, connID: nat): Option<Connection>
      requires Keyed(bridges)
    {
      if connID in phones && Current(bridges, b) && Target(bridges, phones[connID].bridgeID) == Some(b)
      then Some(phones[connID]) else None
    }
  }

  function NewGroup(user: string): (g: Group)
    ensures g.Valid() && g.Empty()
  {
    Group(user, map[], map[], 1)
  }

  /** Every change of a group keeps it valid; a same-id join needs no room and
      keeps the bridge count; a fresh-id join adds one. */
  lemma JoinBridgeKeepsValid(g: Group, b: Connection)
    requires g.Valid() && b.bridgeID != "" && g.RoomForBridge(b.bridgeID)
    ensures g.WithBridge(b).Valid() && Current(g.WithBridge(b).bridges, b)
    ensures |g.WithBridge(b).bridges| == |g.bridges| + (if b.bridgeID in g.bridges then 0 else 1)
  {
    var after := g.bridges[b.bridgeID := b];
    assert after.Keys == g.bridges.Keys + {b.bridgeID};
    if b.bridgeID in g.bridges {
      assert after.Keys == g.bridges.Keys;
    }
  }

  lemma LeaveBridgeKeepsValid(g: Group, id: string)
    requires g.Valid()
    ensures g.WithoutBridge(id).Valid()
  {
    var after := g.bridges - {id};
    assert after.Keys == g.bridges.Keys - {id};
  }

  lemma JoinPhoneKeepsValid(g: Group, p: Connection)
    requires g.Valid() && g.RoomForPhone()
    ensures g.WithPhone(p).Valid() && Registered(g.WithPhone(p).phones, g.Admit(p))
    ensures |g.WithPhone(p).phones| == |g.phones| + 1
  {
    var r := g.Admit(p);
    assert g.WithPhone(p).phones.Keys == g.phones.Keys + {r.connID};
  }

  lemma LeavePhoneKeepsValid(g: Group, connID: nat)
    requires g.Valid()
    ensures g.WithoutPhone(connID).Valid()
  {
    var after := g.phones - {connID};
    assert after.Keys == g.phones.Keys - {connID};
  }

  /** Routing partitions the phones: no phone is reached by two bridges, the
      phones of the current bridges and the phones without a target are all
      the phones, and reaching is the mirror image of targeting. */
  lemma RoutingPartitions(g: Group)
    requires g.Valid()
    ensures forall b1, b2 :: b1 != b2 ==> g.PhonesTargeting(b1) !! g.PhonesTargeting(b2)
    ensures forall b, p :: Registered(g.phones, p) ==>
      (p in g.PhonesTargeting(b) <==> g.BridgeForPhone(p) == Some(b))
    ensures forall b, p {:trigger p in g.PhonesTargeting(b)} :: p in g.PhonesTargeting(b) ==>
      Current(g.bridges, b) && Registered(g.phones, p)
    ensures forall p :: p in g.phones.Values ==>
      (g.BridgeForPhone(p) == None <==> forall b :: p !in g.PhonesTargeting(b))
  {
    forall b, p {:trigger p in g.PhonesTargeting(b)} | p in g.PhonesTargeting(b)
      ensures Current(g.bridges, b) && Registered(g.phones, p) && g.BridgeForPhone(p) == Some(b)
    {
      var c :| c in g.phones && g.phones[c] == p && Target(g.bridges, p.bridgeID) == Some(b);
    }
    forall p | p in g.phones.Values
      ensures g.BridgeForPhone(p) == None <==> forall b :: p !in g.PhonesTargeting(b)
    {
      var c :| c in g.phones && g.phones[c] == p;
      if g.BridgeForPhone(p).Some? {
        assert p in g.PhonesTargeting(g.BridgeForPhone(p).value);
      }
    }
  }

  /** A broadcast reaches exactly what all the unicasts reach together, and
      connId 0 never names a phone. */
  lemma BroadcastIsAllUnicasts(g: Group, b: Connection)
    requires g.Valid()
    ensures forall p :: p in g.PhonesTargeting(b) <==> IsConnID(p.connID) && g.PhoneTargeting(b, p.connID) == Some(p)
    ensures forall c :: g.PhoneTargeting(b, c).Some? ==>
      IsConnID(c) && g.PhoneTargeting(b, c).value.connID == c && g.PhoneTargeting(b, c).value in g.PhonesTargeting(b)
    ensures g.PhoneTargeting(b, 0) == None
  {
    forall p ensures p in g.PhonesTargeting(b) <==> IsConnID(p.connID) && g.PhoneTargeting(b, p.connID) == Some(p) {
      if p in g.PhonesTargeting(b) {
        var c :| c in g.phones && g.phones[c] == p && Target(g.bridges, p.bridgeID) == Some(b);
        assert c == p.connID;
      }
    }
  }

  /** Whom a phone talks to, in plain terms: nobody unless it is registered as
      itself; then the connected bridge it names, or the default one if it
      names none. */
  lemma PhoneTalksTo(g: Group, p: Connection, b: Connection)
    requires g.Valid()
    ensures g.BridgeForPhone(p) == Some(b) <==>
      && p.connID in g.phones && g.phones[p.connID] == p
      && b.bridgeID in g.bridges && g.bridges[b.bridgeID] == b
      && if p.bridgeID == "" then Default(g.bridges) == Some(b) else p.bridgeID == b.bridgeID
    ensures g.BridgeForPhone(p) == None <==>
      !(p.connID in g.phones && g.phones[p.connID] == p)
      || (if p.bridgeID == "" then g.bridges == map[] else p.bridgeID !in g.bridges)
  {
  }

  /** A bridge that is not current reaches no phone and is nobody's target. */
  lemma NotCurrentReachesNobody(g: Group, b: Connection)
    requires g.Valid() && !Current(g.bridges, b)
    ensures g.PhonesTargeting(b) == {}
    ensures forall c :: g.PhoneTargeting(b, c) == None
    ensures forall p :: g.BridgeForPhone(p) != Some(b)
    ensures forall pin :: g.TargetOf(pin) != Some(b)
  {
  }
}
