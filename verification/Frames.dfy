/** Binary traffic: the two-byte connId prefix, and where a frame from either
    side is written. */
module Frames {
  import opened Connections
  import opened Routing
  import opened Groups
  import opened AccountGroups

  type Byte = x: int | 0 <= x < 256

  datatype Write = Write(to: Connection, data: seq<Byte>)

  /** Big-endian connId, then the payload. */
  function Frame(connID: nat, payload: seq<Byte>): (data: seq<Byte>)
    requires connID <= MAX_CONN_ID
    ensures |data| == |payload| + 2
  {
    [connID / 256, connID % 256] + payload
  }

  function FrameID(data: seq<Byte>): (id: nat)
    requires |data| >= 2
    ensures id <= MAX_CONN_ID
  {
    (data[0] as int) * 256 + (data[1] as int)
  }

  /** Decoding inverts encoding, and every long enough message is a frame. */
  lemma FramingRoundTrip(connID: nat, payload: seq<Byte>, data: seq<Byte>)
    requires connID <= MAX_CONN_ID && |data| >= 2
    ensures FrameID(Frame(connID, payload)) == connID && Frame(connID, payload)[2..] == payload
    ensures Frame(FrameID(data), data[2..]) == data
  {
    assert Frame(FrameID(data), data[2..]) == data;
  }

  /** What a binary message of `bridge` makes the relay write. */
  ghost function FromBridge(g: Group, bridge: Connection, data: seq<Byte>): set<Write>
    requires g.Valid()
  {
    if |data| < 2 then {}
    else if FrameID(data) == 0 then
      set p | p in g.PhonesTargeting(bridge) :: Write(p, data[2..])
    else match g.PhoneTargeting(bridge, FrameID(data))
      case None => {}
      case Some(p) => {Write(p, data[2..])}
  }

  /** What a binary message of `phone` makes the relay write. */
  ghost function FromPhone(g: Group, phone: Connection, data: seq<Byte>): Option<Write>
    requires g.Valid() && phone.connID <= MAX_CONN_ID
  {
    match g.BridgeForPhone(phone)
    case None => None
    case Some(b) => Some(Write(b, Frame(phone.connID, data)))
  }

  /** A reply that the bridge sends back unchanged in the same routing state
      reaches the phone that asked, with the original payload, and nobody
      else; conversely only such a phone can be reached by a unicast. */
  lemma ReplyRoundTrip(g: Group, phone: Connection, payload: seq<Byte>)
    requires g.Valid() && Registered(g.phones, phone)
    ensures FromPhone(g, phone, payload).Some? <==> g.BridgeForPhone(phone).Some?
    ensures FromPhone(g, phone, payload).Some? ==>
      var w := FromPhone(g, phone, payload).value;
      && g.BridgeForPhone(phone) == Some(w.to)
      && FrameID(w.data) != 0
      && FromBridge(g, w.to, w.data) == {Write(phone, payload)}
  {
    if g.BridgeForPhone(phone).Some? {
      FramingRoundTrip(phone.connID, payload, Frame(phone.connID, payload));
    }
  }

  /** A frame of a bridge is written to registered phones that talk to it and
      to no other connection, and always without the connId prefix. */
  lemma BridgeWritesStayOnTarget(g: Group, bridge: Connection, data: seq<Byte>, w: Write)
    requires g.Valid() && w in FromBridge(g, bridge, data)
    ensures Current(g.bridges, bridge)
    ensures Registered(g.phones, w.to) && g.BridgeForPhone(w.to) == Some(bridge)
    ensures |data| >= 2 && w.data == data[2..]
    ensures FrameID(data) == 0 || FrameID(data) == w.to.connID
  {
    RoutingPartitions(g);
    BroadcastIsAllUnicasts(g, bridge);
  }

  /** The same in both directions: a frame is written to exactly the phones that
      talk to its bridge and, unless its first two bytes are zero, have the
      connId they spell with the high byte first. */
  lemma BridgeWritesExactly(g: Group, bridge: Connection, data: seq<Byte>, w: Write)
    requires g.Valid()
    ensures w in FromBridge(g, bridge, data) <==>
      && |data| >= 2 && w.data == data[2..]
      && Registered(g.phones, w.to) && g.BridgeForPhone(w.to) == Some(bridge)
      && ((data[0] as int) * 256 + (data[1] as int) == 0
          || (data[0] as int) * 256 + (data[1] as int) == w.to.connID)
  {
    RoutingPartitions(g);
    BroadcastIsAllUnicasts(g, bridge);
  }

  /** A phone's frame goes to its target and nowhere else, as its connId, high
      byte first, and the payload. */
  lemma PhoneWritesExactly(g: Group, phone: Connection, data: seq<Byte>)
    requires g.Valid() && phone.connID <= MAX_CONN_ID
    ensures FromPhone(g, phone, data).Some? <==> Registered(g.phones, phone) && g.TargetOf(phone.bridgeID).Some?
    ensures FromPhone(g, phone, data).Some? ==>
      var w := FromPhone(g, phone, data).value;
      && Some(w.to) == g.TargetOf(phone.bridgeID)
      && |w.data| == |data| + 2 && w.data[2..] == data
      && (w.data[0] as int) * 256 + (w.data[1] as int) == phone.connID
  {
  }

  method ForwardFromBridge(group: AccountGroup, bridge: Connection, data: seq<Byte>) returns (writes: seq<Write>)
    requires group.Valid()
    ensures forall w :: w in writes <==> w in FromBridge(group.View(), bridge, data)
    ensures forall w :: w in writes <==>
      && |data| >= 2 && w.data == data[2..]
      && Registered(group.phones, w.to) && group.View().BridgeForPhone(w.to) == Some(bridge)
      && ((data[0] as int) * 256 + (data[1] as int) == 0
          || (data[0] as int) * 256 + (data[1] as int) == w.to.connID)
    ensures forall i, j :: 0 <= i < j < |writes| ==> writes[i] != writes[j]
  {
    forall w { BridgeWritesExactly(group.View(), bridge, data, w); }
    writes := [];
    if |data| < 2 {
      return;
    }
    var connID := FrameID(data);
    var payload := data[2..];
    if connID == 0 {
      var targets := group.PhonesTargeting(bridge);
      for i := 0 to |targets|
        invariant |writes| == i
        invariant forall k :: 0 <= k < i ==> writes[k] == Write(targets[k], payload)
      {
        writes := writes + [Write(targets[i], payload)];
      }
      assert forall w :: w in writes ==> w.to in targets && w.data == payload;
      forall p | p in targets ensures Write(p, payload) in writes {
        var k :| 0 <= k < |targets| && targets[k] == p;
        assert writes[k] == Write(p, payload);
      }
      return;
    }
    var target := group.PhoneTargeting(bridge, connID);
    if target.None? {
      return;
    }
    writes := [Write(target.value, payload)];
  }

  method ForwardFromPhone(group: AccountGroup, phone: Connection, data: seq<Byte>) returns (write: Option<Write>)
    requires group.Valid() && phone.connID <= MAX_CONN_ID
    ensures write == FromPhone(group.View(), phone, data)
    ensures write.Some? <==> Registered(group.phones, phone) && Target(group.bridges, phone.bridgeID).Some?
    ensures write.Some? ==>
      && Some(write.value.to) == Target(group.bridges, phone.bridgeID)
      && |write.value.data| == |data| + 2 && write.value.data[2..] == data
      && (write.value.data[0] as int) * 256 + (write.value.data[1] as int) == phone.connID
  {
    PhoneWritesExactly(group.View(), phone, data);
    var bridge := group.BridgeForPhone(phone);
    if bridge.None? {
      return None;
    }
    write := Some(Write(bridge.value, Frame(phone.connID, data)));
  }
}
