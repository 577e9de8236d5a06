/** The account group object: its maps and counter are updated in place, and
    every loop visits a map in an arbitrary order. */
module AccountGroups {
  import opened Connections
  import opened Routing
  import opened ConnIds
  import opened Groups

  class AccountGroup {
    const userID: string
    var bridges: Bridges
    var phones: Phones
    var nextConnID: nat

    ghost function View(): Group
      reads this
    {
      Group(userID, bridges, phones, nextConnID)
    }

    ghost predicate Valid()
      reads this
    {
      View().Valid()
    }

    constructor (userID: string)
      ensures Valid() && View() == NewGroup(userID)
    {
      this.userID := userID;
      bridges, phones, nextConnID := map[], map[], 1;
    }

    method AssignConnID() returns (id: nat)
      requires IsConnID(nextConnID)
      modifies this`nextConnID
      ensures id == old(nextConnID) && nextConnID == Advance(id)
      ensures nextConnID == if id == 65535 then 1 else id + 1
    {
      id := nextConnID;
      nextConnID := (nextConnID + 1) % 65536;
      if nextConnID == 0 {
        nextConnID := 1;
      }
    }

    /** One pass over the bridges in any order finds the newest one. */
    method DefaultBridge() returns (latest: Option<Connection>)
      requires Keyed(bridges)
      ensures latest == Default(bridges)
    {
      latest := None;
      var rest := bridges.Keys;
      while rest != {}
        invariant rest <= bridges.Keys
        invariant latest.None? ==> rest == bridges.Keys
        invariant latest.Some? ==>
          Current(bridges, latest.value) && latest.value.bridgeID !in rest
          && forall id :: id in bridges.Keys - rest && id != latest.value.bridgeID ==> Newer(latest.value, bridges[id])
        decreases |rest|
      {
        var id :| id in rest;
        var bridge := bridges[id];
        rest := rest - {id};
        if latest.None? || bridge.connectedAt > latest.value.connectedAt
           || (bridge.connectedAt == latest.value.connectedAt && Precedes(latest.value.bridgeID, bridge.bridgeID))
        {
          forall x | x in bridges.Keys - rest && x != id ensures Newer(bridge, bridges[x]) {
            if x != latest.value.bridgeID {
              NewerTransitive(bridge, latest.value, bridges[x]);
            }
          }
          latest := Some(bridge);
        } else {
          NewerTotal(bridge, latest.value);
        }
      }
      if latest.Some? {
        DefaultIs(bridges, latest.value);
      }
    }

    method TargetOf(phone: Connection) returns (target: Option<Connection>)
      requires Keyed(bridges)
      ensures target == Target(bridges, phone.bridgeID)
    {
      if phone.bridgeID != "" {
        target := Lookup(bridges, phone.bridgeID);
      } else {
        target := DefaultBridge();
      }
    }

    /** The target of every phone, keyed by the phone itself. */
    method SnapshotTargets() returns (before: map<Connection, Option<Connection>>)
      requires Keyed(bridges) && PhonesKeyed(phones)
      ensures before.Keys == phones.Values
      ensures forall p :: p in before ==> before[p] == Target(bridges, p.bridgeID)
    {
      before := map[];
      var rest := phones.Keys;
      while rest != {}
        invariant rest <= phones.Keys
        invariant before.Keys == set c | c in phones.Keys - rest :: phones[c]
        invariant forall p :: p in before ==> before[p] == Target(bridges, p.bridgeID)
        decreases |rest|
      {
        var c :| c in rest;
        rest := rest - {c};
        var target := TargetOf(phones[c]);
        before := before[phones[c] := target];
      }
    }

    /** How `phone`, whose target was `previous`, fares under the present
        bridge map. */
    method DescribeMove(phone: Connection, previous: Option<Connection>, ghost was: Bridges)
      returns (change: Option<TargetChange>)
      requires Keyed(was) && Keyed(bridges) && previous == Target(was, phone.bridgeID)
      ensures change.None? <==> !Moved(was, bridges, phone.bridgeID)
      ensures change.Some? ==> change.value.phone == phone && Describes(was, bridges, change.value)
    {
      var next := TargetOf(phone);
      if next == previous {
        return None;
      }
      var ch := TargetChange(phone, previous, "", next);
      if previous.Some? {
        ch := ch.(previousBridgeID := previous.value.bridgeID);
        if Lookup(bridges, previous.value.bridgeID) != previous {
          ch := ch.(previous := None);
        }
      }
      change := Some(ch);
    }

    /** Adds the change of `phone` to the report on the phones in `done`. */
    method ReportMove(phone: Connection, previous: Option<Connection>, changes: seq<TargetChange>,
                      ghost was: Bridges, ghost done: set<Connection>)
      returns (more: seq<TargetChange>)
      requires Keyed(was) && Keyed(bridges) && previous == Target(was, phone.bridgeID)
      requires IsReport(done, was, bridges, changes) && phone !in done
      ensures IsReport(done + {phone}, was, bridges, more)
    {
      var change := DescribeMove(phone, previous, was);
      ExtendReport(done, was, bridges, changes, change.GetOr(TargetChange(phone, None, "", None)));
      more := if change.Some? then changes + [change.value] else changes;
    }

    /** Compares every phone's target with the one it had under `was`. */
    method CompareTargets(before: map<Connection, Option<Connection>>, ghost was: Bridges)
      returns (changes: seq<TargetChange>)
      requires Keyed(was) && Keyed(bridges)
      requires forall p :: p in before ==> before[p] == Target(was, p.bridgeID)
      ensures IsReport(before.Keys, was, bridges, changes)
    {
      changes := [];
      var rest := before.Keys;
      while rest != {}
        invariant rest <= before.Keys
        invariant IsReport(before.Keys - rest, was, bridges, changes)
        decreases |rest|
      {
        var phone :| phone in rest;
        changes := ReportMove(phone, before[phone], changes, was, before.Keys - rest);
        assert before.Keys - (rest - {phone}) == before.Keys - rest + {phone};
        rest := rest - {phone};
      }
    }

    /** Replaces the bridge map by any other well-keyed one and reports exactly
        the phones that moved. */
    method ChangeBridges(mutated: Bridges) returns (changes: seq<TargetChange>)
      requires Keyed(bridges) && PhonesKeyed(phones) && Keyed(mutated)
      modifies this`bridges
      ensures bridges == mutated
      ensures IsReport(phones.Values, old(bridges), mutated, changes)
    {
      var before := SnapshotTargets();
      bridges := mutated;
      changes := CompareTargets(before, old(bridges));
    }

    method AddBridge(bridge: Connection)
      returns (displaced: Option<Connection>, changes: seq<TargetChange>, ok: bool)
      requires Valid() && bridge.bridgeID != ""
      modifies this`bridges
      ensures Valid()
      ensures ok == old(View().RoomForBridge(bridge.bridgeID))
      ensures ok <==> bridge.bridgeID in old(bridges) || |old(bridges)| <= 9
      ensures ok ==> displaced == old(Lookup(bridges, bridge.bridgeID))
      ensures ok ==> View() == old(View()).WithBridge(bridge)
      ensures ok ==> IsReport(phones.Values, old(bridges), bridges, changes)
      ensures !ok ==> displaced == None && changes == [] && View() == old(View())
    {
      displaced := Lookup(bridges, bridge.bridgeID);
      if displaced == None && |bridges| >= MAX_BRIDGES {
        return None, [], false;
      }
      JoinBridgeKeepsValid(View(), bridge);
      changes := ChangeBridges(bridges[bridge.bridgeID := bridge]);
      ok := true;
    }

    method RemoveBridge(bridge: Connection) returns (wasCurrent: bool, changes: seq<TargetChange>)
      requires Valid()
      modifies this`bridges
      ensures Valid()
      ensures wasCurrent == old(Current(bridges, bridge))
      ensures wasCurrent ==> View() == old(View()).WithoutBridge(bridge.bridgeID)
      ensures wasCurrent ==> IsReport(phones.Values, old(bridges), bridges, changes)
      ensures !wasCurrent ==> changes == [] && View() == old(View())
    {
      if !Current(bridges, bridge) {
        return false, [];
      }
      LeaveBridgeKeepsValid(View(), bridge.bridgeID);
      changes := ChangeBridges(bridges - {bridge.bridgeID});
      wasCurrent := true;
    }

    method IsCurrentBridge(bridge: Connection) returns (current: bool)
      ensures current == (Lookup(bridges, bridge.bridgeID) == Some(bridge))
    {
      current := Current(bridges, bridge);
    }

    /** Lists, each once, the phones that a broadcast of `bridge` reaches. */
    method PhonesTargeting(bridge: Connection) returns (reached: seq<Connection>)
      requires Valid()
      ensures forall p :: p in reached <==> p in View().PhonesTargeting(bridge)
      ensures forall i, j :: 0 <= i < j < |reached| ==> reached[i] != reached[j]
    {
      reached := [];
      if !Current(bridges, bridge) {
        return;
      }
      var rest := phones.Keys;
      while rest != {}
        invariant rest <= phones.Keys
        invariant forall p :: p in reached ==>
          p.connID in phones.Keys - rest && phones[p.connID] == p && Target(bridges, p.bridgeID) == Some(bridge)
        invariant forall c :: c in phones.Keys - rest && Target(bridges, phones[c].bridgeID) == Some(bridge) ==>
          phones[c] in reached
        invariant forall i, j :: 0 <= i < j < |reached| ==> reached[i] != reached[j]
        decreases |rest|
      {
        var c :| c in rest;
        rest := rest - {c};
        var target := TargetOf(phones[c]);
        if target == Some(bridge) {
          reached := reached + [phones[c]];
        }
      }
    }

    method PhoneTargeting(bridge: Connection, connID: nat) returns (phone: Option<Connection>)
      requires Valid()
      ensures phone == View().PhoneTargeting(bridge, connID)
    {
      phone := Lookup(phones, connID);
      if phone == None || !Current(bridges, bridge) {
        return None;
      }
      var target := TargetOf(phone.value);
      if target != Some(bridge) {
        return None;
      }
    }

    /** Lists every phone of the group once. */
    method AllPhones() returns (all: seq<Connection>)
      requires PhonesKeyed(phones)
      ensures forall p :: p in all <==> Registered(phones, p)
      ensures forall i, j :: 0 <= i < j < |all| ==> all[i] != all[j]
    {
      all := [];
      var rest := phones.Keys;
      while rest != {}
        invariant rest <= phones.Keys
        invariant forall p :: p in all <==> p.connID in phones.Keys - rest && phones[p.connID] == p
        invariant forall i, j :: 0 <= i < j < |all| ==> all[i] != all[j]
        decreases |rest|
      {
        var c :| c in rest;
        rest := rest - {c};
        all := all + [phones[c]];
      }
    }

    /** The search loop of AddPhone: takes ids from the counter until one is
        free; `tries` counts them. */
    method TakeFreeConnID() returns (id: nat, ghost tries: nat)
      requires IsConnID(nextConnID) && |phones.Keys| < MAX_CONN_ID
      modifies this`nextConnID
      ensures id == FreeID(phones.Keys, old(nextConnID)) && nextConnID == Advance(id)
      ensures 1 <= tries <= |phones.Keys| + 1
    {
      id := AssignConnID();
      tries := 1;
      while id in phones
        invariant 1 <= tries <= |phones.Keys| + 1
        invariant id == Nth(old(nextConnID), tries - 1) && nextConnID == Advance(id)
        invariant TakenUpTo(phones.Keys, old(nextConnID), tries - 1)
        decreases |phones.Keys| + 1 - tries
      {
        Pigeonhole(phones.Keys, old(nextConnID), tries);
        id := AssignConnID();
        tries := tries + 1;
      }
      FreeIDIs(phones.Keys, old(nextConnID), tries - 1);
    }

    /** Registers `phone` under the first free connId of the circle. */
    method AddPhone(phone: Connection)
      returns (registered: Connection, target: Option<Connection>, ok: bool, ghost tries: nat)
      requires Valid()
      modifies this`phones, this`nextConnID
      ensures Valid()
      ensures ok == old(View().RoomForPhone())
      ensures ok <==> |old(phones)| <= 4
      ensures ok ==> registered == old(View()).Admit(phone) && View() == old(View()).WithPhone(phone)
      ensures ok ==> target == Target(bridges, phone.bridgeID)
      ensures ok ==> 1 <= tries <= |old(phones)| + 1
      ensures !ok ==> registered == phone && target == None && View() == old(View())
    {
      if |phones| >= MAX_PHONES {
        return phone, None, false, 0;
      }
      JoinPhoneKeepsValid(View(), phone);
      var id;
      id, tries := TakeFreeConnID();
      registered := phone.(connID := id);
      phones := phones[id := registered];
      target := TargetOf(registered);
      ok := true;
    }

    /** Deletes by connId, without an identity check. */
    method RemovePhone(phone: Connection) returns (target: Option<Connection>)
      requires Valid()
      modifies this`phones
      ensures Valid() && View() == old(View()).WithoutPhone(phone.connID)
      ensures target == Target(bridges, phone.bridgeID)
    {
      LeavePhoneKeepsValid(View(), phone.connID);
      phones := phones - {phone.connID};
      target := TargetOf(phone);
    }

    method BridgeForPhone(phone: Connection) returns (target: Option<Connection>)
      requires Valid()
      ensures target == View().BridgeForPhone(phone)
    {
      if Lookup(phones, phone.connID) != Some(phone) {
        return None;
      }
      target := TargetOf(phone);
    }

    method IsEmpty() returns (empty: bool)
      ensures empty == View().Empty()
      ensures empty <==> bridges == map[] && phones == map[]
    {
      empty := |bridges| == 0 && |phones| == 0;
    }
  }
}
