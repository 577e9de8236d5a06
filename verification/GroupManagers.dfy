/** The registry of live account groups. */
module GroupManagers {
  import opened Connections
  import opened Groups
  import opened AccountGroups

  class GroupManager {
    var groups: map<string, AccountGroup>

    /** Every group is registered under its own user. */
    ghost predicate Valid()
      reads this, groups.Values
    {
      forall user :: user in groups ==> groups[user].userID == user && groups[user].Valid()
    }

    constructor ()
      ensures Valid() && groups == map[]
    {
      groups := map[];
    }

    method GetOrCreateGroup(userID: string) returns (group: AccountGroup)
      requires Valid()
      modifies this
      ensures Valid() && userID in groups && groups[userID] == group
      ensures userID in old(groups) ==> groups == old(groups)
      ensures userID !in old(groups) ==>
        fresh(group) && group.View() == NewGroup(userID) && groups == old(groups)[userID := group]
    {
      if userID in groups {
        return groups[userID];
      }
      group := new AccountGroup(userID);
      groups := groups[userID := group];
    }

    /** Removes `group` only if it is the registered instance and empty. */
    method RemoveGroupIfEmpty(userID: string, group: AccountGroup)
      requires Valid()
      modifies this
      ensures Valid()
      ensures groups ==
        if Lookup(old(groups), userID) == Some(group) && group.View().Empty()
        then old(groups) - {userID} else old(groups)
    {
      if userID in groups && groups[userID] == group {
        var empty := groups[userID].IsEmpty();
        if empty {
          groups := groups - {userID};
        }
      }
    }

    method Count() returns (n: nat)
      ensures n == |groups.Keys|
    {
      n := |groups|;
    }

    method HasLiveBridgeWithID(userID: string, bridgeID: string) returns (live: bool)
      requires Valid()
      ensures live <==> userID in groups && bridgeID in groups[userID].bridges
    {
      if userID !in groups {
        return false;
      }
      live := Lookup(groups[userID].bridges, bridgeID) != None;
    }
  }
}
