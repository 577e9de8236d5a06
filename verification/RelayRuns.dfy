/** What holds in every reachable state of the relay, however the critical
    sections of its handlers interleave: no group leaks, the caps, the account
    boundaries and the connIds. */
module RelayRuns {
  import opened Connections
  import opened ConnIds
  import opened Groups
  import opened HandlerSteps
  import opened Relay

  lemma {:induction false} RunAppend(s: State, es: seq<Event>, more: seq<Event>)
    requires Legal(s, es) && Legal(Run(s, es), more)
    ensures Legal(s, es + more) && Run(s, es + more) == Run(Run(s, es), more)
    decreases |es|
  {
    if es == [] {
      assert es + more == more;
    } else {
      RunAppend(Next(s, es[0]), es[1..], more);
      assert (es + more)[1..] == es[1..] + more;
    }
  }

  lemma OneEvent(s: State, e: Event)
    requires Enabled(s, e)
    ensures Legal(s, [e]) && Run(s, [e]) == Next(s, e)
  {
    assert [e][1..] == [];
    assert Legal(Next(s, e), []);
  }

  lemma Extend(s: State, es: seq<Event>, e: Event)
    requires Legal(s, es) && Enabled(Run(s, es), e)
    ensures Legal(s, es + [e]) && Run(s, es + [e]) == Next(Run(s, es), e)
  {
    OneEvent(Run(s, es), e);
    RunAppend(s, es, [e]);
  }

  // ---------- No leaked groups ----------

  /** A handler in this phase will still try to clean up group `k`, or join it. */
  predicate Holds(phase: Phase, k: nat) {
    match phase
    case Fetched(g) => g == k
    case Left(g, _) => g == k
    case Checked(g) => g == k
    case Emptied(g) => g == k
    case _ => false
  }

  ghost predicate HeldBySome(s: State, k: nat) {
    exists h :: h in s.handlers && Holds(s.handlers[h].phase, k)
  }

  ghost predicate Kept(s: State, k: nat) {
    k < |s.groups| && (!s.groups[k].Empty() || HeldBySome(s, k))
  }

  ghost predicate NoLeak(s: State) {
    forall user :: user in s.registry ==> Kept(s, s.registry[user])
  }

  /** A holder that tries to join an empty group becomes a member of it. */
  lemma JoinsEmptyGroup(s: State, e: Event, k: nat)
    requires Enabled(s, e) && (e.AddBridge? || e.AddPhone?)
    requires s.handlers[e.h].phase == Fetched(k) && k < |s.groups| && s.groups[k].Empty()
    ensures k < |Next(s, e).groups| && !Next(s, e).groups[k].Empty()
  {
    var t := Next(s, e);
    if e.AddBridge? {
      assert s.handlers[e.h].bridgeID in t.groups[k].bridges;
    } else {
      var p := NewConnection(e.h, s.handlers[e.h].bridgeID, 0);
      assert s.groups[k].Admit(p).connID in t.groups[k].phones;
    }
  }

  /** A holder that goes on cleaning up an empty registered group holds it. */
  lemma CleansEmptyGroup(s: State, e: Event, user: string, k: nat)
    requires Enabled(s, e) && (e.CheckLive? || e.CheckEmpty? || e.Unregister?)
    requires HandlerOk(s, e.h) && Holds(s.handlers[e.h].phase, k)
    requires k < |s.groups| && s.groups[k].user == user && s.groups[k].Empty()
    requires Lookup(s.registry, user) == Some(k) && Lookup(Next(s, e).registry, user) == Some(k)
    ensures e.h in Next(s, e).handlers && Holds(Next(s, e).handlers[e.h].phase, k)
  {
  }

  /** A handler of an empty registered group goes on holding it. */
  lemma HolderStays(s: State, e: Event, x: nat, user: string, k: nat)
    requires Enabled(s, e) && x in s.handlers && HandlerOk(s, x) && Holds(s.handlers[x].phase, k)
    requires k < |s.groups| && s.groups[k].user == user && s.groups[k].Empty()
    requires Lookup(s.registry, user) == Some(k) && Lookup(Next(s, e).registry, user) == Some(k)
    ensures Kept(Next(s, e), k)
  {
    if e.Refuse? || e.h != x {
      OthersStay(s, e, x);
      GroupsGrow(s, e);
    } else if e.AddBridge? || e.AddPhone? {
      JoinsEmptyGroup(s, e, k);
    } else {
      GroupsGrow(s, e);
      CleansEmptyGroup(s, e, user, k);
    }
  }

  lemma GroupsGrow(s: State, e: Event)
    requires Enabled(s, e)
    ensures |s.groups| <= |Next(s, e).groups|
  {
  }

  /** Whoever takes the last member out of a group holds it afterwards. */
  lemma LastMemberHolds(s: State, e: Event, k: nat)
    requires Enabled(s, e) && k < |s.groups| && !s.groups[k].Empty()
    requires e.RemoveBridge? || e.RemovePhone?
    ensures Kept(Next(s, e), k)
  {
    var t := Next(s, e);
    var h := e.h;
    assert t.groups[k] != s.groups[k] ==> Holds(t.handlers[h].phase, k);
  }

  lemma OtherStepKeepsMembers(s: State, e: Event, k: nat)
    requires Enabled(s, e) && k < |s.groups| && !s.groups[k].Empty()
    requires !e.RemoveBridge? && !e.RemovePhone?
    ensures k < |Next(s, e).groups| && !Next(s, e).groups[k].Empty()
  {
    var t := Next(s, e);
    assert t.groups[k].bridges.Keys >= s.groups[k].bridges.Keys && t.groups[k].phones.Keys >= s.groups[k].phones.Keys;
  }

  lemma FetcherHolds(s: State, e: Event, user: string)
    requires Enabled(s, e) && user !in s.registry && user in Next(s, e).registry
    ensures Kept(Next(s, e), Next(s, e).registry[user])
  {
    assert e.Fetch? && Holds(Next(s, e).handlers[e.h].phase, Next(s, e).registry[user]);
  }

  lemma KeptStep(s: State, e: Event, user: string)
    requires Membership(s) && NoLeak(s) && Enabled(s, e) && user in Next(s, e).registry
    ensures Kept(Next(s, e), Next(s, e).registry[user])
  {
    var t := Next(s, e);
    var k := t.registry[user];
    if user !in s.registry {
      FetcherHolds(s, e, user);
    } else {
      assert k == s.registry[user];
      StillKept(s, e, user, k);
    }
  }

  lemma StillKept(s: State, e: Event, user: string, k: nat)
    requires Membership(s) && Enabled(s, e) && Kept(s, k)
    requires Lookup(s.registry, user) == Some(k) && Lookup(Next(s, e).registry, user) == Some(k)
    ensures Kept(Next(s, e), k)
  {
    if !s.groups[k].Empty() {
      if e.RemoveBridge? || e.RemovePhone? { LastMemberHolds(s, e, k); } else { OtherStepKeepsMembers(s, e, k); }
    } else {
      var x :| x in s.handlers && Holds(s.handlers[x].phase, k);
      assert InGroup(s, k, user);
      HolderStays(s, e, x, user, k);
    }
  }

  lemma StepKeepsSound(s: State, e: Event)
    requires Membership(s) && NoLeak(s) && Enabled(s, e)
    ensures Membership(Next(s, e)) && NoLeak(Next(s, e))
  {
    StepKeepsMembership(s, e);
    forall user | user in Next(s, e).registry ensures Kept(Next(s, e), Next(s, e).registry[user]) {
      KeptStep(s, e, user);
    }
  }

  lemma {:induction false} RunKeepsMembership(s: State, es: seq<Event>)
    requires Membership(s) && NoLeak(s) && Legal(s, es)
    ensures Membership(Run(s, es)) && NoLeak(Run(s, es))
    decreases |es|
  {
    if es != [] {
      StepKeepsSound(s, es[0]);
      RunKeepsMembership(Next(s, es[0]), es[1..]);
    }
  }

  /** In every interleaving a registered group has a member or a handler that
      will clean it up or join it; when no handler is between its fetch and its
      cleanup, nothing is registered. */
  lemma NoLeakedGroups(limit: int, es: seq<Event>)
    requires Legal(Init(limit), es)
    ensures NoLeak(Run(Init(limit), es))
    ensures var s := Run(Init(limit), es);
      (forall h :: h in s.handlers ==> s.handlers[h].phase in {Admitted, Exiting, Phase.Released})
      ==> s.registry == map[]
  {
    RunKeepsMembership(Init(limit), es);
    var s := Run(Init(limit), es);
    if (forall h :: h in s.handlers ==> s.handlers[h].phase in {Admitted, Exiting, Phase.Released}) {
      if user :| user in s.registry {
        IdleGroupIsEmpty(s, s.registry[user]);
        assert false;
      }
    }
  }

  lemma IdleGroupIsEmpty(s: State, k: nat)
    requires Membership(s) && k < |s.groups|
    requires forall h :: h in s.handlers ==> !s.handlers[h].phase.Joined?
    ensures s.groups[k].Empty()
  {
    assert GroupOk(s, k);
    assert forall id :: id in s.groups[k].bridges ==> Owned(s, k, s.groups[k].bridges[id], Bridge);
    assert forall c :: c in s.groups[k].phones ==> Owned(s, k, s.groups[k].phones[c], Phone);
    assert s.groups[k].bridges.Keys == {} && s.groups[k].phones.Keys == {};
  }

  // ---------- Caps, account boundaries, connIds ----------

  /** In every interleaving every group, registered or stale, keeps its caps
      and keys, and every connection in it belongs to one handler of the
      group's own account; a registered group sits under its own user. */
  lemma AccountsAreIsolated(limit: int, es: seq<Event>, k: nat)
    requires Legal(Init(limit), es) && k < |Run(Init(limit), es).groups|
    ensures var s := Run(Init(limit), es); var g := s.groups[k];
      && g.Valid() && |g.bridges| <= MAX_BRIDGES && |g.phones| <= MAX_PHONES && IsConnID(g.nextConnID)
      && (forall id :: id in g.bridges ==> Owned(s, k, g.bridges[id], Bridge)
                                           && s.handlers[g.bridges[id].handle].user == g.user)
      && (forall c :: c in g.phones ==> Owned(s, k, g.phones[c], Phone)
                                        && s.handlers[g.phones[c].handle].user == g.user)
      && (forall user :: user in s.registry && s.registry[user] == k ==> user == g.user)
  {
    RunKeepsMembership(Init(limit), es);
    var s := Run(Init(limit), es);
    var g := s.groups[k];
    assert GroupOk(s, k);
    forall id | id in g.bridges ensures s.handlers[g.bridges[id].handle].user == g.user {
      assert Owned(s, k, g.bridges[id], Bridge) && HandlerOk(s, g.bridges[id].handle);
    }
    forall c | c in g.phones ensures s.handlers[g.phones[c].handle].user == g.user {
      assert Owned(s, k, g.phones[c], Phone) && HandlerOk(s, g.phones[c].handle);
    }
  }

  /** In every interleaving, after any number of connId wrap-arounds, a phone's
      teardown deletes the entry of that very phone and nothing else. */
  lemma RemovePhoneDeletesItself(limit: int, es: seq<Event>, h: nat)
    requires Legal(Init(limit), es) && Enabled(Run(Init(limit), es), RemovePhone(h))
    ensures var s := Run(Init(limit), es); var t := Next(s, RemovePhone(h));
      var k, p := s.handlers[h].phase.group, s.handlers[h].phase.conn;
      && p.connID in s.groups[k].phones && s.groups[k].phones[p.connID] == p && p.handle == h
      && (forall c :: c in s.groups[k].phones && s.groups[k].phones[c].handle != h ==>
            c in t.groups[k].phones && t.groups[k].phones[c] == s.groups[k].phones[c])
      && (forall c :: c in t.groups[k].phones ==> t.groups[k].phones[c].handle != h)
      && |t.groups[k].phones| == |s.groups[k].phones| - 1
      && (forall j :: 0 <= j < |s.groups| && j != k ==> t.groups[j] == s.groups[j])
  {
    RunKeepsMembership(Init(limit), es);
    var s := Run(Init(limit), es);
    var t := Next(s, RemovePhone(h));
    var k, p := s.handlers[h].phase.group, s.handlers[h].phase.conn;
    assert HandlerOk(s, h) && GroupOk(s, k);
    assert t.groups[k].phones.Keys == s.groups[k].phones.Keys - {p.connID};
    forall c | c in t.groups[k].phones ensures t.groups[k].phones[c].handle != h {
      assert Owned(s, k, s.groups[k].phones[c], Phone);
    }
  }

  /** The well-formedness guards of the step system never block a handler:
      in a reachable state its phase alone decides what it can do next. */
  lemma GuardsHold(limit: int, es: seq<Event>, h: nat)
    requires Legal(Init(limit), es) && h in Run(Init(limit), es).handlers
    ensures var s := Run(Init(limit), es); var H := s.handlers[h];
      && (H.phase.Fetched? ==> Enabled(s, if H.role.Bridge? then AddBridge(h, 0) else AddPhone(h)))
      && (H.phase.Joined? ==> Enabled(s, if H.role.Bridge? then RemoveBridge(h) else RemovePhone(h)))
      && (H.phase.Checked? && s.lock.None? ==> Enabled(s, CheckEmpty(h)))
      && (s.lock.Some? ==> Enabled(s, Unregister(s.lock.value)))
  {
    RunKeepsMembership(Init(limit), es);
    var s := Run(Init(limit), es);
    assert HandlerOk(s, h);
    if s.handlers[h].phase.Fetched? || s.handlers[h].phase.Joined? || s.handlers[h].phase.Checked? {
      assert GroupOk(s, s.handlers[h].phase.group);
    }
  }

  /** An instance that is not registered is never registered again, so a
      cleanup can only ever remove the instance its handler was in. */
  lemma {:induction false} RetiredStaysRetired(s: State, es: seq<Event>, k: nat)
    requires Legal(s, es) && k < |s.groups| && k !in s.registry.Values
    ensures k < |Run(s, es).groups| && k !in Run(s, es).registry.Values
    decreases |es|
  {
    if es != [] {
      RetiredStep(s, es[0], k);
      RetiredStaysRetired(Next(s, es[0]), es[1..], k);
    }
  }

  lemma RetiredStep(s: State, e: Event, k: nat)
    requires Enabled(s, e) && k < |s.groups| && k !in s.registry.Values
    ensures k < |Next(s, e).groups| && k !in Next(s, e).registry.Values
  {
    var t := Next(s, e);
    forall user | user in t.registry ensures t.registry[user] != k {
      if user in s.registry { assert s.registry[user] in s.registry.Values; }
    }
  }

  /** The registry only loses an entry to a handler of that entry's own
      instance. */
  lemma CleanupRemovesOwnInstance(limit: int, es: seq<Event>, e: Event, user: string)
    requires Legal(Init(limit), es) && Enabled(Run(Init(limit), es), e)
    requires user in Run(Init(limit), es).registry && user !in Next(Run(Init(limit), es), e).registry
    ensures var s := Run(Init(limit), es);
      e.Unregister? && s.handlers[e.h].user == user && s.handlers[e.h].phase == Emptied(s.registry[user])
  {
    RunKeepsMembership(Init(limit), es);
    assert HandlerOk(Run(Init(limit), es), e.h);
  }
}
