/** Stale groups: a handler can fetch its group and join it only after a
    cleanup has taken it out of the registry. Whether that happened is decided
    at the join and never changes while the connection is a member. */
module Anchors {
  import opened Connections
  import opened HandlerSteps
  import opened Relay
  import opened RelayRuns
  import opened Displacement

  /** `h` is in group `k` as a phone or as a current bridge. */
  ghost predicate Member(s: State, h: nat, k: nat) {
    && h in s.handlers && s.handlers[h].phase.Joined? && s.handlers[h].phase.group == k
    && (s.handlers[h].role.Bridge? ==> BridgeLive(s, h))
  }

  /** Group `k` is registered and no cleanup that saw it empty is pending. */
  ghost predicate Anchored(s: State, user: string, k: nat) {
    && Lookup(s.registry, user) == Some(k)
    && !exists x :: x in s.handlers && s.handlers[x].phase == Emptied(k)
  }

  lemma MemberMeansNotEmpty(s: State, h: nat, k: nat)
    requires Membership(s) && Member(s, h, k)
    ensures k < |s.groups| && s.groups[k].user == s.handlers[h].user && !s.groups[k].Empty()
  {
    assert HandlerOk(s, h);
    if s.handlers[h].role.Bridge? { LiveIsCurrent(s, h); }
  }

  lemma DoomComesFromEmptiness(s: State, e: Event, x: nat, k: nat)
    requires Enabled(s, e) && x in Next(s, e).handlers && Next(s, e).handlers[x].phase == Emptied(k)
    ensures x in s.handlers && (s.handlers[x].phase == Emptied(k) || (k < |s.groups| && s.groups[k].Empty()))
  {
  }

  lemma RegistrationLasts(s: State, e: Event, user: string, k: nat)
    requires Enabled(s, e) && Anchored(s, user, k)
    requires e.Unregister? ==> HandlerOk(s, e.h)
    ensures Lookup(Next(s, e).registry, user) == Some(k)
  {
    if e.Unregister? {
      assert s.handlers[e.h].phase != Emptied(k);
    }
  }

  lemma AnchorHolds(s: State, e: Event, user: string, k: nat)
    requires Enabled(s, e) && k < |s.groups| && !s.groups[k].Empty() && Anchored(s, user, k)
    requires e.Unregister? ==> HandlerOk(s, e.h)
    ensures Anchored(Next(s, e), user, k)
  {
    var t := Next(s, e);
    RegistrationLasts(s, e, user, k);
    if x :| x in t.handlers && t.handlers[x].phase == Emptied(k) {
      DoomComesFromEmptiness(s, e, x, k);
      assert false;
    }
  }

  lemma AnchorNotRegained(s: State, e: Event, user: string, k: nat)
    requires Enabled(s, e) && k < |s.groups| && Lookup(s.registry, user) != Some(k)
    ensures Lookup(Next(s, e).registry, user) != Some(k)
  {
  }

  lemma DoomStays(s: State, e: Event, user: string, k: nat, x: nat)
    requires Enabled(s, e) && k < |s.groups| && s.groups[k].user == user
    requires x in s.handlers && s.handlers[x].phase == Emptied(k) && HandlerOk(s, x)
    ensures !Anchored(Next(s, e), user, k)
  {
    var t := Next(s, e);
    if e == Unregister(x) {
      assert user !in t.registry;
    } else {
      assert x in t.handlers && t.handlers[x].phase == Emptied(k);
    }
  }

  lemma AnchorStep(s: State, e: Event, h: nat, k: nat)
    requires Membership(s) && Enabled(s, e) && Member(s, h, k)
    ensures Anchored(s, s.handlers[h].user, k) <==> Anchored(Next(s, e), s.handlers[h].user, k)
  {
    var user := s.handlers[h].user;
    MemberMeansNotEmpty(s, h, k);
    if Anchored(s, user, k) {
      AnchorHolds(s, e, user, k);
    } else if Lookup(s.registry, user) == Some(k) {
      var x :| x in s.handlers && s.handlers[x].phase == Emptied(k);
      DoomStays(s, e, user, k, x);
    } else {
      AnchorNotRegained(s, e, user, k);
    }
  }

  /** Membership ends for good: a handler that is a member now and later was a
      member all along. */
  lemma MemberBefore(s: State, e: Event, h: nat, k: nat)
    requires Enabled(s, e) && h in s.handlers && s.handlers[h].phase.Joined? && Member(Next(s, e), h, k)
    ensures Member(s, h, k)
  {
    StepEvolves(s, e, h);
    if s.handlers[h].role.Bridge? { LiveBefore(s, e, h); }
  }

  lemma {:induction false} MemberAtStart(s: State, es: seq<Event>, h: nat, k: nat)
    requires Legal(s, es) && h in s.handlers && s.handlers[h].phase.Joined? && Member(Run(s, es), h, k)
    ensures Member(s, h, k)
    decreases |es|
  {
    if es != [] {
      JoinedBefore(s, es[0], es[1..], h);
      MemberAtStart(Next(s, es[0]), es[1..], h, k);
      MemberBefore(s, es[0], h, k);
    }
  }

  lemma JoinedBefore(s: State, e: Event, es: seq<Event>, h: nat)
    requires Enabled(s, e) && Legal(Next(s, e), es) && h in s.handlers && s.handlers[h].phase.Joined?
    requires h in Run(Next(s, e), es).handlers && Run(Next(s, e), es).handlers[h].phase.Joined?
    ensures h in Next(s, e).handlers && Next(s, e).handlers[h].phase.Joined?
    ensures Next(s, e).handlers[h].user == s.handlers[h].user
  {
    StepEvolves(s, e, h);
    RunEvolves(Next(s, e), es, h);
  }

  /** Between any two states of a connection's membership its group is
      anchored in both or in neither, whatever runs in between. */
  lemma {:induction false} AnchorIsDecidedAtJoin(s: State, es: seq<Event>, h: nat, k: nat)
    requires Membership(s) && NoLeak(s) && Legal(s, es)
    requires h in s.handlers && s.handlers[h].phase.Joined? && Member(Run(s, es), h, k)
    ensures Member(s, h, k) && Run(s, es).handlers[h].user == s.handlers[h].user
    ensures Anchored(s, s.handlers[h].user, k) <==> Anchored(Run(s, es), s.handlers[h].user, k)
    decreases |es|
  {
    if es != [] {
      var t := Next(s, es[0]);
      MemberAtStart(s, es, h, k);
      JoinedBefore(s, es[0], es[1..], h);
      AnchorStep(s, es[0], h, k);
      StepKeepsSound(s, es[0]);
      AnchorIsDecidedAtJoin(t, es[1..], h, k);
    }
  }

  /** A join neither anchors its group nor takes the anchor away, so a caller
      can tell before the call. */
  lemma JoinKeepsAnchor(s: State, e: Event, user: string, k: nat)
    requires Enabled(s, e) && (e.AddBridge? || e.AddPhone?) && k < |s.groups|
    ensures Anchored(Next(s, e), user, k) <==> Anchored(s, user, k)
  {
    var t := Next(s, e);
    JoinDoomsNobody(s, e, e.h, k);
    forall x
      ensures (x in t.handlers && t.handlers[x].phase == Emptied(k))
         <==> (x in s.handlers && s.handlers[x].phase == Emptied(k))
    {
      JoinDoomsNobody(s, e, x, k);
    }
  }

  lemma JoinDoomsNobody(s: State, e: Event, x: nat, k: nat)
    requires Enabled(s, e) && (e.AddBridge? || e.AddPhone?)
    ensures Next(s, e).registry == s.registry
    ensures (x in Next(s, e).handlers && Next(s, e).handlers[x].phase == Emptied(k))
       <==> (x in s.handlers && s.handlers[x].phase == Emptied(k))
  {
  }

  /** Suppose a connection is still a member at a later state `t`. If the group
      it had fetched was registered and unthreatened at its join, that group is
      registered at `t`. If not, the group is unregistered at `t`, or the
      cleanup that threatened it at the join is still in its critical section;
      so with the registry unlocked, being registered later is decided by the
      moment of the join. */
  lemma StaleExactlyIfStaleAtJoin(s: State, e: Event, es: seq<Event>, k: nat)
    requires Membership(s) && NoLeak(s) && Enabled(s, e) && (e.AddBridge? || e.AddPhone?)
    requires Legal(Next(s, e), es) && Member(Run(Next(s, e), es), e.h, k)
    ensures s.handlers[e.h].phase == Fetched(k)
    ensures var t, user := Run(Next(s, e), es), s.handlers[e.h].user;
      && t.handlers[e.h].user == user
      && (Anchored(t, user, k) <==> Anchored(s, user, k))
      && (Anchored(s, user, k) ==> Lookup(t.registry, user) == Some(k))
      && (t.lock.None? ==> (Lookup(t.registry, user) == Some(k) <==> Anchored(s, user, k)))
  {
    var t := Next(s, e);
    StepKeepsSound(s, e);
    OwnStepDescends(s, e);
    OwnStepKeepsIdentity(s, e);
    RunEvolves(t, es, e.h);
    AnchorIsDecidedAtJoin(t, es, e.h, k);
    assert HandlerOk(s, e.h);
    JoinKeepsAnchor(s, e, s.handlers[e.h].user, k);
    RunKeepsMembership(t, es);
    UnlockedMeansUnthreatened(Run(t, es), s.handlers[e.h].user, k);
  }

  /** With the registry unlocked no cleanup is between its check and its delete. */
  lemma UnlockedMeansUnthreatened(s: State, user: string, k: nat)
    requires Membership(s)
    ensures s.lock.None? ==> (Anchored(s, user, k) <==> Lookup(s.registry, user) == Some(k))
  {
    assert forall x :: x in s.handlers && s.handlers[x].phase == Emptied(k) ==> HandlerOk(s, x) && s.lock == Some(x);
  }

  /** Two connections of one account that both joined an anchored group share
      one group, so they can see each other. */
  lemma AnchoredMembersMeet(s: State, h1: nat, k1: nat, h2: nat, k2: nat)
    requires Membership(s) && Member(s, h1, k1) && Member(s, h2, k2)
    requires s.handlers[h1].user == s.handlers[h2].user
    requires Anchored(s, s.handlers[h1].user, k1) && Anchored(s, s.handlers[h2].user, k2)
    ensures k1 == k2
  {
  }
}
