/** How runs end. Handlers never wait on each other in a circle: as long as one
    has not released its admission, some handler can take a step, and no
    handler has more than seven of them. So once connections stop arriving every
    path ends, and it ends with nothing counted, registered or joined. */
module Endings {
  import opened Connections
  import opened HandlerSteps
  import opened LimiterRuns
  import opened RateLimits
  import opened Relay
  import opened RelayRuns

  ghost function Ranks(s: State): map<nat, nat> {
    map h | h in s.handlers :: Rank(s.handlers[h].phase)
  }

  /** How many steps the handlers can still take together, at most. */
  ghost function StepsLeft(s: State): nat {
    Sum(Ranks(s), Ranks(s).Keys)
  }

  ghost predicate AllReleased(s: State) {
    forall h :: h in s.handlers ==> s.handlers[h].phase.Released?
  }

  /** No handler can get on with its life. */
  ghost predicate Stuck(s: State) {
    forall e :: IsOwnStep(e) ==> !Enabled(s, e)
  }

  ghost predicate OwnSteps(es: seq<Event>) {
    forall i :: 0 <= i < |es| ==> IsOwnStep(es[i])
  }

  /** Nothing is left of the handlers that came and went. */
  ghost predicate Clean(s: State) {
    && s.counts == map[] && s.registry == map[] && s.lock == None
    && forall k :: 0 <= k < |s.groups| ==> s.groups[k].Empty()
  }

  // ---------- Every step counts ----------

  lemma SumLess(m: map<nat, nat>, n: map<nat, nat>, h: nat)
    requires m.Keys == n.Keys && h in m && m[h] < n[h]
    requires forall x :: x in m && x != h ==> m[x] == n[x]
    ensures Sum(m, m.Keys) < Sum(n, n.Keys)
  {
    SumTakeOut(m, m.Keys, h);
    SumTakeOut(n, n.Keys, h);
    SumAgrees(m, n, m.Keys - {h});
  }

  lemma StepLowers(s: State, e: Event)
    requires Enabled(s, e) && IsOwnStep(e)
    ensures StepsLeft(Next(s, e)) < StepsLeft(s)
  {
    OwnStepKeepsIdentity(s, e);
    OwnStepDescends(s, e);
    forall x | x in s.handlers && x != e.h ensures Next(s, e).handlers[x] == s.handlers[x] { OthersStay(s, e, x); }
    SumLess(Ranks(Next(s, e)), Ranks(s), e.h);
  }

  lemma {:induction false} RunLowers(s: State, es: seq<Event>)
    requires Legal(s, es) && OwnSteps(es)
    ensures |es| + StepsLeft(Run(s, es)) <= StepsLeft(s)
    decreases |es|
  {
    if es != [] {
      StepLowers(s, es[0]);
      RunLowers(Next(s, es[0]), es[1..]);
    }
  }

  // ---------- Somebody can always go on ----------

  /** What a handler does next on its way out. */
  function WayOut(s: State, h: nat): Event
    requires h in s.handlers
  {
    match s.handlers[h].phase
    case Admitted => Abandon(h)
    case Fetched(_) => if s.handlers[h].role.Bridge? then AddBridge(h, 0) else AddPhone(h)
    case Joined(_, _) => if s.handlers[h].role.Bridge? then RemoveBridge(h) else RemovePhone(h)
    case Left(_, _) => CheckLive(h)
    case Checked(_) => CheckEmpty(h)
    case Emptied(_) => Unregister(h)
    case Exiting => Event.Release(h)
    case Released => Event.Release(h)
  }

  /** Only a pending cleanup makes others wait, and it waits for nobody. */
  lemma CanGo(s: State, h: nat)
    requires Membership(s) && h in s.handlers && !s.handlers[h].phase.Released?
    requires s.lock == None || s.lock == Some(h)
    ensures IsOwnStep(WayOut(s, h)) && Enabled(s, WayOut(s, h))
  {
    assert HandlerOk(s, h);
    if s.handlers[h].phase.Fetched? || s.handlers[h].phase.Joined? || s.handlers[h].phase.Checked? {
      assert GroupOk(s, s.handlers[h].phase.group);
    }
  }

  lemma SomebodyCanGo(s: State) returns (e: Event)
    requires Membership(s) && !AllReleased(s)
    ensures IsOwnStep(e) && Enabled(s, e)
  {
    var h :| h in s.handlers && !s.handlers[h].phase.Released?;
    if s.lock.Some? { h := s.lock.value; }
    CanGo(s, h);
    e := WayOut(s, h);
  }

  lemma ReleasedIsStuck(s: State)
    requires AllReleased(s)
    ensures Stuck(s)
  {
    forall e | IsOwnStep(e) ensures !Enabled(s, e) {
      if Enabled(s, e) { OwnStepDescends(s, e); }
    }
  }

  // ---------- What is left at the end ----------

  lemma CountsAreEmpty(s: State)
    requires Conserved(s)
    ensures s.counts == map[] <==> AllReleased(s)
  {
    if s.counts == map[] {
      forall h | h in s.handlers ensures s.handlers[h].phase.Released? {
        var ip := s.handlers[h].ip;
        assert |AliveFrom(s, ip)| == CountOf(s.counts, ip) == 0;
        assert h !in AliveFrom(s, ip);
      }
    }
    if AllReleased(s) {
      forall ip ensures ip !in s.counts { assert AliveFrom(s, ip) == {}; }
    }
  }

  lemma EndIsClean(s: State)
    requires Membership(s) && NoLeak(s) && Conserved(s) && AllReleased(s)
    ensures Clean(s)
  {
    CountsAreEmpty(s);
    forall k | 0 <= k < |s.groups| ensures s.groups[k].Empty() { IdleGroupIsEmpty(s, k); }
    assert forall k :: !Kept(s, k);
    assert s.registry.Keys == {};
  }

  lemma Reachable(limit: int, es: seq<Event>)
    requires Legal(Init(limit), es)
    ensures var s := Run(Init(limit), es); Membership(s) && NoLeak(s) && Conserved(s)
  {
    var s0 := Init(limit);
    RunKeepsMembership(s0, es);
    forall ip ensures |AliveFrom(s0, ip)| == 0 { assert AliveFrom(s0, ip) == {}; }
    RunConserves(s0, es);
  }

  // ---------- The results ----------

  /** Where the handlers can be when they are stuck, and what is left then. */
  lemma StuckMeansReleased(s: State)
    requires Membership(s)
    ensures Stuck(s) <==> AllReleased(s)
  {
    if AllReleased(s) {
      ReleasedIsStuck(s);
    } else {
      var e := SomebodyCanGo(s);
    }
  }

  /** From every reachable state, whichever way the handlers go on without
      arrivals: their steps are bounded, they are stuck exactly when all have
      released, which is exactly when no address is counted; then each handler
      has released once and nothing is left of any. */
  lemma EveryWayEnds(limit: int, es: seq<Event>, more: seq<Event>)
    requires Legal(Init(limit), es) && Legal(Run(Init(limit), es), more) && OwnSteps(more)
    ensures var s := Run(Init(limit), es); var t := Run(s, more);
      && |more| <= StepsLeft(s) <= 7 * |s.handlers|
      && (Stuck(t) <==> AllReleased(t)) && (t.counts == map[] <==> AllReleased(t))
      && (Stuck(t) ==> Clean(t) && forall h :: h in t.handlers ==> multiset(es + more)[Event.Release(h)] == 1)
  {
    var s := Run(Init(limit), es);
    var t := Run(s, more);
    RunLowers(s, more);
    StepsBound(s);
    RunAppend(Init(limit), es, more);
    Reachable(limit, es + more);
    CountsAreEmpty(t);
    StuckMeansReleased(t);
    if AllReleased(t) {
      EndIsClean(t);
      AllReleasedOnce(limit, es + more);
    }
  }

  lemma AllReleasedOnce(limit: int, es: seq<Event>)
    requires Legal(Init(limit), es) && AllReleased(Run(Init(limit), es))
    ensures forall h :: h in Run(Init(limit), es).handlers ==> multiset(es)[Event.Release(h)] == 1
  {
    forall h | h in Run(Init(limit), es).handlers ensures multiset(es)[Event.Release(h)] == 1 {
      ReleasesExactlyOnce(limit, es, h);
    }
  }

  lemma StepsBound(s: State)
    ensures StepsLeft(s) <= 7 * |s.handlers|
  {
    SumBound(Ranks(s), Ranks(s).Keys);
    assert Ranks(s).Keys == s.handlers.Keys;
  }

  lemma {:induction false} SumBound(m: map<nat, nat>, keys: set<nat>)
    requires keys <= m.Keys && forall k :: k in keys ==> m[k] <= 7
    ensures Sum(m, keys) <= 7 * |keys|
    decreases |keys|
  {
    if keys != {} {
      var k :| k in keys;
      SumTakeOut(m, keys, k);
      SumBound(m, keys - {k});
    }
  }

  /** And from every reachable state such an end is reached. */
  lemma EveryRunCanEnd(limit: int, es: seq<Event>) returns (more: seq<Event>)
    requires Legal(Init(limit), es)
    ensures Legal(Run(Init(limit), es), more) && OwnSteps(more)
    ensures Stuck(Run(Run(Init(limit), es), more))
  {
    Reachable(limit, es);
    more := Drain(Run(Init(limit), es));
    ReleasedIsStuck(Run(Run(Init(limit), es), more));
  }

  lemma {:induction false} Drain(s: State) returns (more: seq<Event>)
    requires Membership(s)
    ensures Legal(s, more) && OwnSteps(more) && AllReleased(Run(s, more))
    decreases StepsLeft(s)
  {
    if AllReleased(s) {
      more := [];
    } else {
      var e := SomebodyCanGo(s);
      StepLowers(s, e);
      StepKeepsMembership(s, e);
      var rest := Drain(Next(s, e));
      OneEvent(s, e);
      RunAppend(s, [e], rest);
      more := [e] + rest;
    }
  }
}
