/** The limiter over whole runs: a resource counter tied to handler lifetimes. */
module LimiterRuns {
  import opened HandlerSteps
  import opened RateLimits
  import opened Relay

  predicate Alive(s: State, h: nat) {
    h in s.handlers && !s.handlers[h].phase.Released?
  }

  /** The admitted handlers of `ip` that have not released yet. */
  ghost function AliveFrom(s: State, ip: string): set<nat> {
    set h | h in s.handlers && Alive(s, h) && s.handlers[h].ip == ip
  }

  ghost function AllAlive(s: State): set<nat> {
    set h | h in s.handlers && Alive(s, h)
  }

  ghost predicate Conserved(s: State) {
    && Positive(s.counts)
    && (forall ip :: CountOf(s.counts, ip) == |AliveFrom(s, ip)|)
    && (forall ip :: ip in s.counts ==> s.counts[ip] <= s.limit)
  }

  /** Only its arrival and its release change whether a handler is alive. */
  lemma AliveOne(s: State, e: Event, x: nat)
    requires Enabled(s, e) && x in s.handlers
    ensures x in Next(s, e).handlers && Next(s, e).handlers[x].ip == s.handlers[x].ip
    ensures Alive(Next(s, e), x) <==> Alive(s, x) && e != Release(x)
  {
    StepEvolves(s, e, x);
    if e.Refuse? || e.h != x { OthersStay(s, e, x); }
  }

  lemma NobodyComes(s: State, e: Event)
    requires Enabled(s, e) && !e.Arrive?
    ensures Next(s, e).handlers.Keys == s.handlers.Keys
  {
    if IsOwnStep(e) { OwnStepKeepsIdentity(s, e); }
  }

  lemma OneComes(s: State, e: Event)
    requires Enabled(s, e) && e.Arrive?
    ensures Next(s, e).handlers.Keys == s.handlers.Keys + {e.h}
    ensures Alive(Next(s, e), e.h) && Next(s, e).handlers[e.h].ip == e.ip
  {
  }

  /** The same, about the sets of handlers. */
  lemma AliveSets(s: State, t: State, ip: string, came: set<nat>, left: set<nat>)
    requires t.handlers.Keys == s.handlers.Keys + came && came !! s.handlers.Keys
    requires forall x :: x in s.handlers ==>
      t.handlers[x].ip == s.handlers[x].ip && (Alive(t, x) <==> Alive(s, x) && x !in left)
    requires forall x :: x in came ==> Alive(t, x)
    ensures AliveFrom(t, ip) == AliveFrom(s, ip) - left + set x | x in came && t.handlers[x].ip == ip
  {
  }

  lemma AliveArrive(s: State, e: Event, ip: string)
    requires Enabled(s, e) && e.Arrive?
    ensures AliveFrom(Next(s, e), ip) == AliveFrom(s, ip) + if e.ip == ip then {e.h} else {}
  {
    OneComes(s, e);
    forall x | x in s.handlers ensures Next(s, e).handlers[x] == s.handlers[x] { OthersStay(s, e, x); }
    AliveSets(s, Next(s, e), ip, {e.h}, {});
  }

  lemma AliveOther(s: State, e: Event)
    requires Enabled(s, e) && !e.Arrive?
    ensures Next(s, e).handlers.Keys == s.handlers.Keys
    ensures forall x :: x in s.handlers ==>
      Next(s, e).handlers[x].ip == s.handlers[x].ip && (Alive(Next(s, e), x) <==> Alive(s, x) && e != Release(x))
  {
    NobodyComes(s, e);
    forall x | x in s.handlers
      ensures Next(s, e).handlers[x].ip == s.handlers[x].ip
      ensures Alive(Next(s, e), x) <==> Alive(s, x) && e != Release(x)
    {
      AliveOne(s, e, x);
    }
  }

  lemma AliveStep(s: State, e: Event, ip: string)
    requires Enabled(s, e)
    ensures e.Arrive? ==> AliveFrom(Next(s, e), ip) == AliveFrom(s, ip) + if e.ip == ip then {e.h} else {}
    ensures e.Release? ==> AliveFrom(Next(s, e), ip) == AliveFrom(s, ip) - {e.h}
    ensures !e.Arrive? && !e.Release? ==> AliveFrom(Next(s, e), ip) == AliveFrom(s, ip)
  {
    if e.Arrive? {
      AliveArrive(s, e, ip);
    } else {
      AliveOther(s, e);
      AliveSets(s, Next(s, e), ip, {}, if e.Release? then {e.h} else {});
    }
  }

  lemma CountAfter(s: State, e: Event, ip: string)
    requires Enabled(s, e) && Positive(s.counts)
    ensures CountOf(Next(s, e).counts, ip) == CountOf(s.counts, ip)
      + (if e.Arrive? && e.ip == ip then 1 else 0)
      - (if e.Release? && s.handlers[e.h].ip == ip && ip in s.counts then 1 else 0)
  {
  }

  lemma CountStep(s: State, e: Event, ip: string)
    requires Enabled(s, e) && Positive(s.counts)
    requires CountOf(s.counts, ip) == |AliveFrom(s, ip)|
    ensures CountOf(Next(s, e).counts, ip) == |AliveFrom(Next(s, e), ip)|
  {
    AliveStep(s, e, ip);
    CountAfter(s, e, ip);
    var alive := AliveFrom(s, ip);
    if e.Arrive? {
      assert e.h !in alive;
    } else if e.Release? {
      assert s.handlers[e.h].ip == ip <==> e.h in alive;
      assert |alive - {e.h}| == |alive| - if e.h in alive then 1 else 0;
    }
  }

  lemma ConservedStep(s: State, e: Event)
    requires Conserved(s) && Enabled(s, e)
    ensures Conserved(Next(s, e))
  {
    forall ip ensures CountOf(Next(s, e).counts, ip) == |AliveFrom(Next(s, e), ip)| { CountStep(s, e, ip); }
    BoundStep(s, e);
  }

  lemma BoundStep(s: State, e: Event)
    requires Positive(s.counts) && (forall ip :: ip in s.counts ==> s.counts[ip] <= s.limit) && Enabled(s, e)
    ensures Positive(Next(s, e).counts)
    ensures Next(s, e).limit == s.limit && forall ip :: ip in Next(s, e).counts ==> Next(s, e).counts[ip] <= s.limit
  {
    if !e.Arrive? && !e.Release? { OthersDoNotCount(s, e); }
  }

  lemma OthersDoNotCount(s: State, e: Event)
    requires Enabled(s, e) && !e.Arrive? && !e.Release?
    ensures Next(s, e).counts == s.counts && Next(s, e).limit == s.limit
  {
  }

  lemma {:induction false} RunConserves(s: State, es: seq<Event>)
    requires Conserved(s) && Legal(s, es)
    ensures Conserved(Run(s, es))
    decreases |es|
  {
    if es != [] {
      ConservedStep(s, es[0]);
      RunConserves(Next(s, es[0]), es[1..]);
    }
  }

  /** In every interleaving each address counts exactly its admitted handlers
      that have not released, never more than the limit, and only addresses
      with such a handler are stored; the sum of the counts is the number of
      all such handlers. */
  lemma LimiterConserves(limit: int, es: seq<Event>)
    requires Legal(Init(limit), es)
    ensures var s := Run(Init(limit), es);
      && (forall ip :: CountOf(s.counts, ip) == |AliveFrom(s, ip)|)
      && (forall ip :: ip in s.counts <==> AliveFrom(s, ip) != {})
      && (forall ip :: ip in s.counts ==> |AliveFrom(s, ip)| <= limit)
      && Sum(s.counts, s.counts.Keys) == |AllAlive(s)|
  {
    var s0 := Init(limit);
    forall ip ensures |AliveFrom(s0, ip)| == 0 { assert AliveFrom(s0, ip) == {}; }
    RunConserves(s0, es);
    LimitStays(s0, es);
    var s := Run(s0, es);
    SumCountsHandlers(s, s.counts.Keys);
    forall h | h in AllAlive(s) ensures s.handlers[h].ip in s.counts.Keys {
      assert h in AliveFrom(s, s.handlers[h].ip);
    }
    assert AllAlive(s) == AliveAmong(s, s.counts.Keys);
  }

  /** In every interleaving a new handler is admitted iff fewer than `limit`
      handlers of its address have not released, and otherwise its connection
      is turned away and counted as such. */
  lemma AdmittedBelowLimit(limit: int, es: seq<Event>, e: Event)
    requires Legal(Init(limit), es) && e.Arrive?
    ensures var s := Run(Init(limit), es);
      && (Enabled(s, e) <==> e.h !in s.handlers && |AliveFrom(s, e.ip)| < limit)
      && (Enabled(s, Refuse(e.ip)) <==> |AliveFrom(s, e.ip)| >= limit)
      && s.rejected == Refusals(es)
  {
    LimiterConserves(limit, es);
    LimitStays(Init(limit), es);
    RefusalsCounted(Init(limit), es);
  }

  function Refusals(es: seq<Event>): nat {
    if es == [] then 0 else (if es[0].Refuse? then 1 else 0) + Refusals(es[1..])
  }

  lemma {:induction false} RefusalsCounted(s: State, es: seq<Event>)
    requires Legal(s, es)
    ensures Run(s, es).rejected == s.rejected + Refusals(es)
    decreases |es|
  {
    if es != [] { RefusalsCounted(Next(s, es[0]), es[1..]); }
  }

  lemma {:induction false} LimitStays(s: State, es: seq<Event>)
    requires Legal(s, es)
    ensures Run(s, es).limit == s.limit
    decreases |es|
  {
    if es != [] { LimitStays(Next(s, es[0]), es[1..]); }
  }

  ghost function AliveAmong(s: State, ips: set<string>): set<nat> {
    set h | h in s.handlers && Alive(s, h) && s.handlers[h].ip in ips
  }

  lemma {:induction false} SumCountsHandlers(s: State, ips: set<string>)
    requires Conserved(s) && ips <= s.counts.Keys
    ensures Sum(s.counts, ips) == |AliveAmong(s, ips)|
    decreases |ips|
  {
    if ips == {} {
      assert AliveAmong(s, ips) == {};
    } else {
      var ip :| ip in ips;
      SumTakeOut(s.counts, ips, ip);
      SumCountsHandlers(s, ips - {ip});
      assert AliveAmong(s, ips) == AliveAmong(s, ips - {ip}) + AliveFrom(s, ip);
      assert AliveAmong(s, ips - {ip}) !! AliveFrom(s, ip);
    }
  }

  /** A handler that has released takes no further part in any run. */
  lemma {:induction false} ReleasedIsFinal(s: State, es: seq<Event>, h: nat)
    requires Legal(s, es) && h in s.handlers && s.handlers[h].phase.Released?
    ensures h in Run(s, es).handlers && Run(s, es).handlers[h] == s.handlers[h]
    ensures Release(h) !in es
    decreases |es|
  {
    if es != [] {
      NoStepAfterRelease(s, es[0], h);
      OthersStay(s, es[0], h);
      ReleasedIsFinal(Next(s, es[0]), es[1..], h);
      assert es == [es[0]] + es[1..];
    }
  }

  lemma NoStepAfterRelease(s: State, e: Event, h: nat)
    requires Enabled(s, e) && h in s.handlers && s.handlers[h].phase.Released?
    ensures e.Refuse? || e.h != h
  {
  }

  /** In every interleaving a handler has released exactly once if it is at its
      end, and never before. */
  lemma ReleasesExactlyOnce(limit: int, es: seq<Event>, h: nat)
    requires Legal(Init(limit), es)
    ensures var s := Run(Init(limit), es);
      multiset(es)[Release(h)] == if h in s.handlers && s.handlers[h].phase.Released? then 1 else 0
  {
    CountReleases(Init(limit), es, h);
  }

  lemma {:induction false} CountReleases(s: State, es: seq<Event>, h: nat)
    requires Legal(s, es) && !(h in s.handlers && s.handlers[h].phase.Released?)
    ensures var t := Run(s, es);
      multiset(es)[Release(h)] == if h in t.handlers && t.handlers[h].phase.Released? then 1 else 0
    decreases |es|
  {
    if es != [] {
      var t := Next(s, es[0]);
      assert es == [es[0]] + es[1..];
      if es[0].Arrive? { OneComes(s, es[0]); } else { NobodyComes(s, es[0]); }
      if h in s.handlers { AliveOne(s, es[0], h); }
      if es[0] == Release(h) {
        ReleasedIsFinal(t, es[1..], h);
      } else {
        CountReleases(t, es[1..], h);
      }
    }
  }
}
