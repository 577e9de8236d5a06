/** How a handler moves through its phases: every critical section of its own
    but the receipt of a policy message takes it closer to its end, and no
    other handler's section touches it. */
module HandlerSteps {
  import opened Relay

  /** How far a handler is from its end. */
  function Rank(p: Phase): nat {
    match p
    case Admitted => 7
    case Fetched(_) => 6
    case Joined(_, _) => 5
    case Left(_, _) => 4
    case Checked(_) => 3
    case Emptied(_) => 2
    case Exiting => 1
    case Released => 0
  }

  /** Events by which a handler gets on with its life. */
  predicate IsOwnStep(e: Event) {
    !e.Arrive? && !e.Refuse? && !e.PolicyMessage?
  }

  /** What a handler was admitted with stays, it never moves back, and once it
      has left its group its stream is closed. */
  predicate Evolves(a: Handler, b: Handler) {
    && b.ip == a.ip && b.user == a.user && b.role == a.role && b.bridgeID == a.bridgeID && b.requested == a.requested
    && Rank(b.phase) <= Rank(a.phase)
    && (Rank(b.phase) == Rank(a.phase) ==> b.phase == a.phase)
    && (Rank(a.phase) < 5 ==> b.stream == a.stream)
  }

  lemma OthersStay(s: State, e: Event, x: nat)
    requires Enabled(s, e) && x in s.handlers && (e.Refuse? || e.h != x)
    ensures x in Next(s, e).handlers && Next(s, e).handlers[x] == s.handlers[x]
  {
  }

  lemma OwnStepKeepsIdentity(s: State, e: Event)
    requires Enabled(s, e) && IsOwnStep(e)
    ensures e.h in s.handlers && Next(s, e).handlers.Keys == s.handlers.Keys
    ensures var a, b := s.handlers[e.h], Next(s, e).handlers[e.h];
      b == a.(phase := b.phase)
  {
  }

  lemma OwnStepDescends(s: State, e: Event)
    requires Enabled(s, e) && IsOwnStep(e)
    ensures e.h in s.handlers && e.h in Next(s, e).handlers
    ensures Rank(Next(s, e).handlers[e.h].phase) < Rank(s.handlers[e.h].phase)
  {
  }

  lemma StepEvolves(s: State, e: Event, h: nat)
    requires Enabled(s, e) && h in s.handlers
    ensures h in Next(s, e).handlers && Evolves(s.handlers[h], Next(s, e).handlers[h])
  {
    if e.Refuse? || e.h != h {
      OthersStay(s, e, h);
    } else if IsOwnStep(e) {
      OwnStepKeepsIdentity(s, e);
      OwnStepDescends(s, e);
    }
  }

  lemma {:induction false} RunEvolves(s: State, es: seq<Event>, h: nat)
    requires Legal(s, es) && h in s.handlers
    ensures h in Run(s, es).handlers && Evolves(s.handlers[h], Run(s, es).handlers[h])
    decreases |es|
  {
    if es != [] {
      StepEvolves(s, es[0], h);
      RunEvolves(Next(s, es[0]), es[1..], h);
    }
  }
}
