/** The latest-value report mailbox of one socket: a one-slot channel between
    the read loop (sole producer) and a sender goroutine, as a small-step
    system. Reports are named by their submission number. */
module Mailbox {
  import opened Connections

  datatype Producer =
    | Ready
    | Draining(report: nat)   // the first, non-blocking send found the slot full
    | Sending(report: nat)    // the old value was received or had just gone

  datatype Sender =
    | Waiting
    | Holding(report: nat)    // received, context not checked yet
    | Calling(report: nat)    // HTTP call under way
    | Stopped

  datatype State = State(
    submitted: nat, slot: Option<nat>, producer: Producer, sender: Sender, cancelled: bool, sent: seq<nat>)

  datatype Event = Submit | Drain | FinalSend | Receive | StopIdle | CheckContext | FinishCall | Cancel

  const Init := State(0, None, Ready, Waiting, false, [])

  predicate Enabled(s: State, e: Event) {
    match e
    case Submit => s.producer.Ready?
    case Drain => s.producer.Draining?
    case FinalSend => s.producer.Sending? && s.slot.None?
    case Receive => s.sender.Waiting? && s.slot.Some?
    case StopIdle => s.sender.Waiting? && s.cancelled
    case CheckContext => s.sender.Holding?
    case FinishCall => s.sender.Calling?
    case Cancel => true
  }

  function Next(s: State, e: Event): State
    requires Enabled(s, e)
  {
    match e
    case Submit =>
      if s.slot.None?
      then s.(submitted := s.submitted + 1, slot := Some(s.submitted))
      else s.(submitted := s.submitted + 1, producer := Draining(s.submitted))
    case Drain => s.(slot := None, producer := Sending(s.producer.report))
    case FinalSend => s.(slot := Some(s.producer.report), producer := Ready)
    case Receive => s.(slot := None, sender := Holding(s.slot.value))
    case StopIdle => s.(sender := Stopped)
    case CheckContext =>
      if s.cancelled then s.(sender := Stopped)
      else s.(sender := Calling(s.sender.report), sent := s.sent + [s.sender.report])
    case FinishCall => s.(sender := Waiting)
    case Cancel => s.(cancelled := true)
  }

  ghost predicate Legal(s: State, es: seq<Event>)
    decreases |es|
  {
    es == [] || (Enabled(s, es[0]) && Legal(Next(s, es[0]), es[1..]))
  }

  ghost function Run(s: State, es: seq<Event>): State
    requires Legal(s, es)
    decreases |es|
  {
    if es == [] then s else Run(Next(s, es[0]), es[1..])
  }

  /** Every report that is not discarded, oldest first: those whose call was
      started, the one received but not yet checked, the pending one, and the
      one still in the producer's hands. */
  function Pipeline(s: State): seq<nat> {
    s.sent
    + (if s.sender.Holding? then [s.sender.report] else [])
    + (if s.slot.Some? then [s.slot.value] else [])
    + (if s.producer.Ready? then [] else [s.producer.report])
  }

  ghost predicate Increasing(q: seq<nat>, bound: nat) {
    && (forall i, j :: 0 <= i < j < |q| ==> q[i] < q[j])
    && (forall i :: 0 <= i < |q| ==> q[i] < bound)
  }

  ghost predicate EndsWith(q: seq<nat>, r: int) {
    q != [] && q[|q| - 1] == r
  }

  ghost predicate Inv(s: State) {
    && Increasing(Pipeline(s), s.submitted)
    && (s.producer.Sending? ==> s.slot.None?)
    && (!s.producer.Ready? ==> s.producer.report == s.submitted - 1)
    && (s.sender.Stopped? ==> s.cancelled)
    && (s.submitted == 0 || EndsWith(Pipeline(s), s.submitted - 1) || s.sender.Stopped?)
  }

  /** Discarding an inner report keeps the order and the end. */
  lemma DropKeepsOrder(p: seq<nat>, k: nat, bound: nat)
    requires Increasing(p, bound) && k < |p|
    ensures Increasing(p[..k] + p[k + 1..], bound)
    ensures k < |p| - 1 ==> forall r :: EndsWith(p, r) ==> EndsWith(p[..k] + p[k + 1..], r)
  {
  }

  /** A step moves reports along the pipeline, adds the newest at its end, or
      drops one: a pending report that a newer one supersedes, or a received
      one after cancellation. */
  lemma StepKeepsInv(s: State, e: Event)
    requires Inv(s) && Enabled(s, e)
    ensures Inv(Next(s, e))
  {
    if e.Drain? {
      DrainKeepsInv(s);
    } else if e.CheckContext? {
      CheckKeepsInv(s);
    } else if e.Submit? {
      SubmitKeepsInv(s);
    } else {
      MoveKeepsPipeline(s, e);
    }
  }

  lemma SubmitKeepsInv(s: State)
    requires Inv(s) && Enabled(s, Submit)
    ensures Inv(Next(s, Submit))
  {
    var p, q := Pipeline(s), Pipeline(Next(s, Submit));
    assert q == p + [s.submitted];
  }

  lemma MoveKeepsPipeline(s: State, e: Event)
    requires Inv(s) && Enabled(s, e) && e in {FinalSend, Receive, StopIdle, FinishCall, Cancel}
    ensures Pipeline(Next(s, e)) == Pipeline(s)
  {
  }

  lemma DrainKeepsInv(s: State)
    requires Inv(s) && Enabled(s, Drain)
    ensures Inv(Next(s, Drain))
  {
    var p, q := Pipeline(s), Pipeline(Next(s, Drain));
    if s.slot.Some? {
      var k := |p| - 2;
      assert q == p[..k] + p[k + 1..];
      DropKeepsOrder(p, k, s.submitted);
    } else {
      assert q == p;
    }
  }

  lemma CheckKeepsInv(s: State)
    requires Inv(s) && Enabled(s, CheckContext)
    ensures Inv(Next(s, CheckContext))
  {
    var p, q := Pipeline(s), Pipeline(Next(s, CheckContext));
    if s.cancelled {
      var k := |s.sent|;
      assert q == p[..k] + p[k + 1..];
      DropKeepsOrder(p, k, s.submitted);
    } else {
      assert q == p;
    }
  }

  lemma {:induction false} RunKeepsInv(s: State, es: seq<Event>)
    requires Inv(s) && Legal(s, es)
    ensures Inv(Run(s, es))
    decreases |es|
  {
    if es != [] {
      StepKeepsInv(s, es[0]);
      RunKeepsInv(Next(s, es[0]), es[1..]);
    }
  }

  /** In every interleaving of producer, sender and cancellation: the blocking
      send never blocks, calls start in submission order, and the latest
      report is the last of the pipeline unless the context was cancelled. */
  lemma MailboxIsSafe(es: seq<Event>)
    requires Legal(Init, es)
    ensures var s := Run(Init, es);
      && (s.producer.Sending? ==> Enabled(s, FinalSend))
      && (s.producer.Draining? ==> Enabled(Next(s, Drain), FinalSend))
      && Increasing(s.sent, s.submitted)
      && (s.submitted > 0 && !s.cancelled ==> EndsWith(Pipeline(s), s.submitted - 1))
  {
    RunKeepsInv(Init, es);
    var s := Run(Init, es);
    assert forall i :: 0 <= i < |s.sent| ==> s.sent[i] == Pipeline(s)[i];
  }

  ghost predicate Paused(s: State) {
    Inv(s) && s.producer.Ready? && !s.cancelled
  }

  predicate IsSenderStep(e: Event) {
    e.Receive? || e.StopIdle? || e.CheckContext? || e.FinishCall?
  }

  ghost predicate SenderMoves(s: State) {
    exists e :: IsSenderStep(e) && Enabled(s, e)
  }

  /** How many steps the sender is from an empty mailbox. */
  function Work(s: State): nat {
    (if s.slot.Some? then 3 else 0)
    + (if s.sender.Holding? then 2 else if s.sender.Calling? then 1 else 0)
  }

  /** While submissions pause each sender step does one unit of the work, and
      there is a step as long as there is work. */
  lemma SenderStep(s: State, e: Event)
    requires Paused(s) && IsSenderStep(e) && Enabled(s, e)
    ensures Paused(Next(s, e)) && Next(s, e).submitted == s.submitted
    ensures Work(Next(s, e)) == Work(s) - 1
  {
    StepKeepsInv(s, e);
  }

  lemma SenderCanGo(s: State)
    requires Paused(s)
    ensures Work(s) > 0 <==> SenderMoves(s)
  {
    var e := if s.sender.Waiting? then Receive else if s.sender.Holding? then CheckContext else FinishCall;
    assert Work(s) > 0 ==> IsSenderStep(e) && Enabled(s, e);
  }

  lemma {:induction false} SenderRun(s: State, es: seq<Event>)
    requires Paused(s) && Legal(s, es) && forall e :: e in es ==> IsSenderStep(e)
    ensures Paused(Run(s, es)) && Run(s, es).submitted == s.submitted
    ensures Work(Run(s, es)) == Work(s) - |es|
    decreases |es|
  {
    if es != [] {
      SenderStep(s, es[0]);
      SenderRun(Next(s, es[0]), es[1..]);
    }
  }

  lemma WorkDone(s: State)
    requires Paused(s) && Work(s) == 0
    ensures s.sender.Waiting? && s.slot.None? && (s.submitted > 0 ==> EndsWith(s.sent, s.submitted - 1))
  {
    assert Pipeline(s) == s.sent;
  }

  /** Whatever happened before, once submissions pause the sender runs out of
      steps after exactly `Work` of them, at most five, whichever it takes; it
      then waits at an empty slot and the last report sent is the latest. */
  lemma LatestGetsSent(es: seq<Event>, flush: seq<Event>)
    requires Legal(Init, es)
    requires var s := Run(Init, es); s.producer.Ready? && !s.cancelled && Legal(s, flush)
    requires forall e :: e in flush ==> IsSenderStep(e)
    ensures var s := Run(Init, es); var t := Run(s, flush);
      && |flush| <= Work(s) <= 5
      && (SenderMoves(t) <==> |flush| < Work(s))
      && (|flush| == Work(s) ==>
            && t.sender.Waiting? && t.slot.None? && t.submitted == s.submitted
            && (t.submitted > 0 ==> EndsWith(t.sent, t.submitted - 1)))
  {
    PausedAfter(es);
    PausedRun(Run(Init, es), flush);
  }

  lemma PausedAfter(es: seq<Event>)
    requires Legal(Init, es) && Run(Init, es).producer.Ready? && !Run(Init, es).cancelled
    ensures Paused(Run(Init, es)) && Work(Run(Init, es)) <= 5
  {
    RunKeepsInv(Init, es);
  }

  lemma PausedRun(s: State, flush: seq<Event>)
    requires Paused(s) && Legal(s, flush) && forall e :: e in flush ==> IsSenderStep(e)
    ensures var t := Run(s, flush);
      && |flush| <= Work(s)
      && (SenderMoves(t) <==> |flush| < Work(s))
      && (|flush| == Work(s) ==>
            && t.sender.Waiting? && t.slot.None? && t.submitted == s.submitted
            && (t.submitted > 0 ==> EndsWith(t.sent, t.submitted - 1)))
  {
    SenderRun(s, flush);
    SenderCanGo(Run(s, flush));
    if |flush| == Work(s) { WorkDone(Run(s, flush)); }
  }

  // ---------- After cancellation ----------

  /** No call starts once the context is cancelled, whatever is pending. */
  lemma {:induction false} NoCallAfterCancel(s: State, es: seq<Event>)
    requires Legal(s, es) && (s.cancelled || (es != [] && es[0] == Cancel))
    ensures Run(s, es).sent == s.sent && Run(s, es).cancelled
    decreases |es|
  {
    if es != [] { NoCallAfterCancel(Next(s, es[0]), es[1..]); }
  }

  function SenderSteps(es: seq<Event>): nat {
    if es == [] then 0 else (if IsSenderStep(es[0]) then 1 else 0) + SenderSteps(es[1..])
  }

  /** How many steps a sender still takes once it is cancelled, at most. */
  function StepsToStop(sender: Sender): nat {
    match sender
    case Calling(_) => 3
    case Waiting => 2
    case Holding(_) => 1
    case Stopped => 0
  }

  /** From cancellation on the sender takes at most three more steps, whatever the
      producer does meanwhile, and has one as long as it has not stopped. */
  lemma {:induction false} CancelledSenderStops(s: State, es: seq<Event>)
    requires Legal(s, es) && s.cancelled
    ensures SenderSteps(es) + StepsToStop(Run(s, es).sender) <= StepsToStop(s.sender) <= 3
    ensures SenderMoves(Run(s, es)) <==> !Run(s, es).sender.Stopped?
    decreases |es|
  {
    if es != [] {
      CancelledSenderStops(Next(s, es[0]), es[1..]);
    } else {
      var e := if s.sender.Waiting? then StopIdle else if s.sender.Holding? then CheckContext else FinishCall;
      assert !s.sender.Stopped? ==> IsSenderStep(e) && Enabled(s, e);
    }
  }
}
