/** Displaced bridges and bridge policies over whole runs. */
module Displacement {
  import opened Connections
  import opened Routing
  import opened Policies
  import opened Frames
  import opened HandlerSteps
  import opened Relay
  import opened RelayRuns

  // ---------- Displacement is permanent ----------

  /** Some group has a bridge connection of handler `h`. */
  ghost predicate BridgeLive(s: State, h: nat) {
    exists k, id :: 0 <= k < |s.groups| && id in s.groups[k].bridges && s.groups[k].bridges[id].handle == h
  }

  /** `h` has had its one chance to join. */
  predicate PastJoin(s: State, h: nat) {
    h in s.handlers && !s.handlers[h].phase.Admitted? && !s.handlers[h].phase.Fetched?
  }

  /** Only its own join makes a bridge appear. */
  lemma BridgesComeFromJoins(s: State, e: Event, k: nat, id: string)
    requires Enabled(s, e) && k < |Next(s, e).groups| && id in Next(s, e).groups[k].bridges
    ensures var b := Next(s, e).groups[k].bridges[id];
      || (k < |s.groups| && id in s.groups[k].bridges && s.groups[k].bridges[id] == b)
      || (e.AddBridge? && e.h == b.handle)
  {
  }

  lemma LiveBefore(s: State, e: Event, h: nat)
    requires Enabled(s, e) && BridgeLive(Next(s, e), h) && !(e.AddBridge? && e.h == h)
    ensures BridgeLive(s, h)
  {
    var t := Next(s, e);
    var k, id :| 0 <= k < |t.groups| && id in t.groups[k].bridges && t.groups[k].bridges[id].handle == h;
    BridgesComeFromJoins(s, e, k, id);
  }

  lemma DisplacedStep(s: State, e: Event, h: nat)
    requires Enabled(s, e) && PastJoin(s, h) && !BridgeLive(s, h)
    ensures PastJoin(Next(s, e), h) && !BridgeLive(Next(s, e), h)
  {
    StepEvolves(s, e, h);
    if BridgeLive(Next(s, e), h) {
      LiveBefore(s, e, h);
      assert false;
    }
  }

  /** No report from position `from` on is about handler `h`. */
  ghost predicate SilentAbout(reports: seq<Report>, from: nat, h: nat)
    requires from <= |reports|
  {
    forall i :: from <= i < |reports| ==> reports[i].handle != h
  }

  /** `h` was current when it left and has yet to decide what to report. */
  predicate LeftCurrent(s: State, h: nat) {
    h in s.handlers && s.handlers[h].phase.Left? && s.handlers[h].phase.wasCurrent
  }

  lemma ReportStep(s: State, e: Event, h: nat)
    requires Enabled(s, e) && PastJoin(s, h) && !LeftCurrent(s, h)
    ensures s.reports <= Next(s, e).reports && SilentAbout(Next(s, e).reports, |s.reports|, h)
  {
  }

  lemma LeftByLeaving(s: State, e: Event, h: nat)
    requires Enabled(s, e) && h in s.handlers && e != RemoveBridge(h)
    ensures LeftCurrent(Next(s, e), h) ==> LeftCurrent(s, h)
  {
    if e.Refuse? || e.h != h { OthersStay(s, e, h); }
  }

  /** A displaced handler leaves its group without having been current. */
  lemma LeavesQuietly(s: State, h: nat)
    requires Enabled(s, RemoveBridge(h)) && HandlerOk(s, h) && !BridgeLive(s, h)
    ensures !LeftCurrent(Next(s, RemoveBridge(h)), h)
  {
    CurrentIsLive(s, h);
  }

  lemma CurrentIsLive(s: State, h: nat)
    requires h in s.handlers && s.handlers[h].phase.Joined? && s.handlers[h].phase.conn.handle == h
    requires s.handlers[h].phase.group < |s.groups|
    ensures Current(s.groups[s.handlers[h].phase.group].bridges, s.handlers[h].phase.conn) ==> BridgeLive(s, h)
  {
  }

  lemma StaysQuiet(s: State, e: Event, h: nat)
    requires Membership(s) && Enabled(s, e) && h in s.handlers && !BridgeLive(s, h) && !LeftCurrent(s, h)
    ensures !LeftCurrent(Next(s, e), h)
  {
    assert HandlerOk(s, h);
    if e == RemoveBridge(h) { LeavesQuietly(s, h); } else { LeftByLeaving(s, e, h); }
  }

  /** Once a bridge connection is no longer current it never is again, in any
      interleaving, and no status report ever follows from it. */
  lemma {:induction false} DisplacementIsPermanent(s: State, es: seq<Event>, h: nat)
    requires Membership(s) && NoLeak(s) && Legal(s, es)
    requires PastJoin(s, h) && !BridgeLive(s, h) && !LeftCurrent(s, h)
    ensures PastJoin(Run(s, es), h) && !BridgeLive(Run(s, es), h)
    ensures s.reports <= Run(s, es).reports && SilentAbout(Run(s, es).reports, |s.reports|, h)
    decreases |es|
  {
    if es != [] {
      var t := Next(s, es[0]);
      StepKeepsSound(s, es[0]);
      DisplacedStep(s, es[0], h);
      ReportStep(s, es[0], h);
      StaysQuiet(s, es[0], h);
      DisplacementIsPermanent(t, es[1..], h);
      var r := Run(t, es[1..]).reports;
      forall i | |s.reports| <= i < |r| ensures r[i].handle != h {
        if i < |t.reports| { assert r[i] == t.reports[i]; }
      }
    }
  }

  /** A connection that is not live is powerless: no frame of it is written
      anywhere, a policy message changes nothing but the record of it, and its
      teardown changes no group. */
  lemma DisplacedIsPowerless(s: State, h: nat, data: seq<Byte>, policy: string)
    requires Membership(s) && Is(s, h, Bridge) && s.handlers[h].phase.Joined? && !BridgeLive(s, h)
    ensures var k, b := s.handlers[h].phase.group, s.handlers[h].phase.conn;
      && Guard(s, k)
      && FromBridge(s.groups[k], b, data) == {}
      && (forall p :: s.groups[k].BridgeForPhone(p) != Some(b))
      && Next(s, PolicyMessage(h, policy)).handlers[h].disconnectPolicy == s.handlers[h].disconnectPolicy
      && Next(s, RemoveBridge(h)).groups == s.groups
      && Next(s, RemoveBridge(h)).handlers[h].phase == Left(k, false)
  {
    var k, b := s.handlers[h].phase.group, s.handlers[h].phase.conn;
    assert HandlerOk(s, h) && GroupOk(s, k);
    CurrentIsLive(s, h);
    DisplacedSteps(s, h, policy);
    if w :| w in FromBridge(s.groups[k], b, data) {
      BridgeWritesStayOnTarget(s.groups[k], b, data, w);
      assert false;
    }
  }

  lemma DisplacedSteps(s: State, h: nat, policy: string)
    requires Is(s, h, Bridge) && s.handlers[h].phase.Joined? && Guard(s, s.handlers[h].phase.group)
    requires !Current(s.groups[s.handlers[h].phase.group].bridges, s.handlers[h].phase.conn)
    ensures Next(s, PolicyMessage(h, policy)).handlers[h].disconnectPolicy == s.handlers[h].disconnectPolicy
    ensures Next(s, RemoveBridge(h)).groups == s.groups
    ensures Next(s, RemoveBridge(h)).handlers[h].phase == Left(s.handlers[h].phase.group, false)
  {
  }

  /** In every interleaving: from the moment a bridge is displaced no frame it
      sends is written to anyone, whatever has happened in between. */
  lemma DisplacedNeverReaches(limit: int, es: seq<Event>, more: seq<Event>, h: nat, data: seq<Byte>)
    requires Legal(Init(limit), es) && Legal(Run(Init(limit), es), more)
    requires var s := Run(Init(limit), es); Is(s, h, Bridge) && s.handlers[h].phase.Joined? && !BridgeLive(s, h)
    requires var t := Run(Run(Init(limit), es), more); Is(t, h, Bridge) && t.handlers[h].phase.Joined?
    ensures var t := Run(Run(Init(limit), es), more);
      && Guard(t, t.handlers[h].phase.group)
      && FromBridge(t.groups[t.handlers[h].phase.group], t.handlers[h].phase.conn, data) == {}
  {
    var s := Run(Init(limit), es);
    RunKeepsMembership(Init(limit), es);
    RunKeepsMembership(s, more);
    DisplacementIsPermanent(s, more, h);
    DisplacedIsPowerless(Run(s, more), h, data, "");
  }

  /** In every interleaving an offline report is decided only for a bridge that
      was current when it left, whose connection is gone, and whose id is not
      live in the account's registered group at that moment; and for every
      such bridge it is. */
  lemma OfflineOnlyWhenGone(limit: int, es: seq<Event>, h: nat)
    requires Legal(Init(limit), es) && Enabled(Run(Init(limit), es), CheckLive(h))
    ensures var s := Run(Init(limit), es); var t := Next(s, CheckLive(h)); var H := s.handlers[h];
      && (|t.reports| > |s.reports| <==> H.phase.wasCurrent && !HasLiveBridge(t, H.user, H.bridgeID))
      && (|t.reports| > |s.reports| ==> !t.reports[|s.reports|].online && t.reports[|s.reports|].handle == h)
      && !BridgeLive(t, h)
  {
    RunKeepsMembership(Init(limit), es);
    var s := Run(Init(limit), es);
    LeftMeansGone(s, h);
    if BridgeLive(Next(s, CheckLive(h)), h) { LiveBefore(s, CheckLive(h), h); }
  }

  lemma LeftMeansGone(s: State, h: nat)
    requires Membership(s) && h in s.handlers && !s.handlers[h].phase.Joined?
    ensures !BridgeLive(s, h)
  {
    forall k, id | 0 <= k < |s.groups| && id in s.groups[k].bridges ensures s.groups[k].bridges[id].handle != h {
      assert GroupOk(s, k) && Owned(s, k, s.groups[k].bridges[id], Bridge);
    }
  }

  /** A same-id join into its group displaces a bridge on the spot, and so does
      its own removal. */
  lemma TakeoverDisplaces(s: State, h: nat, e: Event)
    requires Membership(s) && Enabled(s, e) && Is(s, h, Bridge) && s.handlers[h].phase.Joined?
    requires
      || (e.AddBridge? && s.handlers[e.h].phase.group == s.handlers[h].phase.group
          && s.handlers[e.h].bridgeID == s.handlers[h].bridgeID && BridgeLive(s, h))
      || e == RemoveBridge(h)
    ensures PastJoin(Next(s, e), h) && !BridgeLive(Next(s, e), h)
  {
    var t := Next(s, e);
    LiveIsCurrent(s, h);
    if j, id :| 0 <= j < |t.groups| && id in t.groups[j].bridges && t.groups[j].bridges[id].handle == h {
      BridgesComeFromJoins(s, e, j, id);
      OwnEntries(s, h, j);
      assert false;
    }
  }

  // ---------- The policy of a disconnect report ----------

  ghost predicate FollowsStream(H: Handler) {
    IsLastAwake(Announced(H.requested, H.stream), H.disconnectPolicy)
  }

  ghost predicate PolicyOk(s: State, h: nat)
    requires h in s.handlers
  {
    var H := s.handlers[h];
    && (H.phase.Admitted? || H.phase.Fetched? ==> H.stream == [] && H.disconnectPolicy == Normalize(H.requested))
    && (H.role.Bridge? && H.phase.Joined? && BridgeLive(s, h) ==> FollowsStream(H))
    && (H.phase.Left? && H.phase.wasCurrent ==> FollowsStream(H))
  }

  /** A report names its handler's account and bridge; an offline one carries
      the last awake policy of everything its socket ever announced. */
  ghost predicate ReportOk(s: State, r: Report) {
    && Is(s, r.handle, Bridge)
    && var H := s.handlers[r.handle];
    && r.user == H.user && r.bridgeID == H.bridgeID && PastJoin(s, r.handle)
    && (r.online ==> r.policy == Normalize(H.requested))
    && (!r.online ==>
          && !H.phase.Joined? && !H.phase.Left?
          && IsLastAwake(Announced(H.requested, H.stream), r.policy))
  }

  ghost predicate ReportsOk(s: State) {
    && (forall h :: h in s.handlers ==> PolicyOk(s, h))
    && (forall i :: 0 <= i < |s.reports| ==> ReportOk(s, s.reports[i]))
  }

  /** A live bridge handler's connection is the current one of its group. */
  lemma LiveIsCurrent(s: State, h: nat)
    requires Membership(s) && Is(s, h, Bridge) && s.handlers[h].phase.Joined?
    ensures s.handlers[h].phase.group < |s.groups|
    ensures BridgeLive(s, h) <==> Current(s.groups[s.handlers[h].phase.group].bridges, s.handlers[h].phase.conn)
  {
    assert HandlerOk(s, h);
    if BridgeLive(s, h) {
      var k, id :| 0 <= k < |s.groups| && id in s.groups[k].bridges && s.groups[k].bridges[id].handle == h;
      OwnEntries(s, h, k);
    }
  }

  lemma PolicyStepOther(s: State, e: Event, h: nat)
    requires Enabled(s, e) && h in s.handlers && PolicyOk(s, h)
    requires Next(s, e).handlers[h] == s.handlers[h] && !(e.AddBridge? && e.h == h)
    ensures PolicyOk(Next(s, e), h)
  {
    if BridgeLive(Next(s, e), h) { LiveBefore(s, e, h); }
  }

  lemma PolicyStepMessage(s: State, h: nat, policy: string)
    requires Membership(s) && Enabled(s, PolicyMessage(h, policy)) && PolicyOk(s, h)
    ensures PolicyOk(Next(s, PolicyMessage(h, policy)), h)
  {
    var H := s.handlers[h];
    LiveIsCurrent(s, h);
    if BridgeLive(Next(s, PolicyMessage(h, policy)), h) {
      LiveBefore(s, PolicyMessage(h, policy), h);
      StickyFollowsStream(H.requested, H.stream, policy, H.disconnectPolicy);
    }
  }

  lemma PolicyStepRemove(s: State, h: nat)
    requires Membership(s) && Enabled(s, RemoveBridge(h)) && PolicyOk(s, h)
    ensures PolicyOk(Next(s, RemoveBridge(h)), h)
  {
    LiveIsCurrent(s, h);
  }

  lemma PolicyStepJoin(s: State, h: nat, now: int)
    requires Enabled(s, AddBridge(h, now)) && PolicyOk(s, h)
    ensures PolicyOk(Next(s, AddBridge(h, now)), h)
  {
    OwnStepKeepsIdentity(s, AddBridge(h, now));
    FreshSocketPolicy(s.handlers[h].requested);
  }

  lemma PolicyStepMove(s: State, e: Event, h: nat)
    requires Enabled(s, e) && h in Next(s, e).handlers && !e.Refuse? && e.h == h
    requires !e.PolicyMessage? && !e.AddBridge? && !e.RemoveBridge?
    requires h in s.handlers ==> PolicyOk(s, h)
    ensures PolicyOk(Next(s, e), h)
  {
  }

  lemma PolicyStepMember(s: State, e: Event)
    requires Enabled(s, e) && (e.PolicyMessage? || e.RemoveBridge? || e.AddBridge?)
    requires Membership(s) && PolicyOk(s, e.h)
    ensures PolicyOk(Next(s, e), e.h)
  {
    match e {
      case PolicyMessage(h, policy) => PolicyStepMessage(s, h, policy);
      case RemoveBridge(h) => PolicyStepRemove(s, h);
      case AddBridge(h, now) => PolicyStepJoin(s, h, now);
    }
  }

  lemma PolicyStep(s: State, e: Event, h: nat)
    requires Membership(s) && Enabled(s, e) && h in Next(s, e).handlers
    requires h in s.handlers ==> PolicyOk(s, h)
    ensures PolicyOk(Next(s, e), h)
  {
    if e.Refuse? || e.h != h {
      PolicyStepOther(s, e, h);
    } else if e.PolicyMessage? || e.RemoveBridge? || e.AddBridge? {
      PolicyStepMember(s, e);
    } else {
      PolicyStepMove(s, e, h);
    }
  }

  lemma OldReportKept(s: State, t: State, r: Report)
    requires ReportOk(s, r) && r.handle in t.handlers && Evolves(s.handlers[r.handle], t.handlers[r.handle])
    ensures ReportOk(t, r)
  {
  }

  lemma OldReportStep(s: State, e: Event, r: Report)
    requires Enabled(s, e) && ReportOk(s, r)
    ensures ReportOk(Next(s, e), r)
  {
    StepEvolves(s, e, r.handle);
    OldReportKept(s, Next(s, e), r);
  }

  lemma NewReportStep(s: State, e: Event)
    requires Enabled(s, e) && |Next(s, e).reports| > |s.reports|
    requires HandlerOk(s, e.h) && PolicyOk(s, e.h)
    ensures |Next(s, e).reports| == |s.reports| + 1
    ensures ReportOk(Next(s, e), Next(s, e).reports[|s.reports|])
  {
  }

  lemma ReportOkStep(s: State, e: Event, i: nat)
    requires Membership(s) && Enabled(s, e) && i < |Next(s, e).reports|
    requires i < |s.reports| ==> ReportOk(s, s.reports[i])
    requires forall h :: h in s.handlers ==> PolicyOk(s, h)
    ensures ReportOk(Next(s, e), Next(s, e).reports[i])
  {
    if i < |s.reports| { OldReportStep(s, e, s.reports[i]); } else { NewReportStep(s, e); }
  }

  lemma {:induction false} RunKeepsReports(s: State, es: seq<Event>)
    requires Membership(s) && NoLeak(s) && ReportsOk(s) && Legal(s, es)
    ensures ReportsOk(Run(s, es))
    decreases |es|
  {
    if es != [] {
      var t := Next(s, es[0]);
      StepKeepsSound(s, es[0]);
      forall h | h in t.handlers ensures PolicyOk(t, h) { PolicyStep(s, es[0], h); }
      forall i | 0 <= i < |t.reports| ensures ReportOk(t, t.reports[i]) { ReportOkStep(s, es[0], i); }
      RunKeepsReports(t, es[1..]);
    }
  }

  /** In every interleaving, every offline report carries the last policy other
      than "suppress" among the initial one and every policy message that
      socket ever sent, none dropped, and no other policy. */
  lemma OfflinePolicyIsLastAwake(limit: int, es: seq<Event>, i: nat)
    requires Legal(Init(limit), es) && i < |Run(Init(limit), es).reports|
    requires !Run(Init(limit), es).reports[i].online
    ensures var s := Run(Init(limit), es); var r := s.reports[i];
      && Is(s, r.handle, Bridge)
      && var H := s.handlers[r.handle];
      && r.user == H.user && r.bridgeID == H.bridgeID
      && (forall q :: IsLastAwake(Announced(H.requested, H.stream), q) <==> q == r.policy)
  {
    RunKeepsReports(Init(limit), es);
    var r := Run(Init(limit), es).reports[i];
    assert ReportOk(Run(Init(limit), es), r);
    var H := Run(Init(limit), es).handlers[r.handle];
    var policies := Announced(H.requested, H.stream);
    forall q | IsLastAwake(policies, q) ensures q == r.policy { LastAwakeUnique(policies, q, r.policy); }
  }

  /** The policy messages of `h` in a run, as they were sent. */
  function MessagesOf(es: seq<Event>, h: nat): seq<string> {
    if es == [] then []
    else
      (match es[0] case PolicyMessage(x, policy) => if x == h then [policy] else [] case _ => [])
      + MessagesOf(es[1..], h)
  }

  function StreamOf(s: State, h: nat): seq<string> {
    if h in s.handlers then s.handlers[h].stream else []
  }

  lemma StreamStep(s: State, e: Event, h: nat)
    requires Enabled(s, e)
    ensures StreamOf(Next(s, e), h) == StreamOf(s, h) + MessagesOf([e], h)
  {
    assert [e][1..] == [];
    if h in s.handlers && (e.Refuse? || e.h != h) {
      OthersStay(s, e, h);
    } else if h in s.handlers && IsOwnStep(e) {
      OwnStepKeepsIdentity(s, e);
    }
  }

  lemma {:induction false} StreamIsMessages(s: State, es: seq<Event>, h: nat)
    requires Legal(s, es)
    ensures StreamOf(Run(s, es), h) == StreamOf(s, h) + MessagesOf(es, h)
    decreases |es|
  {
    if es != [] {
      StreamStep(s, es[0], h);
      assert [es[0]][1..] == [];
      StreamIsMessages(Next(s, es[0]), es[1..], h);
    }
  }

  /** The event by which `H` arrived. */
  function ArrivalOf(h: nat, H: Handler): Event {
    Arrive(h, H.ip, H.user, H.role, H.bridgeID, H.requested)
  }

  lemma {:induction false} EverybodyArrived(s: State, es: seq<Event>, h: nat)
    requires Legal(s, es) && h in Run(s, es).handlers && h !in s.handlers
    ensures ArrivalOf(h, Run(s, es).handlers[h]) in es
    decreases |es|
  {
    var t := Next(s, es[0]);
    if h in t.handlers {
      RunEvolves(t, es[1..], h);
      assert ArrivalOf(h, t.handlers[h]) == es[0];
    } else {
      EverybodyArrived(t, es[1..], h);
    }
  }

  /** The policies of all reports, from the strings that were sent: some handler
      arrived with the report's user and bridge id; its online report has the
      policy it asked for, and its offline report has "suppress" iff it never
      sent anything else, and otherwise what it last sent other than that,
      where everything but "normal" counts as "conservative". */
  lemma PoliciesAsSent(limit: int, es: seq<Event>, i: nat)
    requires Legal(Init(limit), es) && i < |Run(Init(limit), es).reports|
    ensures var r := Run(Init(limit), es).reports[i];
      exists ip, requested :: Arrive(r.handle, ip, r.user, Bridge, r.bridgeID, requested) in es
        && ReportedAsSent(r, requested, MessagesOf(es, r.handle))
  {
    RunKeepsReports(Init(limit), es);
    var s := Run(Init(limit), es);
    var r := s.reports[i];
    assert ReportOk(s, r);
    var H := s.handlers[r.handle];
    EverybodyArrived(Init(limit), es, r.handle);
    StreamIsMessages(Init(limit), es, r.handle);
    assert H.stream == MessagesOf(es, r.handle);
    if !r.online { LastAwakeMeans(H.requested, H.stream, r.policy); }
    assert Arrive(r.handle, H.ip, r.user, Bridge, r.bridgeID, H.requested) in es;
  }

  ghost predicate ReportedAsSent(r: Report, requested: string, messages: seq<string>) {
    var raw := [requested] + messages;
    if r.online then
      r.policy == if requested in {"normal", "suppress"} then requested else "conservative"
    else
      && (r.policy == "suppress" <==> forall i :: 0 <= i < |raw| ==> raw[i] == "suppress")
      && forall i :: 0 <= i < |raw| && raw[i] != "suppress" && SuppressedAfter(raw, i) ==>
           r.policy == if raw[i] == "normal" then "normal" else "conservative"
  }

  // ---------- One report each way per connection ----------

  /** Two reports of one connection are an online one and a later offline one. */
  ghost predicate Paired(reports: seq<Report>) {
    && (forall i, j :: 0 <= i < j < |reports| && reports[i].handle == reports[j].handle ==>
          reports[i].online && !reports[j].online)
    && (forall j :: 0 <= j < |reports| && !reports[j].online ==> OnlineBefore(reports, j, reports[j].handle))
  }

  ghost predicate OnlineBefore(reports: seq<Report>, j: nat, h: nat)
    requires j <= |reports|
  {
    exists i :: 0 <= i < j && reports[i].handle == h && reports[i].online
  }

  /** Whoever joined as a bridge has been reported online. */
  ghost predicate Greeted(s: State) {
    forall h :: h in s.handlers && s.handlers[h].role.Bridge?
                && (s.handlers[h].phase.Joined? || s.handlers[h].phase.Left?)
      ==> OnlineBefore(s.reports, |s.reports|, h)
  }

  lemma OnlineStays(reports: seq<Report>, more: seq<Report>, j: nat, h: nat)
    requires j <= |reports| && OnlineBefore(reports, j, h)
    ensures OnlineBefore(reports + more, j, h) && OnlineBefore(reports + more, |reports + more|, h)
  {
    var i :| 0 <= i < j && reports[i].handle == h && reports[i].online;
    assert (reports + more)[i] == reports[i];
  }

  lemma PairedGrows(reports: seq<Report>, r: Report)
    requires Paired(reports)
    requires r.online ==> forall i :: 0 <= i < |reports| ==> reports[i].handle != r.handle
    requires !r.online ==> OnlineBefore(reports, |reports|, r.handle)
    requires !r.online ==> forall i :: 0 <= i < |reports| && reports[i].handle == r.handle ==> reports[i].online
    ensures Paired(reports + [r])
  {
    var more := reports + [r];
    forall j | 0 <= j < |more| && !more[j].online ensures OnlineBefore(more, j, more[j].handle) {
      OnlineStays(reports, [r], j, more[j].handle);
    }
  }

  /** At most one report per step, and what decides it. */
  lemma ReportCause(s: State, e: Event)
    requires Enabled(s, e)
    ensures Next(s, e).reports == s.reports
      || (&& |Next(s, e).reports| == |s.reports| + 1
          && Next(s, e).reports == s.reports + [Next(s, e).reports[|s.reports|]]
          && var r := Next(s, e).reports[|s.reports|];
          && (e.AddBridge? || e.CheckLive?) && r.handle == e.h && e.h in s.handlers
          && (r.online ==> s.handlers[e.h].phase.Fetched?) && (!r.online ==> s.handlers[e.h].phase.Left?))
  {
  }

  lemma PairedStep(s: State, e: Event)
    requires Enabled(s, e) && Paired(s.reports) && Greeted(s)
    requires forall i :: 0 <= i < |s.reports| ==> ReportOk(s, s.reports[i])
    requires e.CheckLive? ==> HandlerOk(s, e.h)
    ensures Paired(Next(s, e).reports)
  {
    ReportCause(s, e);
    if Next(s, e).reports != s.reports {
      var r := Next(s, e).reports[|s.reports|];
      forall i | 0 <= i < |s.reports| && s.reports[i].handle == r.handle ensures !r.online && s.reports[i].online {
        assert ReportOk(s, s.reports[i]);
      }
      PairedGrows(s.reports, r);
    }
  }

  lemma JoinIsGreeted(s: State, h: nat, now: int)
    requires Enabled(s, AddBridge(h, now)) && Next(s, AddBridge(h, now)).handlers[h].phase.Joined?
    ensures OnlineBefore(Next(s, AddBridge(h, now)).reports, |Next(s, AddBridge(h, now)).reports|, h)
  {
    var r := Next(s, AddBridge(h, now)).reports;
    assert r[|s.reports|].handle == h && r[|s.reports|].online;
  }

  /** A bridge is in its group only after its own join. */
  lemma JoinedByJoining(s: State, e: Event, h: nat)
    requires Enabled(s, e) && h in Next(s, e).handlers && Next(s, e).handlers[h].role.Bridge?
    requires Next(s, e).handlers[h].phase.Joined? || Next(s, e).handlers[h].phase.Left?
    ensures h in s.handlers && s.handlers[h].role.Bridge?
    ensures s.handlers[h].phase.Joined? || s.handlers[h].phase.Left?
            || (e.AddBridge? && e.h == h && Next(s, e).handlers[h].phase.Joined?)
  {
    if h in s.handlers {
      if e.Refuse? || e.h != h { OthersStay(s, e, h); } else if IsOwnStep(e) { OwnStepKeepsIdentity(s, e); }
    }
  }

  lemma GreetedStep(s: State, e: Event)
    requires Enabled(s, e) && Greeted(s)
    ensures Greeted(Next(s, e))
  {
    var t := Next(s, e);
    ReportCause(s, e);
    forall h | h in t.handlers && t.handlers[h].role.Bridge?
               && (t.handlers[h].phase.Joined? || t.handlers[h].phase.Left?)
      ensures OnlineBefore(t.reports, |t.reports|, h)
    {
      JoinedByJoining(s, e, h);
      if s.handlers[h].phase.Joined? || s.handlers[h].phase.Left? {
        OnlineStays(s.reports, t.reports[|s.reports|..], |s.reports|, h);
        assert t.reports == s.reports + t.reports[|s.reports|..];
      } else {
        JoinIsGreeted(s, h, e.now);
      }
    }
  }

  lemma {:induction false} RunKeepsPairs(s: State, es: seq<Event>)
    requires Membership(s) && NoLeak(s) && ReportsOk(s) && Paired(s.reports) && Greeted(s) && Legal(s, es)
    ensures Paired(Run(s, es).reports)
    decreases |es|
  {
    if es != [] {
      assert es[0].CheckLive? ==> HandlerOk(s, es[0].h);
      PairedStep(s, es[0]);
      GreetedStep(s, es[0]);
      StepKeepsSound(s, es[0]);
      RunKeepsReports(s, [es[0]]);
      assert Run(s, [es[0]]) == Next(s, es[0]);
      RunKeepsPairs(Next(s, es[0]), es[1..]);
    }
  }

  /** In every interleaving a connection is reported online at most once and
      offline at most once, the offline report only after the online one. */
  lemma ReportsComeInPairs(limit: int, es: seq<Event>)
    requires Legal(Init(limit), es)
    ensures Paired(Run(Init(limit), es).reports)
  {
    RunKeepsPairs(Init(limit), es);
  }
}
