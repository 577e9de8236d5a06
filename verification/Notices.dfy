/** What one phone hears of one join or leave, message by message: at most one
    target notice, before the presence notice. A phone that moves is never told
    first that it lost its bridge. */
module Notices {
  import opened Connections
  import opened Routing
  import opened Announcements
  import opened Views

  /** The messages sent to one connection, in order. */
  function Inbox(log: Log, h: nat): seq<Message> {
    if log == [] then []
    else
      var rest, last := Inbox(log[..|log| - 1], h), log[|log| - 1];
      if last.to == h then rest + [last.message] else rest
  }

  lemma {:induction false} InboxAppend(log: Log, more: Log, h: nat)
    ensures Inbox(log + more, h) == Inbox(log, h) + Inbox(more, h)
    decreases |more|
  {
    if more == [] {
      assert log + more == log;
    } else {
      var n := |more| - 1;
      InboxAppend(log, more[..n], h);
      assert (log + more)[..|log + more| - 1] == log + more[..n];
    }
  }

  /** The one notice a phone gets when its target moves. */
  ghost function MoveNotice(before: Bridges, after: Bridges, pin: string): Message
    requires Keyed(before) && Keyed(after)
  {
    match Target(after, pin)
    case Some(b) => BridgeConnected(b.bridgeID)
    case None =>
      var was := Target(before, pin);
      BridgeDisconnected(if was.Some? then was.value.bridgeID else "")
  }

  lemma ChangeInbox(before: Bridges, after: Bridges, phones: Phones, ch: TargetChange, p: Connection)
    requires Keyed(before) && Keyed(after) && PhonesKeyed(phones) && Distinct(after, phones)
    requires Registered(phones, ch.phone) && Registered(phones, p) && Describes(before, after, ch)
    ensures Inbox(ChangeNotices(ch), p.handle)
            == if ch.phone == p then [MoveNotice(before, after, p.bridgeID)] else []
  {
    var first := if ch.previous.Some? then [Sent(ch.previous.value.handle, PhoneDisconnected(ch.phone.connID))] else [];
    var told := Sent(ch.phone.handle, MoveNotice(before, after, ch.phone.bridgeID));
    assert ch.phone.handle == p.handle <==> ch.phone == p;
    if ch.next.Some? {
      var last := Sent(ch.next.value.handle, PhoneConnected(ch.phone.connID));
      assert ChangeNotices(ch) == first + ([told] + [last]);
      InboxAppend(first, [told] + [last], p.handle);
      InboxAppend([told], [last], p.handle);
    } else {
      assert ChangeNotices(ch) == first + [told];
      InboxAppend(first, [told], p.handle);
    }
  }

  lemma {:induction false} ReportInbox(before: Bridges, after: Bridges, phones: Phones,
                                       changes: seq<TargetChange>, n: nat, p: Connection)
    requires Keyed(before) && Keyed(after) && PhonesKeyed(phones) && Distinct(after, phones)
    requires IsReport(phones.Values, before, after, changes) && n <= |changes| && Registered(phones, p)
    ensures Inbox(ReportNotices(changes[..n]), p.handle)
            == if p in PhonesOf(changes[..n]) then [MoveNotice(before, after, p.bridgeID)] else []
    decreases n
  {
    if n > 0 {
      ReportInbox(before, after, phones, changes, n - 1, p);
      var ch := changes[n - 1];
      PhonesOfMore(changes, n);
      assert ch.phone in phones.Values && Describes(before, after, ch);
      ChangeInbox(before, after, phones, ch, p);
      InboxAppend(ReportNotices(changes[..n - 1]), ChangeNotices(ch), p.handle);
      assert changes[..n][..n - 1] == changes[..n - 1];
    }
  }

  lemma {:induction false} PresenceInbox(everyone: seq<Connection>, id: string, online: bool, h: nat)
    requires forall i, j :: 0 <= i < j < |everyone| ==> everyone[i].handle != everyone[j].handle
    ensures Inbox(PresenceNotices(everyone, id, online), h)
            == if exists p :: p in everyone && p.handle == h then [Presence(id, online)] else []
    decreases |everyone|
  {
    if everyone != [] {
      var n := |everyone| - 1;
      PresenceInbox(everyone[..n], id, online, h);
      assert PresenceNotices(everyone, id, online)[..n] == PresenceNotices(everyone[..n], id, online);
      assert everyone == everyone[..n] + [everyone[n]];
    }
  }

  /** A phone hears of a bridge's join or leave exactly this: its new target if
      that moved, in one notice, and then the presence of the bridge. */
  lemma PhoneHears(before: Bridges, after: Bridges, phones: Phones, changes: seq<TargetChange>,
                   everyone: seq<Connection>, id: string, online: bool, p: Connection)
    requires Keyed(before) && Keyed(after) && PhonesKeyed(phones) && Distinct(after, phones)
    requires IsReport(phones.Values, before, after, changes) && Lists(everyone, phones) && Registered(phones, p)
    ensures Inbox(ReportNotices(changes) + PresenceNotices(everyone, id, online), p.handle)
            == (if Moved(before, after, p.bridgeID) then [MoveNotice(before, after, p.bridgeID)] else [])
               + [Presence(id, online)]
  {
    ReportInbox(before, after, phones, changes, |changes|, p);
    assert changes[..|changes|] == changes;
    assert p in phones.Values by { assert phones[p.connID] == p; }
    ReportPhones(phones.Values, before, after, changes);
    forall i, j | 0 <= i < j < |everyone| ensures everyone[i].handle != everyone[j].handle {
      assert everyone[i] in everyone && everyone[j] in everyone;
    }
    PresenceInbox(everyone, id, online, p.handle);
    assert p in everyone;
    InboxAppend(ReportNotices(changes), PresenceNotices(everyone, id, online), p.handle);
  }
}
