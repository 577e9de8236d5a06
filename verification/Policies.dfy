/** The connection-notification policy of one bridge socket. The policy sent
    with a disconnect report is sticky: a later "suppress" does not erase it. */
module Policies {

  const NORMAL := "normal"
  const SUPPRESS := "suppress"
  const CONSERVATIVE := "conservative"

  function Normalize(policy: string): (r: string)
    ensures r in {NORMAL, SUPPRESS, CONSERVATIVE}
    ensures r == policy <==> policy in {NORMAL, SUPPRESS, CONSERVATIVE}
    ensures r == "normal" <==> policy == "normal"
    ensures r == "suppress" <==> policy == "suppress"
  {
    if policy == NORMAL || policy == SUPPRESS || policy == CONSERVATIVE then policy else CONSERVATIVE
  }

  /** One accepted policy message. */
  function Sticky(current: string, update: string): string {
    if update != SUPPRESS then update else current
  }

  /** The policies a socket announced: the one of its auth message, then every
      policy message, each normalised. */
  function Announced(requested: string, stream: seq<string>): (r: seq<string>)
    ensures |r| == |stream| + 1
  {
    seq(|stream| + 1,
        i requires 0 <= i <= |stream| => if i == 0 then Normalize(requested) else Normalize(stream[i - 1]))
  }

  ghost predicate SuppressedAfter(policies: seq<string>, i: nat) {
    forall j :: i < j < |policies| ==> policies[j] == SUPPRESS
  }

  /** `r` is the last entry that is not "suppress", or "suppress" if none is. */
  ghost predicate IsLastAwake(policies: seq<string>, r: string) {
    || (r == SUPPRESS && forall i :: 0 <= i < |policies| ==> policies[i] == SUPPRESS)
    || (r != SUPPRESS
        && exists i :: 0 <= i < |policies| && policies[i] == r && SuppressedAfter(policies, i))
  }

  lemma LastAwakeUnique(policies: seq<string>, r: string, s: string)
    requires IsLastAwake(policies, r) && IsLastAwake(policies, s)
    ensures r == s
  {
  }

  /** What that means for the strings as they were sent: "suppress" iff nothing
      else was ever sent, otherwise the last other string, where everything but
      "normal" counts as "conservative". */
  lemma LastAwakeMeans(requested: string, stream: seq<string>, r: string)
    requires IsLastAwake(Announced(requested, stream), r)
    ensures var raw := [requested] + stream;
      && (r == "suppress" <==> forall i :: 0 <= i < |raw| ==> raw[i] == "suppress")
      && forall i :: 0 <= i < |raw| && raw[i] != "suppress" && SuppressedAfter(raw, i) ==>
           r == if raw[i] == "normal" then "normal" else "conservative"
  {
    var raw, policies := [requested] + stream, Announced(requested, stream);
    assert forall i :: 0 <= i < |raw| ==> policies[i] == Normalize(raw[i]);
    forall i | 0 <= i < |raw| && raw[i] != "suppress" && SuppressedAfter(raw, i)
      ensures r == if raw[i] == "normal" then "normal" else "conservative"
    {
      assert SuppressedAfter(policies, i);
      assert policies[i] != SUPPRESS;
    }
    if forall i :: 0 <= i < |raw| ==> raw[i] == "suppress" {
      assert forall i :: 0 <= i < |policies| ==> policies[i] == SUPPRESS;
    }
  }

  /** One more message moves the last awake policy by one sticky update. */
  lemma StickyFollowsStream(requested: string, stream: seq<string>, message: string, r: string)
    requires IsLastAwake(Announced(requested, stream), r)
    ensures IsLastAwake(Announced(requested, stream + [message]), Sticky(r, Normalize(message)))
  {
    var was, now := Announced(requested, stream), Announced(requested, stream + [message]);
    assert now == was + [Normalize(message)];
    if Normalize(message) != SUPPRESS {
      assert now[|was|] == Normalize(message);
    } else if r != SUPPRESS {
      var i :| 0 <= i < |was| && was[i] == r && SuppressedAfter(was, i);
      assert now[i] == r;
    }
  }

  lemma FreshSocketPolicy(requested: string)
    ensures IsLastAwake(Announced(requested, []), Normalize(requested))
  {
    assert Announced(requested, [])[0] == Normalize(requested);
  }

  /** The read loop's bookkeeping over a whole stream of accepted messages. */
  method TrackPolicy(requested: string, stream: seq<string>) returns (policy: string, disconnectPolicy: string)
    ensures policy == Announced(requested, stream)[|stream|]
    ensures IsLastAwake(Announced(requested, stream), disconnectPolicy)
    ensures var raw := [requested] + stream;
      && policy == (if raw[|stream|] in {"normal", "suppress"} then raw[|stream|] else "conservative")
      && (disconnectPolicy == "suppress" <==> forall i :: 0 <= i < |raw| ==> raw[i] == "suppress")
      && forall i :: 0 <= i < |raw| && raw[i] != "suppress" && SuppressedAfter(raw, i) ==>
           disconnectPolicy == if raw[i] == "normal" then "normal" else "conservative"
  {
    policy := Normalize(requested);
    disconnectPolicy := policy;
    FreshSocketPolicy(requested);
    for i := 0 to |stream|
      invariant policy == Announced(requested, stream[..i])[i]
      invariant IsLastAwake(Announced(requested, stream[..i]), disconnectPolicy)
    {
      StickyFollowsStream(requested, stream[..i], stream[i], disconnectPolicy);
      assert stream[..i + 1] == stream[..i] + [stream[i]];
      policy := Normalize(stream[i]);
      if policy != SUPPRESS {
        disconnectPolicy := policy;
      }
    }
    assert stream[..|stream|] == stream;
    LastAwakeMeans(requested, stream, disconnectPolicy);
  }
}
