/** The 16-bit connId counter: it runs through 1..65535 in a circle, never
    yielding 0, and a search from any point finds a free id after at most as
    many misses as there are ids in use. */
module ConnIds {
  import opened Connections

  predicate IsConnID(id: nat) { 1 <= id <= MAX_CONN_ID }

  /** One increment of a 16-bit counter that skips 0 when it wraps. */
  function Advance(id: nat): (r: nat)
    requires IsConnID(id)
    ensures IsConnID(r)
  {
    var wrapped := (id + 1) % 65536;
    if wrapped == 0 then 1 else wrapped
  }

  /** The k-th id of the circle, counted from `start`. */
  function Nth(start: nat, k: nat): (r: nat)
    requires IsConnID(start) && k <= MAX_CONN_ID
    ensures IsConnID(r)
  {
    if start + k <= MAX_CONN_ID then start + k else start + k - MAX_CONN_ID
  }

  /** The counter follows the circle, and the circle closes after exactly
      65535 steps without meeting an id twice before. */
  lemma CounterIsCircle(start: nat, j: nat, k: nat)
    requires IsConnID(start) && j < k <= MAX_CONN_ID
    ensures Nth(start, k) == Advance(Nth(start, k - 1))
    ensures Nth(start, j) == Nth(start, k) <==> j == 0 && k == MAX_CONN_ID
  {
  }

  ghost predicate TakenUpTo(used: set<nat>, start: nat, k: nat)
    requires IsConnID(start) && k <= MAX_CONN_ID
  {
    forall j :: 0 <= j < k ==> Nth(start, j) in used
  }

  lemma {:induction false} Visited(used: set<nat>, start: nat, k: nat) returns (seen: set<nat>)
    requires IsConnID(start) && k <= MAX_CONN_ID && TakenUpTo(used, start, k)
    ensures |seen| == k && seen <= used
    ensures forall x :: x in seen <==> exists j :: 0 <= j < k && x == Nth(start, j)
  {
    if k == 0 {
      seen := {};
    } else {
      var before := Visited(used, start, k - 1);
      assert Nth(start, k - 1) !in before;
      seen := before + {Nth(start, k - 1)};
    }
  }

  /** Pigeonhole: k misses in a row need k ids in use. */
  lemma Pigeonhole(used: set<nat>, start: nat, k: nat)
    requires IsConnID(start) && k <= MAX_CONN_ID && TakenUpTo(used, start, k)
    ensures k <= |used|
  {
    var seen := Visited(used, start, k);
    SubsetSize(seen, used);
  }

  lemma {:induction false} SubsetSize<T>(a: set<T>, b: set<T>)
    requires a <= b
    ensures |a| <= |b|
    decreases |a|
  {
    if x :| x in a {
      SubsetSize(a - {x}, b - {x});
    }
  }

  /** The number of misses before the first free id from `start`. */
  ghost function Misses(used: set<nat>, start: nat, from: nat): (k: nat)
    requires IsConnID(start) && |used| < MAX_CONN_ID
    requires from <= |used| && TakenUpTo(used, start, from)
    ensures from <= k <= |used|
    ensures TakenUpTo(used, start, k) && Nth(start, k) !in used
    decreases |used| - from
  {
    if Nth(start, from) !in used then from
    else
      assert TakenUpTo(used, start, from + 1);
      Pigeonhole(used, start, from + 1);
      Misses(used, start, from + 1)
  }

  /** The id a search from `start` settles on. */
  ghost function FreeID(used: set<nat>, start: nat): (id: nat)
    requires IsConnID(start) && |used| < MAX_CONN_ID
    ensures IsConnID(id) && id !in used
  {
    Nth(start, Misses(used, start, 0))
  }

  lemma FreeIDIs(used: set<nat>, start: nat, k: nat)
    requires IsConnID(start) && |used| < MAX_CONN_ID
    requires k <= MAX_CONN_ID && TakenUpTo(used, start, k) && Nth(start, k) !in used
    ensures FreeID(used, start) == Nth(start, k)
    ensures k <= |used|
  {
    Pigeonhole(used, start, k);
    var m := Misses(used, start, 0);
    assert !(k < m) && !(m < k);
  }
}
