/** The per-IP connection limiter. */
module RateLimits {

  type Counts = map<string, nat>

  /** Only addresses with a live connection are stored. */
  ghost predicate Positive(counts: Counts) {
    forall ip :: ip in counts ==> counts[ip] >= 1
  }

  function CountOf(counts: Counts, ip: string): nat {
    if ip in counts then counts[ip] else 0
  }

  function Admitted(counts: Counts, ip: string): Counts {
    counts[ip := CountOf(counts, ip) + 1]
  }

  function Released(counts: Counts, ip: string): Counts {
    if ip !in counts then counts
    else if counts[ip] <= 1 then counts - {ip}
    else counts[ip := counts[ip] - 1]
  }

  /** One admission and one release change one count by one each, in opposite
      directions, and cancel out. */
  lemma ReleaseUndoesAdmit(counts: Counts, ip: string)
    requires Positive(counts)
    ensures Positive(Admitted(counts, ip)) && Positive(Released(counts, ip))
    ensures Released(Admitted(counts, ip), ip) == counts
    ensures ip in counts ==> Admitted(Released(counts, ip), ip) == counts
    ensures forall x :: CountOf(Released(counts, ip), x)
                        == CountOf(counts, x) - (if x == ip && ip in counts then 1 else 0)
  {
  }

  /** The sum of the values of `keys`. */
  ghost function Sum<K(!new)>(m: map<K, nat>, keys: set<K>): nat
    requires keys <= m.Keys
  {
    if keys == {} then 0
    else
      var k :| k in keys;
      m[k] + Sum(m, keys - {k})
  }

  /** The sum does not depend on the order of summation. */
  lemma {:induction false} SumTakeOut<K(!new)>(m: map<K, nat>, keys: set<K>, k: K)
    requires keys <= m.Keys && k in keys
    ensures Sum(m, keys) == m[k] + Sum(m, keys - {k})
    decreases |keys|
  {
    var first :| first in keys && Sum(m, keys) == m[first] + Sum(m, keys - {first});
    if first != k {
      SumTakeOut(m, keys - {first}, k);
      SumTakeOut(m, keys - {k}, first);
      assert keys - {first} - {k} == keys - {k} - {first};
    }
  }

  /** The sum depends only on the values of its keys. */
  lemma {:induction false} SumAgrees<K(!new)>(m: map<K, nat>, n: map<K, nat>, keys: set<K>)
    requires keys <= m.Keys && keys <= n.Keys && forall k :: k in keys ==> m[k] == n[k]
    ensures Sum(m, keys) == Sum(n, keys)
    decreases |keys|
  {
    if keys != {} {
      var k :| k in keys;
      SumTakeOut(m, keys, k);
      SumTakeOut(n, keys, k);
      SumAgrees(m, n, keys - {k});
    }
  }

  datatype ConnectionStats = ConnectionStats(active: nat, clientIPs: nat, maxPerIP: nat, rejected: nat)

  ghost predicate IsMaximum(counts: Counts, ips: set<string>, m: nat)
    requires ips <= counts.Keys
  {
    && (forall ip :: ip in ips ==> counts[ip] <= m)
    && (m == 0 || exists ip :: ip in ips && counts[ip] == m)
  }

  class RateLimiter {
    const maxPerIP: int
    const maxRooms: int
    var counts: Counts
    var rejected: nat

    ghost predicate Valid()
      reads this
    {
      Positive(counts) && forall ip :: ip in counts ==> counts[ip] <= maxPerIP
    }

    constructor (maxPerIP: int, maxRooms: int)
      ensures Valid() && counts == map[] && rejected == 0
      ensures this.maxPerIP == maxPerIP && this.maxRooms == maxRooms
    {
      this.maxPerIP, this.maxRooms := maxPerIP, maxRooms;
      counts, rejected := map[], 0;
    }

    method AllowConnection(ip: string) returns (ok: bool)
      requires Valid()
      modifies this`counts, this`rejected
      ensures Valid()
      ensures ok == (CountOf(old(counts), ip) < maxPerIP)
      ensures counts == if ok then Admitted(old(counts), ip) else old(counts)
      ensures rejected == old(rejected) + if ok then 0 else 1
    {
      var count := CountOf(counts, ip);
      if count >= maxPerIP {
        rejected := rejected + 1;
        return false;
      }
      counts := counts[ip := count + 1];
      ok := true;
    }

    method ReleaseConnection(ip: string)
      requires Valid()
      modifies this`counts
      ensures Valid() && counts == Released(old(counts), ip)
    {
      if ip !in counts {
        return;
      }
      if counts[ip] <= 1 {
        counts := counts - {ip};
        return;
      }
      counts := counts[ip := counts[ip] - 1];
    }

    /** One pass in any order yields the sum, the number and the maximum of the
        stored counts. */
    method Stats() returns (stats: ConnectionStats)
      ensures stats.active == Sum(counts, counts.Keys)
      ensures stats.clientIPs == |counts|
      ensures IsMaximum(counts, counts.Keys, stats.maxPerIP)
      ensures stats.rejected == rejected
    {
      stats := ConnectionStats(0, 0, 0, rejected);
      var rest := counts.Keys;
      while rest != {}
        invariant rest <= counts.Keys && stats.rejected == rejected
        invariant stats.active + Sum(counts, rest) == Sum(counts, counts.Keys)
        invariant stats.clientIPs + |rest| == |counts|
        invariant IsMaximum(counts, counts.Keys - rest, stats.maxPerIP)
        decreases |rest|
      {
        var ip :| ip in rest;
        SumTakeOut(counts, rest, ip);
        rest := rest - {ip};
        stats := stats.(active := stats.active + counts[ip], clientIPs := stats.clientIPs + 1);
        if counts[ip] > stats.maxPerIP {
          stats := stats.(maxPerIP := counts[ip]);
        }
      }
      assert counts.Keys - rest == counts.Keys;
    }
  }
}
