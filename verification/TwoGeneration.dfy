/** The two-generation caches of `sippy/SipTransactionManager.py`: the reply cache `l1rcache`/`l2rcache`
    and the remote-to-local address cache `cache_r2l`/`cache_r2l_old`. */
module TwoGeneration {
  import opened Basics

  datatype Cache<K(==), +V> = Cache(cur: map<K, V>, prev: map<K, V>)

  function Store<K, V>(c: Cache<K, V>, k: K, v: V): Cache<K, V> {
    c.(cur := c.cur[k := v])
  }

  function Lookup<K, V>(c: Cache<K, V>, k: K): Option<V> {
    if k in c.cur then Some(c.cur[k]) else if k in c.prev then Some(c.prev[k]) else None
  }

  function Rotate<K, V>(c: Cache<K, V>): Cache<K, V> {
    Cache(map[], c.cur)
  }

  /** A hit in the older generation is copied to the current one. */
  function Promote<K, V>(c: Cache<K, V>, k: K): Cache<K, V> {
    if k !in c.cur && k in c.prev then Store(c, k, c.prev[k]) else c
  }

  // ----- What a user does with a cache -----

  datatype Op<K, V> = Put(k: K, v: V) | Get(k: K) | Turn

  /** One operation on the cache; `promote` tells the address cache from the reply cache. */
  function Apply<K, V>(c: Cache<K, V>, op: Op<K, V>, promote: bool): (Cache<K, V>, Option<V>) {
    match op
    case Put(k, v) => (Store(c, k, v), None)
    case Get(k) => (if promote then Promote(c, k) else c, Lookup(c, k))
    case Turn => (Rotate(c), None)
  }

  function Results<K, V>(c: Cache<K, V>, ops: seq<Op<K, V>>, promote: bool): seq<Option<V>>
    decreases |ops|
  {
    if ops == [] then []
    else
      var (c', r) := Apply(c, ops[0], promote);
      [r] + Results(c', ops[1..], promote)
  }

  // ----- The reference: one map whose entries carry the period in which they were last stored or used -----

  datatype Stamped<K, V> = Stamped(period: nat, entries: map<K, (V, nat)>)

  predicate Recent<K, V>(m: Stamped<K, V>, k: K) {
    k in m.entries && m.period <= m.entries[k].1 + 1
  }

  function StampedApply<K, V>(m: Stamped<K, V>, op: Op<K, V>, promote: bool): (Stamped<K, V>, Option<V>) {
    match op
    case Put(k, v) => (m.(entries := m.entries[k := (v, m.period)]), None)
    case Get(k) =>
      if Recent(m, k) then
        (if promote then m.(entries := m.entries[k := (m.entries[k].0, m.period)]) else m, Some(m.entries[k].0))
      else (m, None)
    case Turn => (m.(period := m.period + 1), None)
  }

  function StampedResults<K, V>(m: Stamped<K, V>, ops: seq<Op<K, V>>, promote: bool): seq<Option<V>>
    decreases |ops|
  {
    if ops == [] then []
    else
      var (m', r) := StampedApply(m, ops[0], promote);
      [r] + StampedResults(m', ops[1..], promote)
  }

  /** The current generation holds what was stamped in this period; the older one holds what was stamped in
      the previous period and not stamped again. */
  ghost predicate Refines<K(!new), V>(c: Cache<K, V>, m: Stamped<K, V>) {
    && (forall k :: k in m.entries ==> m.entries[k].1 <= m.period)
    && (forall k :: k in c.cur <==> k in m.entries && m.entries[k].1 == m.period)
    && (forall k :: k in c.cur ==> c.cur[k] == m.entries[k].0)
    && (forall k :: k !in c.cur ==> (k in c.prev <==> k in m.entries && m.entries[k].1 + 1 == m.period))
    && (forall k :: k !in c.cur && k in c.prev ==> c.prev[k] == m.entries[k].0)
  }

  lemma ApplyRefines<K(!new), V>(c: Cache<K, V>, m: Stamped<K, V>, op: Op<K, V>, promote: bool)
    requires Refines(c, m)
    ensures Refines(Apply(c, op, promote).0, StampedApply(m, op, promote).0)
    ensures Apply(c, op, promote).1 == StampedApply(m, op, promote).1
  {
  }

  lemma {:induction false} ResultsRefine<K(!new), V>(c: Cache<K, V>, m: Stamped<K, V>, ops: seq<Op<K, V>>,
                                                     promote: bool)
    requires Refines(c, m)
    ensures Results(c, ops, promote) == StampedResults(m, ops, promote)
    decreases |ops|
  {
    if ops != [] {
      ApplyRefines(c, m, ops[0], promote);
      ResultsRefine(Apply(c, ops[0], promote).0, StampedApply(m, ops[0], promote).0, ops[1..], promote);
    }
  }

  /** Every lookup in every history, from an empty cache: the reply cache answers with the latest entry stored
      in this period or the previous one; the address cache with an entry stored or used in one of them. */
  lemma CacheRefinesStampedMap<K(!new), V>(ops: seq<Op<K, V>>, promote: bool)
    ensures Results(Cache(map[], map[]), ops, promote) == StampedResults(Stamped(0, map[]), ops, promote)
  {
    ResultsRefine(Cache(map[], map[]), Stamped(0, map[]), ops, promote);
  }

  // ----- The objects that hold the caches -----

  /** `local4remote`: which local address serves a remote one, and the server at each local address. A server is its
      number; `made` counts them. */
  class AddressCache<A(==), L(==)> {
    var cache_r2l: map<A, L>
    var cache_r2l_old: map<A, L>
    var cache_l2s: map<L, nat>
    var made: nat
    const home: L                         // the address of the first server
    const fixed: bool                     // the only one

    function View(): Cache<A, L>
      reads this
    {
      Cache(cache_r2l, cache_r2l_old)
    }

    /** Every cached address has its own server. */
    ghost predicate Valid()
      reads this
    {
      && home in cache_l2s
      && (forall a :: a in cache_r2l ==> cache_r2l[a] in cache_l2s)
      && (forall a :: a in cache_r2l_old ==> cache_r2l_old[a] in cache_l2s)
      && (forall l :: l in cache_l2s ==> cache_l2s[l] < made)
      && (forall l, m :: l in cache_l2s && m in cache_l2s && l != m ==> cache_l2s[l] != cache_l2s[m])
    }

    constructor (home: L, fixed: bool)
      ensures Valid() && View() == Cache(map[], map[]) && cache_l2s == map[home := 0] && this.home == home
      ensures this.fixed == fixed
    {
      cache_r2l, cache_r2l_old, cache_l2s, made := map[], map[], map[home := 0], 1;
      this.home, this.fixed := home, fixed;
    }

    /** The server at a local address, made when there is none. */
    method ServerAt(laddress: L) returns (server: nat)
      requires Valid()
      modifies this`cache_l2s, this`made
      ensures Valid() && laddress in cache_l2s && server == cache_l2s[laddress]
      ensures cache_l2s == if laddress in old(cache_l2s) then old(cache_l2s) else old(cache_l2s)[laddress := old(made)]
    {
      if laddress in cache_l2s {
        return cache_l2s[laddress];
      }
      server := made;
      cache_l2s, made := cache_l2s[laddress := made], made + 1;
    }

    /** `resolved` is what connecting a socket towards the remote address would report; `local` is given instead of
        a remote address by a caller that names the local one. */
    method GetServer(address: A, local: Option<L>, resolved: L) returns (server: nat)
      requires Valid()
      modifies this
      ensures Valid() && forall l :: l in old(cache_l2s) ==> l in cache_l2s && cache_l2s[l] == old(cache_l2s)[l]
      ensures if fixed then View() == old(View()) && cache_l2s == old(cache_l2s) && server == cache_l2s[home]
              else if local.Some? then
                View() == old(View()) && local.value in cache_l2s && server == cache_l2s[local.value]
              else
                var (c, hit) := Apply(old(View()), Get(address), true);
                match hit
                case Some(l) => View() == c && l in cache_l2s && server == cache_l2s[l] && cache_l2s == old(cache_l2s)
                case None =>
                  && View() == Apply(c, Put(address, resolved), true).0
                  && resolved in cache_l2s && server == cache_l2s[resolved]
    {
      if fixed {
        return cache_l2s[home];
      }
      if local.Some? {
        server := ServerAt(local.value);
        return;
      }
      var found := None;
      if address in cache_r2l {
        found := Some(cache_r2l[address]);
      } else if address in cache_r2l_old {
        found := Some(cache_r2l_old[address]);
        cache_r2l := cache_r2l[address := cache_r2l_old[address]];
      }
      match found {
        case Some(l) => return cache_l2s[l];
        case None =>
          server := ServerAt(resolved);
          cache_r2l := cache_r2l[address := resolved];
      }
    }

    method RotateCache()
      requires Valid()
      modifies this
      ensures Valid() && View() == Apply(old(View()), Turn, true).0 && cache_l2s == old(cache_l2s)
    {
      cache_r2l_old := cache_r2l;
      cache_r2l := map[];
    }
  }
}
