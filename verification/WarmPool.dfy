/** The per-key queues of pre-forked pods and the four critical sections that change or read
    them (internal/warmpool/pool.go). Everything a call does while it does not hold the lock
    (fork, promote, destroy) lives in WarmPoolRuns, which interleaves these sections. */
module WarmPool {
  import opened Wrappers
  import opened Enumeration

  type PodId = string
  type Key = string

  datatype Pooled = Pooled(podId: PodId, forkedAt: int)

  type Pools = map<Key, seq<Pooled>>

  /** A missing key reads as the empty queue, as a Go map of slices does. */
  function Queue(pools: Pools, key: Key): seq<Pooled> {
    if key in pools then pools[key] else []
  }

  predicate Stale(e: Pooled, now: int, maxAge: int) {
    now - e.forkedAt >= maxAge
  }

  /** What a sweep keeps of one queue, in order. */
  function Kept(q: seq<Pooled>, now: int, maxAge: int): seq<Pooled> {
    if q == [] then []
    else Kept(q[..|q| - 1], now, maxAge) + if Stale(q[|q| - 1], now, maxAge) then [] else [q[|q| - 1]]
  }

  /** The ids a sweep drops from one queue, in order. */
  function Dropped(q: seq<Pooled>, now: int, maxAge: int): seq<PodId> {
    if q == [] then []
    else Dropped(q[..|q| - 1], now, maxAge) + if Stale(q[|q| - 1], now, maxAge) then [q[|q| - 1].podId] else []
  }

  function Swept(pools: Pools, now: int, maxAge: int): Pools {
    map k | k in pools :: Kept(pools[k], now, maxAge)
  }

  /** The ids a sweep reports when it visits the keys in the given order. */
  function Victims(pools: Pools, order: seq<Key>, now: int, maxAge: int): seq<PodId> {
    if order == [] then []
    else Victims(pools, order[..|order| - 1], now, maxAge)
         + Dropped(Queue(pools, order[|order| - 1]), now, maxAge)
  }

  /** The pools in the middle of a sweep, with the keys in `todo` still to visit. */
  function Partly(pools: Pools, todo: set<Key>, now: int, maxAge: int): Pools {
    map k | k in pools :: if k in todo then pools[k] else Kept(pools[k], now, maxAge)
  }

  lemma PartlyEnds(pools: Pools, now: int, maxAge: int)
    ensures Partly(pools, pools.Keys, now, maxAge) == pools
    ensures Partly(pools, {}, now, maxAge) == Swept(pools, now, maxAge)
  {}

  lemma PartlyNext(pools: Pools, todo: set<Key>, now: int, maxAge: int, key: Key)
    requires key in todo && key in pools
    ensures Partly(pools, todo - {key}, now, maxAge)
         == Partly(pools, todo, now, maxAge)[key := Kept(pools[key], now, maxAge)]
  {}

  lemma OrderNext(order: seq<Key>, keys: set<Key>, todo: set<Key>, key: Key)
    requires Enumerates(order, keys - todo) && key in todo && key in keys
    ensures Enumerates(order + [key], keys - (todo - {key}))
  {
    EnumeratesGrows(order, keys - todo, key);
    assert keys - (todo - {key}) == keys - todo + {key};
  }

  lemma VictimsNext(pools: Pools, order: seq<Key>, now: int, maxAge: int, key: Key)
    ensures Victims(pools, order + [key], now, maxAge)
         == Victims(pools, order, now, maxAge) + Dropped(Queue(pools, key), now, maxAge)
  {
    assert (order + [key])[..|order|] == order;
  }

  function Capped(target: int, maxPerKey: int): int {
    if target > maxPerKey then maxPerKey else target
  }

  function Larger(a: int, b: int): int {
    if a > b then a else b
  }

  class Pool {
    const maxPerKey: int
    const idleMaxAge: int
    var pools: Pools

    constructor (maxPerKey: int, idleMaxAge: int)
      ensures this.maxPerKey == maxPerKey && this.idleMaxAge == idleMaxAge && pools == map[]
    {
      this.maxPerKey, this.idleMaxAge, pools := maxPerKey, idleMaxAge, map[];
    }

    method Size(key: Key) returns (n: nat)
      ensures n == |Queue(pools, key)|
    {
      n := |Queue(pools, key)|;
    }

    /** The locked part of Acquire: the head of the queue, if there is one. */
    method TakeOldest(key: Key) returns (entry: Option<Pooled>)
      modifies this`pools
      ensures Queue(old(pools), key) == [] ==> entry == None && pools == old(pools)
      ensures Queue(old(pools), key) != [] ==>
        && entry == Some(Queue(old(pools), key)[0])
        && pools == old(pools)[key := Queue(old(pools), key)[1..]]
    {
      var q := Queue(pools, key);
      if |q| > 0 {
        pools := pools[key := q[1..]];
        return Some(q[0]);
      }
      return None;
    }

    /** The locked part of one turn of Replenish's loop. */
    method Add(key: Key, podId: PodId, now: int)
      modifies this`pools
      ensures pools == old(pools)[key := Queue(old(pools), key) + [Pooled(podId, now)]]
    {
      pools := pools[key := Queue(pools, key) + [Pooled(podId, now)]];
    }

    /** Replenish with nobody else at work: without a failed fork the queue ends up as long as it was
        or as the smaller of target and cap, whichever is more; at the first failed fork it stops
        short of both and keeps the pods it already forked. */
    method Replenish(key: Key, target: int, fork: nat -> Option<PodId>, clock: nat -> int)
      returns (forked: nat, failed: bool)
      modifies this`pools
      ensures forall i :: 0 <= i < forked ==> fork(i).Some?
      ensures failed ==>
        fork(forked).None? && |Queue(old(pools), key)| + forked < target && |Queue(old(pools), key)| + forked < maxPerKey
      ensures !failed ==>
        |Queue(pools, key)| == Larger(|Queue(old(pools), key)|, if target < maxPerKey then target else maxPerKey)
      ensures forked == |Queue(pools, key)| - |Queue(old(pools), key)|
      ensures Queue(old(pools), key) <= Queue(pools, key)
      ensures forall i :: 0 <= i < forked ==>
        Queue(pools, key)[|Queue(old(pools), key)| + i] == Pooled(fork(i).value, clock(i))
      ensures forall k :: k != key ==> Queue(pools, k) == Queue(old(pools), k)
    {
      var wanted := Capped(target, maxPerKey);
      var current := |Queue(pools, key)|;
      forked := 0;
      while current + forked < wanted
        invariant forall i :: 0 <= i < forked ==> fork(i).Some?
        invariant forked > 0 ==> current + forked <= wanted
        invariant |Queue(pools, key)| == current + forked && Queue(old(pools), key) <= Queue(pools, key)
        invariant forall i :: 0 <= i < forked ==> Queue(pools, key)[current + i] == Pooled(fork(i).value, clock(i))
        invariant forall k :: k != key ==> Queue(pools, k) == Queue(old(pools), k)
        decreases wanted - forked
      {
        var id := fork(forked);
        if id.None? {
          return forked, true;
        }
        Add(key, id.value, clock(forked));
        forked := forked + 1;
      }
      return forked, false;
    }

    /** The locked part of ScaleDown: two nested loops over the map and each queue. */
    method Sweep(now: int) returns (destroyed: seq<PodId>, ghost order: seq<Key>)
      modifies this`pools
      ensures pools == Swept(old(pools), now, idleMaxAge)
      ensures Enumerates(order, old(pools).Keys)
      ensures destroyed == Victims(old(pools), order, now, idleMaxAge)
    {
      var was := pools;
      var todo := pools.Keys;
      destroyed, order := [], [];
      PartlyEnds(was, now, idleMaxAge);
      while todo != {}
        invariant todo <= was.Keys && pools == Partly(was, todo, now, idleMaxAge)
        invariant Enumerates(order, was.Keys - todo)
        invariant destroyed == Victims(was, order, now, idleMaxAge)
        decreases todo
      {
        var key :| key in todo;
        var keep, drop := SweepQueue(was[key], now);
        PartlyNext(was, todo, now, idleMaxAge, key);
        OrderNext(order, was.Keys, todo, key);
        VictimsNext(was, order, now, idleMaxAge, key);
        pools := pools[key := keep];
        todo := todo - {key};
        destroyed := destroyed + drop;
        order := order + [key];
      }
      assert was.Keys - todo == was.Keys;
    }

    /** ScaleDown's inner loop over one queue. */
    method SweepQueue(q: seq<Pooled>, now: int) returns (keep: seq<Pooled>, drop: seq<PodId>)
      ensures keep == Kept(q, now, idleMaxAge) && drop == Dropped(q, now, idleMaxAge)
    {
      keep, drop := [], [];
      for i := 0 to |q|
        invariant keep == Kept(q[..i], now, idleMaxAge)
        invariant drop == Dropped(q[..i], now, idleMaxAge)
      {
        assert q[..i + 1][..i] == q[..i];
        if now - q[i].forkedAt >= idleMaxAge {
          drop := drop + [q[i].podId];
        } else {
          keep := keep + [q[i]];
        }
      }
      assert q[..|q|] == q;
    }
  }
}
