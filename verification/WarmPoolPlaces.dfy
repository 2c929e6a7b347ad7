/** Ownership and order over every interleaving: each forked pod is in exactly one place, and
    under a clock that never goes back each queue is sorted by fork time. */
module WarmPoolPlaces {
  import opened Wrappers
  import opened Enumeration
  import opened WarmPool
  import opened WarmPoolRuns

  datatype Place = InPool(pool: Key) | InCall(c: nat) | HandedOver | PickedForDestruction

  /** The pod an in-flight call alone knows about. */
  function Holds(call: Call): set<PodId> {
    if call.Promoting? || call.Refilled? then {call.podId} else {}
  }

  ghost function Ids(q: seq<Pooled>): set<PodId> {
    set e | e in q :: e.podId
  }

  ghost function Members(s: State, p: Place): set<PodId> {
    match p
    case InPool(k) => Ids(Queue(s.pools, k))
    case InCall(c) => if c < |s.calls| then Holds(s.calls[c]) else {}
    case HandedOver => set h | h in s.handed :: h.podId
    case PickedForDestruction => set id | id in s.picked
  }

  ghost predicate At(s: State, id: PodId, p: Place) {
    id in Members(s, p)
  }

  /** The key a place stands for, when it stands for one. */
  ghost function KeyOf(s: State, p: Place): Option<Key> {
    if p.InPool? then Some(p.pool)
    else if p.InCall? && p.c < |s.calls| && Holds(s.calls[p.c]) != {} then Some(s.calls[p.c].key)
    else None
  }

  ghost predicate DistinctPods(q: seq<Pooled>) {
    forall i, j :: 0 <= i < j < |q| ==> q[i].podId != q[j].podId
  }

  ghost predicate DistinctIds(ids: seq<PodId>) {
    forall i, j :: 0 <= i < j < |ids| ==> ids[i] != ids[j]
  }

  ghost predicate DistinctHandovers(hs: seq<Handover>) {
    forall i, j :: 0 <= i < j < |hs| ==> hs[i].podId != hs[j].podId
  }

  /** No queue and no history lists a pod twice. */
  ghost predicate NoRepeats(s: State) {
    && (forall k :: k in s.pools ==> DistinctPods(s.pools[k]))
    && DistinctHandovers(s.handed)
    && DistinctIds(s.picked)
  }

  ghost predicate UnderOwnKey(s: State) {
    forall p, id :: At(s, id, p) && KeyOf(s, p).Some? ==>
      id in s.forked && s.forked[id] == KeyOf(s, p).value
  }

  /** Every forked pod is in exactly one place, once, and a pooled or held pod sits under the key
      it was forked for. */
  ghost predicate OnePlaceEach(s: State) {
    && (forall id :: id in s.forked <==> exists p :: At(s, id, p))
    && (forall id, p, q :: At(s, id, p) && At(s, id, q) ==> p == q)
    && UnderOwnKey(s)
    && NoRepeats(s)
  }

  /** The inductive form: `loc` names the one place of each pod. */
  ghost predicate Located(s: State, loc: map<PodId, Place>) {
    forall p, id :: At(s, id, p) <==> id in loc && loc[id] == p
  }

  ghost predicate Inv(s: State, loc: map<PodId, Place>) {
    && loc.Keys == s.forked.Keys
    && Located(s, loc)
    && UnderOwnKey(s)
    && NoRepeats(s)
  }

  lemma InvIsOnePlaceEach(s: State, loc: map<PodId, Place>)
    requires Inv(s, loc)
    ensures OnePlaceEach(s)
  {
    forall id ensures id in s.forked <==> exists p :: At(s, id, p) {
      if id in loc { assert At(s, id, loc[id]); }
    }
  }

  // ----- sets of ids of one queue

  lemma IdsOfTail(q: seq<Pooled>)
    requires q != [] && DistinctPods(q)
    ensures Ids(q[1..]) == Ids(q) - {q[0].podId} && q[0].podId in Ids(q)
    ensures DistinctPods(q[1..])
  {
    forall e | e in q && e != q[0] ensures e in q[1..] {
      var i :| 0 <= i < |q| && q[i] == e;
      assert q[1..][i - 1] == e;
    }
    forall e | e in q[1..] ensures e in q && e.podId != q[0].podId {
      var i :| 0 <= i < |q[1..]| && q[1..][i] == e;
      assert q[i + 1] == e;
    }
    assert q[0] in q;
  }

  lemma IdsOfPush(q: seq<Pooled>, e: Pooled)
    ensures Ids(q + [e]) == Ids(q) + {e.podId}
    ensures DistinctPods(q) && e.podId !in Ids(q) ==> DistinctPods(q + [e])
  {
    var r := q + [e];
    assert r[|q|] == e;
    forall x ensures x in r <==> x in q || x == e {
      if x in q { var i :| 0 <= i < |q| && q[i] == x; assert r[i] == x; }
    }
    assert forall i :: 0 <= i < |q| ==> q[i] in q && r[i] == q[i];
  }

  /** A sweep keeps exactly the entries younger than the limit. */
  lemma {:induction false} KeptAre(q: seq<Pooled>, now: int, maxAge: int, e: Pooled)
    ensures e in Kept(q, now, maxAge) <==> e in q && now - e.forkedAt < maxAge
    decreases |q|
  {
    if q != [] {
      KeptAre(q[..|q| - 1], now, maxAge, e);
      assert q == q[..|q| - 1] + [q[|q| - 1]];
    }
  }

  /** A sweep splits the ids of a queue into those it keeps and those it drops. */
  lemma {:induction false} SweepSplits(q: seq<Pooled>, now: int, maxAge: int)
    requires DistinctPods(q)
    ensures DistinctPods(Kept(q, now, maxAge)) && DistinctIds(Dropped(q, now, maxAge))
    ensures Ids(q) == Ids(Kept(q, now, maxAge)) + SetOf(Dropped(q, now, maxAge))
    ensures Ids(Kept(q, now, maxAge)) !! SetOf(Dropped(q, now, maxAge))
    decreases |q|
  {
    if q != [] {
      var rest, last := q[..|q| - 1], q[|q| - 1];
      SweepSplits(rest, now, maxAge);
      assert q == rest + [last];
      assert last.podId !in Ids(rest);
      IdsOfPush(rest, last);
      if Stale(last, now, maxAge) {
        SetOfPush(Dropped(rest, now, maxAge), last.podId);
      } else {
        IdsOfPush(Kept(rest, now, maxAge), last);
      }
    }
  }

  ghost function SetOf(ids: seq<PodId>): set<PodId> {
    set id | id in ids
  }

  lemma SetOfPush(ids: seq<PodId>, id: PodId)
    ensures SetOf(ids + [id]) == SetOf(ids) + {id}
    ensures DistinctIds(ids) && id !in SetOf(ids) ==> DistinctIds(ids + [id])
  {
    assert forall x :: x in ids + [id] <==> x in ids || x == id;
    assert forall i :: 0 <= i < |ids| ==> ids[i] in ids;
  }

  lemma DistinctAppend(a: seq<PodId>, b: seq<PodId>)
    requires DistinctIds(a) && DistinctIds(b)
    requires forall id :: id in a ==> id !in b
    ensures DistinctIds(a + b)
  {
    forall i, j | 0 <= i < j < |a + b| ensures (a + b)[i] != (a + b)[j] {
      if i < |a| <= j { assert a[i] in a && b[j - |a|] in b; }
    }
  }

  ghost function DroppedFrom(pools: Pools, k: Key, now: int, maxAge: int): set<PodId> {
    SetOf(Dropped(Queue(pools, k), now, maxAge))
  }

  /** Swept ids come from the visited queues... */
  lemma {:induction false} VictimsFrom(pools: Pools, order: seq<Key>, now: int, maxAge: int, id: PodId)
    ensures id in Victims(pools, order, now, maxAge)
       <==> exists k :: k in order && id in DroppedFrom(pools, k, now, maxAge)
    decreases |order|
  {
    if order != [] {
      var rest, last := order[..|order| - 1], order[|order| - 1];
      VictimsFrom(pools, rest, now, maxAge, id);
      assert order == rest + [last];
      assert last in order && forall k :: k in rest ==> k in order;
    }
  }

  /** ...each once, when no pod is in two queues. */
  lemma {:induction false} VictimsDistinct(pools: Pools, order: seq<Key>, now: int, maxAge: int)
    requires forall k :: k in order ==> DistinctPods(Queue(pools, k))
    requires forall i, j :: 0 <= i < j < |order| ==> order[i] != order[j]
    requires forall i, j :: 0 <= i < j < |order| ==> Ids(Queue(pools, order[i])) !! Ids(Queue(pools, order[j]))
    ensures DistinctIds(Victims(pools, order, now, maxAge))
    decreases |order|
  {
    if order != [] {
      var rest, last := order[..|order| - 1], order[|order| - 1];
      VictimsDistinct(pools, rest, now, maxAge);
      SweepSplits(Queue(pools, last), now, maxAge);
      forall id | id in Victims(pools, rest, now, maxAge)
        ensures id !in Dropped(Queue(pools, last), now, maxAge)
      {
        VictimsFrom(pools, rest, now, maxAge, id);
        var k :| k in rest && id in DroppedFrom(pools, k, now, maxAge);
        SweepSplits(Queue(pools, k), now, maxAge);
        var i :| 0 <= i < |rest| && rest[i] == k;
        assert Ids(Queue(pools, order[i])) !! Ids(Queue(pools, order[|order| - 1]));
      }
      DistinctAppend(Victims(pools, rest, now, maxAge), Dropped(Queue(pools, last), now, maxAge));
    }
  }

  // ----- how a step relocates pods

  lemma Relocate(s: State, t: State, loc: map<PodId, Place>, id: PodId, p: Place, q: Place)
    requires Located(s, loc) && p != q && At(s, id, p)
    requires Members(t, p) == Members(s, p) - {id}
    requires Members(t, q) == Members(s, q) + {id}
    requires forall r :: r != p && r != q ==> Members(t, r) == Members(s, r)
    ensures Located(t, loc[id := q])
  {
    var loc' := loc[id := q];
    forall r, x ensures At(t, x, r) <==> x in loc' && loc'[x] == r {
      assert At(s, x, r) <==> x in loc && loc[x] == r;
      assert At(s, id, r) <==> id in loc && loc[id] == r;
    }
  }

  lemma Introduce(s: State, t: State, loc: map<PodId, Place>, id: PodId, q: Place)
    requires Located(s, loc) && id !in loc
    requires Members(t, q) == Members(s, q) + {id}
    requires forall r :: r != q ==> Members(t, r) == Members(s, r)
    ensures Located(t, loc[id := q])
  {
    var loc' := loc[id := q];
    forall r, x ensures At(t, x, r) <==> x in loc' && loc'[x] == r {
      assert At(s, x, r) <==> x in loc && loc[x] == r;
      assert !At(s, id, r);
    }
  }

  /** Calls come, go and turn, but no pod changes hands. */
  ghost predicate NothingMoved(s: State, t: State) {
    && t.pools == s.pools && t.forked == s.forked && t.handed == s.handed && t.picked == s.picked
    && |t.calls| >= |s.calls|
    && (forall c :: 0 <= c < |t.calls| ==>
          if c < |s.calls| && Holds(s.calls[c]) != {} then t.calls[c] == s.calls[c] else Holds(t.calls[c]) == {})
  }

  lemma NothingMoves(s: State, t: State, loc: map<PodId, Place>)
    requires Inv(s, loc) && NothingMoved(s, t)
    ensures Inv(t, loc)
  {
    forall p, id ensures At(t, id, p) == At(s, id, p) && KeyOf(t, p) == KeyOf(s, p) {
      assert Members(t, p) == Members(s, p);
    }
  }

  lemma PopMoves(cfg: Config, s: State, key: Key, session: string, t: State, loc: map<PodId, Place>)
    returns (loc': map<PodId, Place>)
    requires Inv(s, loc) && Queue(s.pools, key) != []
    requires Step(cfg, s, BeginAcquire(key, session)) == Some(t)
    ensures Inv(t, loc')
  {
    var q := s.pools[key];
    IdsOfTail(q);
    var n := |s.calls|;
    forall r | r != InPool(key) && r != InCall(n) ensures Members(t, r) == Members(s, r) {}
    Relocate(s, t, loc, q[0].podId, InPool(key), InCall(n));
    loc' := loc[q[0].podId := InCall(n)];
    assert At(s, q[0].podId, InPool(key));
    forall p, id | At(t, id, p) && KeyOf(t, p).Some?
      ensures id in t.forked && t.forked[id] == KeyOf(t, p).value
    {
      if p != InCall(n) { assert At(s, id, p) && KeyOf(s, p) == KeyOf(t, p); }
    }
  }

  /** A fresh pod appears in the hands of call `c`. */
  lemma ForkMoves(s: State, t: State, loc: map<PodId, Place>, c: nat, call: Call, id: PodId)
    returns (loc': map<PodId, Place>)
    requires Inv(s, loc) && c < |s.calls| && Holds(s.calls[c]) == {} && id !in s.forked
    requires Holds(call) == {id}
    requires t == Move(s, c, call).(forked := s.forked[id := call.key])
    ensures Inv(t, loc')
  {
    forall r | r != InCall(c) ensures Members(t, r) == Members(s, r) {}
    Introduce(s, t, loc, id, InCall(c));
    loc' := loc[id := InCall(c)];
    forall p, x | At(t, x, p) && KeyOf(t, p).Some?
      ensures x in t.forked && t.forked[x] == KeyOf(t, p).value
    {
      if p != InCall(c) { assert At(s, x, p) && KeyOf(s, p) == KeyOf(t, p); }
    }
  }

  lemma PromoteMoves(s: State, t: State, loc: map<PodId, Place>, c: nat, ok: bool)
    returns (loc': map<PodId, Place>)
    requires Inv(s, loc) && c < |s.calls| && s.calls[c].Promoting?
    requires t == Move(s, c, Finished)
                  .(handed := s.handed + [Handover(s.calls[c].podId, s.calls[c].session, ok)])
    ensures Inv(t, loc')
  {
    var id := s.calls[c].podId;
    assert At(s, id, InCall(c)) && !At(s, id, HandedOver);
    assert t.handed[|s.handed|].podId == id;
    assert forall h :: h in t.handed <==> h in s.handed || h == t.handed[|s.handed|];
    assert Members(t, HandedOver) == Members(s, HandedOver) + {id};
    forall r | r != InCall(c) && r != HandedOver ensures Members(t, r) == Members(s, r) {}
    Relocate(s, t, loc, id, InCall(c), HandedOver);
    loc' := loc[id := HandedOver];
    assert forall i :: 0 <= i < |s.handed| ==> s.handed[i].podId in Members(s, HandedOver);
    forall p, x | At(t, x, p) && KeyOf(t, p).Some?
      ensures x in t.forked && t.forked[x] == KeyOf(t, p).value
    {
      assert At(s, x, p) && KeyOf(s, p) == KeyOf(t, p);
    }
  }

  lemma AddMoves(s: State, t: State, loc: map<PodId, Place>, c: nat)
    returns (loc': map<PodId, Place>)
    requires Inv(s, loc) && c < |s.calls| && s.calls[c].Refilled?
    requires var call := s.calls[c];
      t == Move(s, c, Refilling(call.key, call.current, call.forked + 1, call.target))
           .(pools := s.pools[call.key := Queue(s.pools, call.key) + [Pooled(call.podId, s.clock)]])
    ensures Inv(t, loc')
  {
    var id, key := s.calls[c].podId, s.calls[c].key;
    assert At(s, id, InCall(c)) && !At(s, id, InPool(key));
    IdsOfPush(Queue(s.pools, key), Pooled(id, s.clock));
    forall r | r != InCall(c) && r != InPool(key) ensures Members(t, r) == Members(s, r) {}
    Relocate(s, t, loc, id, InCall(c), InPool(key));
    loc' := loc[id := InPool(key)];
    assert KeyOf(s, InCall(c)) == Some(key);
    forall p, x | At(t, x, p) && KeyOf(t, p).Some?
      ensures x in t.forked && t.forked[x] == KeyOf(t, p).value
    {
      if x != id { assert At(s, x, p) && KeyOf(s, p) == KeyOf(t, p); }
    }
  }

  lemma SweepVictims(s: State, loc: map<PodId, Place>, order: seq<Key>, now: int, age: int)
    requires Inv(s, loc) && Enumerates(order, s.pools.Keys)
    ensures DistinctIds(s.picked + Victims(s.pools, order, now, age))
    ensures forall id :: id in Victims(s.pools, order, now, age)
                    <==> exists k :: k in order && id in DroppedFrom(s.pools, k, now, age)
  {
    var victims := Victims(s.pools, order, now, age);
    forall i, j | 0 <= i < j < |order|
      ensures Ids(Queue(s.pools, order[i])) !! Ids(Queue(s.pools, order[j]))
    {
      forall id | id in Ids(Queue(s.pools, order[i])) ensures id !in Ids(Queue(s.pools, order[j])) {
        assert At(s, id, InPool(order[i]));
        assert At(s, id, InPool(order[j])) <==> id in Ids(Queue(s.pools, order[j]));
      }
    }
    VictimsDistinct(s.pools, order, now, age);
    forall id ensures id in victims <==> exists k :: k in order && id in DroppedFrom(s.pools, k, now, age) {
      VictimsFrom(s.pools, order, now, age, id);
    }
    forall id | id in s.picked ensures id !in victims {
      assert At(s, id, PickedForDestruction);
      if id in victims {
        var k :| k in order && id in DroppedFrom(s.pools, k, now, age);
        SweepSplits(Queue(s.pools, k), now, age);
        assert At(s, id, InPool(k));
      }
    }
    DistinctAppend(s.picked, victims);
  }

  lemma SweepPerKey(s: State, t: State, now: int, age: int, k: Key)
    requires t.pools == Swept(s.pools, now, age)
    requires k in s.pools ==> DistinctPods(s.pools[k])
    ensures DistinctPods(Queue(t.pools, k))
    ensures DroppedFrom(s.pools, k, now, age) <= Members(s, InPool(k))
    ensures Members(t, InPool(k)) == Members(s, InPool(k)) - DroppedFrom(s.pools, k, now, age)
  {
    SweepSplits(Queue(s.pools, k), now, age);
  }

  /** Pods that stay or shrink away in their places stay under their keys. */
  lemma UnderOwnKeyKept(s: State, t: State)
    requires UnderOwnKey(s) && t.forked == s.forked
    requires forall p, x :: At(t, x, p) && KeyOf(t, p).Some? ==> At(s, x, p) && KeyOf(s, p) == KeyOf(t, p)
    ensures UnderOwnKey(t)
  {}

  lemma SweepMoves(cfg: Config, s: State, t: State, loc: map<PodId, Place>, c: nat, order: seq<Key>)
    returns (loc': map<PodId, Place>)
    requires Inv(s, loc) && Step(cfg, s, SweepPools(c, order)) == Some(t)
    ensures Inv(t, loc')
  {
    var now, age := s.calls[c].now, cfg.idleMaxAge;
    var victims := Victims(s.pools, order, now, age);
    SweepVictims(s, loc, order, now, age);
    loc' := map id | id in loc :: if id in victims then PickedForDestruction else loc[id];
    SweepRelocates(s, t, loc, loc', victims, order, now, age);
    forall k | k in t.pools ensures DistinctPods(t.pools[k]) { SweepPerKey(s, t, now, age, k); }
    forall p, x | At(t, x, p) && KeyOf(t, p).Some? ensures At(s, x, p) && KeyOf(s, p) == KeyOf(t, p) {
      if p.InPool? { SweepPerKey(s, t, now, age, p.pool); }
    }
    UnderOwnKeyKept(s, t);
  }

  lemma SweepRelocates(s: State, t: State, loc: map<PodId, Place>, loc': map<PodId, Place>,
                       victims: seq<PodId>, order: seq<Key>, now: int, age: int)
    requires Located(s, loc) && loc'.Keys == loc.Keys
    requires forall id :: id in loc ==> loc'[id] == if id in victims then PickedForDestruction else loc[id]
    requires Enumerates(order, s.pools.Keys)
    requires t.picked == s.picked + victims && t.handed == s.handed && |t.calls| == |s.calls|
    requires forall i :: 0 <= i < |s.calls| ==> Holds(t.calls[i]) == Holds(s.calls[i])
    requires forall id :: id in victims <==> exists k :: k in order && id in DroppedFrom(s.pools, k, now, age)
    requires t.pools == Swept(s.pools, now, age) && NoRepeats(s)
    ensures Located(t, loc')
  {
    forall id | id in victims ensures id in loc && loc[id].InPool? {
      VictimIsPooled(s, loc, order, now, age, id);
    }
    forall p, id ensures At(t, id, p) <==> id in loc' && loc'[id] == p {
      assert At(s, id, p) <==> id in loc && loc[id] == p;
      match p
      case InPool(k) => SweptPool(s, t, loc, victims, order, now, age, k, id);
      case InCall(i) => assert Members(t, p) == Members(s, p);
      case HandedOver => assert Members(t, p) == Members(s, p);
      case PickedForDestruction => assert id in s.picked + victims <==> id in s.picked || id in victims;
    }
  }

  lemma VictimIsPooled(s: State, loc: map<PodId, Place>, order: seq<Key>, now: int, age: int, id: PodId)
    requires Located(s, loc) && NoRepeats(s)
    requires exists k :: k in order && id in DroppedFrom(s.pools, k, now, age)
    ensures id in loc && loc[id].InPool? && id in DroppedFrom(s.pools, loc[id].pool, now, age)
  {
    var k :| k in order && id in DroppedFrom(s.pools, k, now, age);
    SweepSplits(Queue(s.pools, k), now, age);
    assert At(s, id, InPool(k));
  }

  /** What a sweep leaves in a pool is what was there and is no victim. */
  lemma SweptPool(s: State, t: State, loc: map<PodId, Place>, victims: seq<PodId>, order: seq<Key>,
                  now: int, age: int, k: Key, id: PodId)
    requires Located(s, loc) && NoRepeats(s) && Enumerates(order, s.pools.Keys) && t.pools == Swept(s.pools, now, age)
    requires forall x :: x in victims <==> exists j :: j in order && x in DroppedFrom(s.pools, j, now, age)
    ensures At(t, id, InPool(k)) <==> At(s, id, InPool(k)) && id !in victims
  {
    SweepPerKey(s, t, now, age, k);
    if At(s, id, InPool(k)) {
      assert k in order;
      if id in victims { VictimIsPooled(s, loc, order, now, age, id); }
    }
  }

  // ----- runs

  lemma OnePlaceStep(cfg: Config, s: State, e: Event, t: State, loc: map<PodId, Place>)
    returns (loc': map<PodId, Place>)
    requires Inv(s, loc) && Step(cfg, s, e) == Some(t)
    ensures Inv(t, loc')
  {
    match e
    case BeginAcquire(key, session) =>
      if Queue(s.pools, key) == [] {
        NothingMoves(s, t, loc);
        loc' := loc;
      } else {
        loc' := PopMoves(cfg, s, key, session, t, loc);
      }
    case ColdFork(c, id) => loc' := ForkMoves(s, t, loc, c, t.calls[c], id);
    case RefillFork(c, id) => loc' := ForkMoves(s, t, loc, c, t.calls[c], id);
    case Promote(c, ok) => loc' := PromoteMoves(s, t, loc, c, ok);
    case RefillAdd(c) => loc' := AddMoves(s, t, loc, c);
    case SweepPools(c, order) => loc' := SweepMoves(cfg, s, t, loc, c, order);
    case _ =>
      AllStays(cfg, s, e, t);
      NothingMoves(s, t, loc);
      loc' := loc;
  }

  lemma AllStays(cfg: Config, s: State, e: Event, t: State)
    requires Step(cfg, s, e) == Some(t)
    requires e.BeginReplenish? || e.BeginScaleDown? || e.Destroy? || e.ForkFails? || e.Return? || e.SetClock?
    ensures NothingMoved(s, t)
  {}

  /** In every state of every run, each forked pod is in exactly one place. */
  lemma {:induction false} OnePlace(cfg: Config, ss: seq<State>, es: seq<Event>)
    requires Run(cfg, ss, es)
    ensures forall i :: 0 <= i < |ss| ==> OnePlaceEach(ss[i])
  {
    var n, loc: map<PodId, Place> := 0, map[];
    assert Inv(ss[0], loc) by {
      assert forall p, id :: !At(Initial, id, p);
    }
    InvIsOnePlaceEach(ss[0], loc);
    while n < |es|
      invariant 0 <= n <= |es| && Inv(ss[n], loc)
      invariant forall i :: 0 <= i <= n ==> OnePlaceEach(ss[i])
    {
      assert Linked(cfg, ss, es, n);
      loc := OnePlaceStep(cfg, ss[n], es[n], ss[n + 1], loc);
      n := n + 1;
      InvIsOnePlaceEach(ss[n], loc);
    }
  }

  // ----- order under a forward clock

  ghost predicate Sorted(q: seq<Pooled>) {
    forall i, j :: 0 <= i < j < |q| ==> q[i].forkedAt <= q[j].forkedAt
  }

  ghost predicate Ordered(s: State) {
    forall k :: k in s.pools ==>
      Sorted(s.pools[k]) && forall e :: e in s.pools[k] ==> e.forkedAt <= s.clock
  }

  lemma {:induction false} KeptOrdered(q: seq<Pooled>, now: int, maxAge: int)
    requires Sorted(q)
    ensures Sorted(Kept(q, now, maxAge))
    decreases |q|
  {
    if q != [] {
      var rest, last := q[..|q| - 1], q[|q| - 1];
      KeptOrdered(rest, now, maxAge);
      forall e | e in Kept(rest, now, maxAge) ensures e.forkedAt <= last.forkedAt {
        KeptAre(rest, now, maxAge, e);
      }
    }
  }

  lemma OrderStep(cfg: Config, s: State, e: Event, t: State)
    requires Ordered(s) && Step(cfg, s, e) == Some(t) && s.clock <= t.clock
    ensures Ordered(t)
  {
    match e
    case SweepPools(c, order) =>
      forall k | k in t.pools
        ensures Sorted(t.pools[k]) && forall x :: x in t.pools[k] ==> x.forkedAt <= t.clock
      {
        KeptOrdered(s.pools[k], s.calls[c].now, cfg.idleMaxAge);
        forall x | x in t.pools[k] ensures x.forkedAt <= t.clock {
          KeptAre(s.pools[k], s.calls[c].now, cfg.idleMaxAge, x);
        }
      }
    case _ => OrderKept(cfg, s, e, t);
  }

  lemma OrderKept(cfg: Config, s: State, e: Event, t: State)
    requires Ordered(s) && Step(cfg, s, e) == Some(t) && s.clock <= t.clock && !e.SweepPools?
    ensures Ordered(t)
  {
    assert forall k, i :: k in s.pools && 0 <= i < |s.pools[k]| ==> s.pools[k][i] in s.pools[k];
  }

  lemma {:induction false} QueuesOrdered(cfg: Config, ss: seq<State>, es: seq<Event>)
    requires Run(cfg, ss, es)
    requires forall i :: 0 <= i < |es| ==> ss[i].clock <= ss[i + 1].clock
    ensures forall i :: 0 <= i < |ss| ==> Ordered(ss[i])
  {
    var n := 0;
    while n < |es|
      invariant 0 <= n <= |es|
      invariant forall i :: 0 <= i <= n ==> Ordered(ss[i])
    {
      assert Linked(cfg, ss, es, n);
      OrderStep(cfg, ss[n], es[n], ss[n + 1]);
      n := n + 1;
    }
  }

  lemma HeadIsOldest(q: seq<Pooled>)
    requires Sorted(q) && q != []
    ensures q[0] in q && forall e :: e in q ==> q[0].forkedAt <= e.forkedAt
    ensures multiset(q[1..]) == multiset(q) - multiset{q[0]}
  {
    assert q == [q[0]] + q[1..];
  }

  /** Acquire hands out the oldest pod of its key: of all entries, none was forked earlier. */
  lemma AcquireTakesOldest(cfg: Config, s: State, key: Key, session: string, t: State)
    requires Ordered(s) && Queue(s.pools, key) != []
    requires Step(cfg, s, BeginAcquire(key, session)) == Some(t)
    ensures exists oldest ::
      && oldest in s.pools[key]
      && t.calls == s.calls + [Promoting(key, session, oldest.podId)]
      && (forall e :: e in s.pools[key] ==> oldest.forkedAt <= e.forkedAt)
      && multiset(t.pools[key]) == multiset(s.pools[key]) - multiset{oldest}
  {
    HeadIsOldest(s.pools[key]);
    assert t.pools[key] == s.pools[key][1..];
  }

  function StaleCount(q: seq<Pooled>, now: int, maxAge: int): nat {
    if q == [] then 0
    else StaleCount(q[..|q| - 1], now, maxAge) + if Stale(q[|q| - 1], now, maxAge) then 1 else 0
  }

  /** On a sorted queue a sweep removes a prefix: the kept entries are the tail after the stale ones. */
  lemma {:induction false} SweepRemovesPrefix(q: seq<Pooled>, now: int, maxAge: int)
    requires Sorted(q)
    ensures StaleCount(q, now, maxAge) <= |q|
    ensures Kept(q, now, maxAge) == q[StaleCount(q, now, maxAge)..]
    ensures |Dropped(q, now, maxAge)| == StaleCount(q, now, maxAge)
    ensures forall i :: 0 <= i < StaleCount(q, now, maxAge) ==> Dropped(q, now, maxAge)[i] == q[i].podId
    decreases |q|
  {
    if q != [] {
      var rest, last := q[..|q| - 1], q[|q| - 1];
      SweepRemovesPrefix(rest, now, maxAge);
      var n := StaleCount(rest, now, maxAge);
      if Stale(last, now, maxAge) {
        if n < |rest| {
          assert rest[n..][0] == rest[n];
          KeptAre(rest, now, maxAge, rest[n]);
        }
      } else {
        assert q[n..] == rest[n..] + [last];
      }
    }
  }
}
