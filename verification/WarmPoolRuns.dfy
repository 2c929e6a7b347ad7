/** Every interleaving of Acquire, Replenish and ScaleDown calls. A step is one critical section
    of WarmPool.Pool, or one fork, promote or destroy made with the lock released; any number of
    calls may be between two of their steps. */
module WarmPoolRuns {
  import opened Wrappers
  import opened Enumeration
  import opened WarmPool

  datatype Config = Config(maxPerKey: int, idleMaxAge: int)

  /** Where an in-flight call stands. */
  datatype Call =
    | Finished
    | Forking(key: Key, session: string)                       // Acquire found the queue empty
    | Promoting(key: Key, session: string, podId: PodId)       // Acquire owns a pod, warm or cold
    | Refilling(key: Key, current: nat, forked: nat, target: int)
    | Refilled(key: Key, current: nat, forked: nat, target: int, podId: PodId) // forked, not yet pooled
    | Armed(now: int)                                          // ScaleDown read the clock
    | Destroying(ids: seq<PodId>)                              // ScaleDown released the lock

  datatype Handover = Handover(podId: PodId, session: string, promoted: bool)

  /** `forked` maps every id the forker ever returned to the key it was forked for; `handed` and
      `picked` are the histories of pods returned by Acquire and reported by ScaleDown. */
  datatype State = State(
    pools: Pools, calls: seq<Call>, forked: map<PodId, Key>,
    handed: seq<Handover>, picked: seq<PodId>, clock: int)

  datatype Event =
    | BeginAcquire(key: Key, session: string)
    | ColdFork(c: nat, podId: PodId)
    | Promote(c: nat, ok: bool)
    | BeginReplenish(key: Key, target: int)
    | RefillFork(c: nat, podId: PodId)
    | RefillAdd(c: nat)
    | BeginScaleDown
    | SweepPools(c: nat, order: seq<Key>)
    | Destroy(c: nat, ok: bool)
    | ForkFails(c: nat)
    | Return(c: nat)
    | SetClock(t: int)

  const Initial := State(map[], [], map[], [], [], 0)

  ghost function Move(s: State, c: nat, call: Call): State
    requires c < |s.calls|
  {
    s.(calls := s.calls[c := call])
  }

  predicate InLoop(call: Call) {
    call.Refilling? && call.current + call.forked < call.target
  }

  /** One step, or None when the event is not enabled. Fork ids are fresh. */
  ghost function Step(cfg: Config, s: State, e: Event): Option<State> {
    match e
    case BeginAcquire(key, session) =>
      var q := Queue(s.pools, key);
      Some(if q == [] then s.(calls := s.calls + [Forking(key, session)])
           else s.(pools := s.pools[key := q[1..]],
                   calls := s.calls + [Promoting(key, session, q[0].podId)]))
    case ColdFork(c, id) =>
      if c < |s.calls| && s.calls[c].Forking? && id !in s.forked then
        var call := s.calls[c];
        Some(Move(s, c, Promoting(call.key, call.session, id)).(forked := s.forked[id := call.key]))
      else None
    case Promote(c, ok) =>
      if c < |s.calls| && s.calls[c].Promoting? then
        var call := s.calls[c];
        Some(Move(s, c, Finished).(handed := s.handed + [Handover(call.podId, call.session, ok)]))
      else None
    case BeginReplenish(key, target) =>
      var call := Refilling(key, |Queue(s.pools, key)|, 0, Capped(target, cfg.maxPerKey));
      Some(s.(calls := s.calls + [call]))
    case RefillFork(c, id) =>
      if c < |s.calls| && InLoop(s.calls[c]) && id !in s.forked then
        var call := s.calls[c];
        Some(Move(s, c, Refilled(call.key, call.current, call.forked, call.target, id))
             .(forked := s.forked[id := call.key]))
      else None
    case RefillAdd(c) =>
      if c < |s.calls| && s.calls[c].Refilled? then
        var call := s.calls[c];
        var q := Queue(s.pools, call.key) + [Pooled(call.podId, s.clock)];
        Some(Move(s, c, Refilling(call.key, call.current, call.forked + 1, call.target))
             .(pools := s.pools[call.key := q]))
      else None
    case BeginScaleDown =>
      Some(s.(calls := s.calls + [Armed(s.clock)]))
    case SweepPools(c, order) =>
      if c < |s.calls| && s.calls[c].Armed? && Enumerates(order, s.pools.Keys) then
        var victims := Victims(s.pools, order, s.calls[c].now, cfg.idleMaxAge);
        Some(Move(s, c, Destroying(victims))
             .(pools := Swept(s.pools, s.calls[c].now, cfg.idleMaxAge), picked := s.picked + victims))
      else None
    case Destroy(c, ok) =>
      if c < |s.calls| && s.calls[c].Destroying? && s.calls[c].ids != [] then
        Some(Move(s, c, if ok then Destroying(s.calls[c].ids[1..]) else Finished))
      else None
    case ForkFails(c) =>
      if c < |s.calls| && (s.calls[c].Forking? || InLoop(s.calls[c])) then Some(Move(s, c, Finished))
      else None
    case Return(c) =>
      if c < |s.calls| && ((s.calls[c].Refilling? && !InLoop(s.calls[c])) || s.calls[c] == Destroying([]))
      then Some(Move(s, c, Finished))
      else None
    case SetClock(t) => Some(s.(clock := t))
  }

  /** A run: states joined by steps, from an empty pool with no call in flight. */
  ghost predicate Run(cfg: Config, ss: seq<State>, es: seq<Event>) {
    |ss| == |es| + 1 && ss[0] == Initial && forall i :: 0 <= i < |es| ==> Linked(cfg, ss, es, i)
  }

  ghost predicate Linked(cfg: Config, ss: seq<State>, es: seq<Event>, i: nat)
    requires i < |es| < |ss|
  {
    Step(cfg, ss[i], es[i]) == Some(ss[i + 1])
  }

  // ---------------------------------------------------------------------------------------------
  // Capacity

  predicate IsRefillOf(call: Call, key: Key) {
    (call.Refilling? || call.Refilled?) && call.key == key
  }

  function InFlight(calls: seq<Call>, key: Key): nat {
    if calls == [] then 0
    else InFlight(calls[..|calls| - 1], key) + if IsRefillOf(calls[|calls| - 1], key) then 1 else 0
  }

  /** How many pods a call may still add to the queue of `key`. */
  function Plan(call: Call, key: Key): nat {
    if IsRefillOf(call, key) && call.current + call.forked < call.target
    then call.target - call.current - call.forked else 0
  }

  function Plans(calls: seq<Call>, key: Key): nat {
    if calls == [] then 0 else Plans(calls[..|calls| - 1], key) + Plan(calls[|calls| - 1], key)
  }

  function Cap(cfg: Config): nat {
    if cfg.maxPerKey < 0 then 0 else cfg.maxPerKey
  }

  ghost predicate CapInv(cfg: Config, s: State, key: Key, c: nat) {
    && (forall i :: 0 <= i < |s.calls| ==> Plan(s.calls[i], key) <= Cap(cfg))
    && (forall i :: 0 <= i < |s.calls| && s.calls[i].Refilled? ==>
          s.calls[i].current + s.calls[i].forked < s.calls[i].target)
    && |Queue(s.pools, key)| + Plans(s.calls, key) <= c * Cap(cfg)
  }

  lemma {:induction false} TalliesPush(calls: seq<Call>, call: Call, key: Key)
    ensures Plans(calls + [call], key) == Plans(calls, key) + Plan(call, key)
    ensures InFlight(calls + [call], key) == InFlight(calls, key) + if IsRefillOf(call, key) then 1 else 0
  {
    assert (calls + [call])[..|calls|] == calls;
  }

  lemma {:induction false} PlansSet(calls: seq<Call>, c: nat, call: Call, key: Key)
    requires c < |calls|
    ensures Plans(calls[c := call], key) == Plans(calls, key) - Plan(calls[c], key) + Plan(call, key)
    decreases |calls|
  {
    var n := |calls| - 1;
    if c < n {
      PlansSet(calls[..n], c, call, key);
      assert calls[c := call][..n] == calls[..n][c := call];
    } else {
      assert calls[c := call][..n] == calls[..n];
    }
  }

  lemma {:induction false} PlansBound(calls: seq<Call>, key: Key, cap: nat)
    requires forall i :: 0 <= i < |calls| ==> Plan(calls[i], key) <= cap
    ensures Plans(calls, key) <= InFlight(calls, key) * cap
    decreases |calls|
  {
    if calls != [] {
      var rest := calls[..|calls| - 1];
      PlansBound(rest, key, cap);
      assert Plan(calls[|calls| - 1], key) <= if IsRefillOf(calls[|calls| - 1], key) then cap else 0;
      assert (InFlight(rest, key) + 1) * cap == InFlight(rest, key) * cap + cap;
    }
  }

  lemma KeptShrinks(q: seq<Pooled>, now: int, maxAge: int)
    ensures |Kept(q, now, maxAge)| <= |q|
  {}

  /** The heart of the capacity bound: pooled pods plus what in-flight refills may still add. */
  lemma CapStep(cfg: Config, s: State, e: Event, t: State, key: Key, c: nat)
    requires CapInv(cfg, s, key, c) && Step(cfg, s, e) == Some(t)
    requires InFlight(t.calls, key) <= c
    ensures CapInv(cfg, t, key, c)
  {
    match e
    case BeginReplenish(k, target) => CapBegin(cfg, s, k, target, t, key, c);
    case BeginAcquire(_, _) => CapArrive(cfg, s, e, t, key, c);
    case BeginScaleDown => CapArrive(cfg, s, e, t, key, c);
    case SetClock(_) =>
    case SweepPools(i, _) => CapSweep(cfg, s, e, t, key, c);
    case _ => CapMove(cfg, s, e, t, key, c);
  }

  /** A call that plans nothing arrives, and the queue does not grow. */
  lemma CapArrives(cfg: Config, s: State, call: Call, t: State, key: Key, c: nat)
    requires CapInv(cfg, s, key, c) && t.calls == s.calls + [call]
    requires !IsRefillOf(call, key) && !call.Refilled? && |Queue(t.pools, key)| <= |Queue(s.pools, key)|
    ensures CapInv(cfg, t, key, c)
  {
    TalliesPush(s.calls, call, key);
    assert forall i :: 0 <= i < |s.calls| ==> t.calls[i] == s.calls[i];
  }

  lemma CapArrive(cfg: Config, s: State, e: Event, t: State, key: Key, c: nat)
    requires CapInv(cfg, s, key, c) && Step(cfg, s, e) == Some(t)
    requires e.BeginAcquire? || e.BeginScaleDown?
    ensures CapInv(cfg, t, key, c)
  {
    var call := t.calls[|s.calls|];
    assert t.calls == s.calls + [call] && !call.Refilling? && !call.Refilled?;
    CapArrives(cfg, s, call, t, key, c);
  }

  lemma CapSweep(cfg: Config, s: State, e: Event, t: State, key: Key, c: nat)
    requires CapInv(cfg, s, key, c) && Step(cfg, s, e) == Some(t) && e.SweepPools?
    ensures CapInv(cfg, t, key, c)
  {
    PlansSet(s.calls, e.c, t.calls[e.c], key);
    KeptShrinks(Queue(s.pools, key), s.calls[e.c].now, cfg.idleMaxAge);
    assert Queue(t.pools, key) == Kept(Queue(s.pools, key), s.calls[e.c].now, cfg.idleMaxAge);
  }

  /** A call moves on: what it adds to the queue leaves its plan. */
  lemma CapMoves(cfg: Config, s: State, i: nat, call: Call, t: State, key: Key, c: nat)
    requires CapInv(cfg, s, key, c) && i < |s.calls| && t.calls == s.calls[i := call]
    requires Plan(call, key) <= Plan(s.calls[i], key)
    requires call.Refilled? ==> call.current + call.forked < call.target
    requires |Queue(t.pools, key)| + Plan(call, key) <= |Queue(s.pools, key)| + Plan(s.calls[i], key)
    ensures CapInv(cfg, t, key, c)
  {
    PlansSet(s.calls, i, call, key);
    assert forall j :: 0 <= j < |t.calls| && j != i ==> t.calls[j] == s.calls[j];
  }

  lemma CapMove(cfg: Config, s: State, e: Event, t: State, key: Key, c: nat)
    requires CapInv(cfg, s, key, c) && Step(cfg, s, e) == Some(t)
    requires e.ColdFork? || e.Promote? || e.RefillFork? || e.RefillAdd? || e.Destroy? || e.ForkFails? || e.Return?
    ensures CapInv(cfg, t, key, c)
  {
    MoveShape(cfg, s, e, t, key);
    if e.RefillAdd? {
      assert s.calls[e.c].current + s.calls[e.c].forked < s.calls[e.c].target;
    }
    CapMoves(cfg, s, e.c, t.calls[e.c], t, key, c);
  }

  lemma MoveShape(cfg: Config, s: State, e: Event, t: State, key: Key)
    requires Step(cfg, s, e) == Some(t)
    requires e.ColdFork? || e.Promote? || e.RefillFork? || e.RefillAdd? || e.Destroy? || e.ForkFails? || e.Return?
    ensures e.c < |s.calls| && |t.calls| == |s.calls| && t.calls == s.calls[e.c := t.calls[e.c]]
    ensures t.calls[e.c].Refilled? ==> t.calls[e.c].current + t.calls[e.c].forked < t.calls[e.c].target
    ensures Plan(t.calls[e.c], key) <= Plan(s.calls[e.c], key)
    ensures !e.RefillAdd? ==> t.pools == s.pools
    ensures e.RefillAdd? ==> s.calls[e.c].Refilled?
    ensures e.RefillAdd? && s.calls[e.c].current + s.calls[e.c].forked < s.calls[e.c].target ==>
      |Queue(t.pools, key)| + Plan(t.calls[e.c], key) <= |Queue(s.pools, key)| + Plan(s.calls[e.c], key)
  {}

  /** A new refill sees the queue as it is: if it plans anything, queue and plan fit one cap. */
  lemma CapBegin(cfg: Config, s: State, k: Key, target: int, t: State, key: Key, c: nat)
    requires CapInv(cfg, s, key, c) && Step(cfg, s, BeginReplenish(k, target)) == Some(t)
    requires InFlight(t.calls, key) <= c
    ensures CapInv(cfg, t, key, c)
  {
    var call := t.calls[|s.calls|];
    TalliesPush(s.calls, call, key);
    if Plan(call, key) > 0 {
      PlansBound(s.calls, key, Cap(cfg));
      OneMoreFits(InFlight(s.calls, key), c, Cap(cfg), Plans(s.calls, key), |Queue(s.pools, key)| + Plan(call, key));
    }
  }

  lemma OneMoreFits(n: nat, c: nat, cap: nat, others: nat, own: nat)
    requires n + 1 <= c && others <= n * cap && own <= cap
    ensures others + own <= c * cap
  {
    MulMono(n + 1, c, cap);
    assert (n + 1) * cap == n * cap + cap;
  }

  lemma MulMono(a: nat, b: nat, cap: nat)
    requires a <= b
    ensures a * cap <= b * cap
  {}

  /** While at most `c` refills of `key` are in flight, its queue never exceeds `c` caps. */
  lemma {:induction false} CapacityBound(cfg: Config, ss: seq<State>, es: seq<Event>, key: Key, c: nat)
    requires Run(cfg, ss, es)
    requires forall i :: 0 <= i < |ss| ==> InFlight(ss[i].calls, key) <= c
    ensures forall i :: 0 <= i < |ss| ==> |Queue(ss[i].pools, key)| <= c * Cap(cfg)
  {
    var n := 0;
    MulMono(0, c, Cap(cfg));
    while n < |es|
      invariant 0 <= n <= |es|
      invariant forall i :: 0 <= i <= n ==> CapInv(cfg, ss[i], key, c)
    {
      assert Linked(cfg, ss, es, n);
      CapStep(cfg, ss[n], es[n], ss[n + 1], key, c);
      n := n + 1;
    }
  }

  // The bound is reached: refills that all read the queue before any of them adds to it.

  lemma RunGrows(cfg: Config, ss: seq<State>, es: seq<Event>, e: Event, t: State)
    requires Run(cfg, ss, es) && Step(cfg, ss[|es|], e) == Some(t)
    ensures Run(cfg, ss + [t], es + [e])
  {
    var us, fs := ss + [t], es + [e];
    forall i | 0 <= i < |fs| ensures Linked(cfg, us, fs, i) {
      assert us[i] == ss[i];
      if i < |es| { assert fs[i] == es[i] && us[i + 1] == ss[i + 1] && Linked(cfg, ss, es, i); }
    }
  }

  lemma RunGrowsTwice(cfg: Config, ss: seq<State>, es: seq<Event>, e: Event, m: State, f: Event, t: State)
    requires Run(cfg, ss, es) && Step(cfg, ss[|es|], e) == Some(m) && Step(cfg, m, f) == Some(t)
    ensures Run(cfg, ss + [m] + [t], es + [e] + [f])
  {
    RunGrows(cfg, ss, es, e, m);
    assert (ss + [m])[|es + [e]|] == m;
    RunGrows(cfg, ss + [m], es + [e], f, t);
  }

  lemma {:induction false} InFlightAtMost(calls: seq<Call>, key: Key)
    ensures InFlight(calls, key) <= |calls|
    decreases |calls|
  {
    if calls != [] { InFlightAtMost(calls[..|calls| - 1], key); }
  }

  /** `c` refills of an empty queue, none of which has forked yet. */
  lemma StartAll(cfg: Config, key: Key, c: nat) returns (ss: seq<State>, es: seq<Event>)
    requires cfg.maxPerKey >= 0
    ensures Run(cfg, ss, es)
    ensures forall i :: 0 <= i < |ss| ==> |ss[i].calls| <= c
    ensures ss[|es|] == Initial.(calls := seq(c, _ => Refilling(key, 0, 0, cfg.maxPerKey)))
  {
    ss, es := [Initial], [];
    var n := 0;
    assert Initial.calls == seq(0, _ => Refilling(key, 0, 0, cfg.maxPerKey));
    while n < c
      invariant n <= c && Run(cfg, ss, es)
      invariant forall i :: 0 <= i < |ss| ==> |ss[i].calls| <= n
      invariant ss[|es|] == Initial.(calls := seq(n, _ => Refilling(key, 0, 0, cfg.maxPerKey)))
    {
      var e := BeginReplenish(key, cfg.maxPerKey);
      var t := Initial.(calls := seq(n + 1, _ => Refilling(key, 0, 0, cfg.maxPerKey)));
      assert t.calls == ss[|es|].calls + [Refilling(key, 0, 0, cfg.maxPerKey)];
      RunGrows(cfg, ss, es, e, t);
      ss, es := ss + [t], es + [e];
      n := n + 1;
    }
  }

  /** Call `j` forks a pod with a fresh id and then pools it. */
  lemma RefillSteps(cfg: Config, s: State, key: Key, j: nat) returns (e1: Event, e2: Event, m: State, t: State)
    requires j < |s.calls| && InLoop(s.calls[j]) && s.calls[j].key == key
    requires forall id :: id in s.forked ==> |id| < |Queue(s.pools, key)|
    ensures e1.RefillFork? && Step(cfg, s, e1) == Some(m) && |m.calls| == |s.calls|
    ensures e2.RefillAdd? && Step(cfg, m, e2) == Some(t)
    ensures var call := s.calls[j];
      t.calls == s.calls[j := Refilling(key, call.current, call.forked + 1, call.target)]
    ensures |Queue(t.pools, key)| == |Queue(s.pools, key)| + 1
    ensures forall id :: id in t.forked ==> |id| < |Queue(t.pools, key)|
  {
    var call := s.calls[j];
    var id := seq(|Queue(s.pools, key)|, _ => 'p');
    assert id !in s.forked;
    e1, e2 := RefillFork(j, id), RefillAdd(j);
    m := Step(cfg, s, e1).value;
    t := Step(cfg, m, e2).value;
    assert m.calls[j] == Refilled(key, call.current, call.forked, call.target, id);
  }

  /** Call `j` forks and pools one more pod. */
  lemma RefillOne(cfg: Config, ss: seq<State>, es: seq<Event>, key: Key, j: nat, c: nat)
    returns (us: seq<State>, fs: seq<Event>)
    requires Run(cfg, ss, es) && j < |ss[|es|].calls|
    requires forall i :: 0 <= i < |ss| ==> |ss[i].calls| <= c
    requires InLoop(ss[|es|].calls[j]) && ss[|es|].calls[j].key == key
    requires forall id :: id in ss[|es|].forked ==> |id| < |Queue(ss[|es|].pools, key)|
    ensures Run(cfg, us, fs)
    ensures forall i :: 0 <= i < |us| ==> |us[i].calls| <= c
    ensures var s, t := ss[|es|], us[|fs|]; var call := s.calls[j];
      && t.calls == s.calls[j := Refilling(key, call.current, call.forked + 1, call.target)]
      && |Queue(t.pools, key)| == |Queue(s.pools, key)| + 1
      && (forall id :: id in t.forked ==> |id| < |Queue(t.pools, key)|)
  {
    var s := ss[|es|];
    var e1, e2, m, t := RefillSteps(cfg, s, key, j);
    us, fs := ss + [m] + [t], es + [e1] + [e2];
    RunGrowsTwice(cfg, ss, es, e1, m, e2, t);
    assert us[|fs|] == t && us[|es| + 1] == m && forall i :: 0 <= i < |ss| ==> us[i] == ss[i];
  }

  /** For every `c` and cap there is a run with at most `c` refills in flight that fills the
      queue to exactly `c` caps, so two concurrent refills already exceed the per-key cap. */
  lemma CapacityReached(cfg: Config, key: Key, c: nat) returns (ss: seq<State>, es: seq<Event>)
    requires cfg.maxPerKey >= 0
    ensures Run(cfg, ss, es)
    ensures forall i :: 0 <= i < |ss| ==> InFlight(ss[i].calls, key) <= c
    ensures |Queue(ss[|es|].pools, key)| == c * Cap(cfg)
  {
    var cap := Cap(cfg);
    ss, es := StartAll(cfg, key, c);
    var j := 0;
    while j < c
      invariant j <= c && Run(cfg, ss, es) && |ss[|es|].calls| == c
      invariant forall i :: 0 <= i < |ss| ==> |ss[i].calls| <= c
      invariant forall i :: j <= i < c ==> ss[|es|].calls[i] == Refilling(key, 0, 0, cap)
      invariant |Queue(ss[|es|].pools, key)| == j * cap
      invariant forall id :: id in ss[|es|].forked ==> |id| < |Queue(ss[|es|].pools, key)|
    {
      ss, es := FillOne(cfg, ss, es, key, j, c);
      assert (j + 1) * cap == j * cap + cap;
      j := j + 1;
    }
    forall i | 0 <= i < |ss| ensures InFlight(ss[i].calls, key) <= c {
      InFlightAtMost(ss[i].calls, key);
    }
  }

  /** Call `j` runs its whole loop. */
  lemma FillOne(cfg: Config, ss: seq<State>, es: seq<Event>, key: Key, j: nat, c: nat)
    returns (us: seq<State>, fs: seq<Event>)
    requires cfg.maxPerKey >= 0 && Run(cfg, ss, es) && |ss[|es|].calls| == c && j < c
    requires forall i :: 0 <= i < |ss| ==> |ss[i].calls| <= c
    requires ss[|es|].calls[j] == Refilling(key, 0, 0, Cap(cfg))
    requires forall id :: id in ss[|es|].forked ==> |id| < |Queue(ss[|es|].pools, key)|
    ensures Run(cfg, us, fs) && |us[|fs|].calls| == c
    ensures forall i :: 0 <= i < |us| ==> |us[i].calls| <= c
    ensures forall i :: 0 <= i < c && i != j ==> us[|fs|].calls[i] == ss[|es|].calls[i]
    ensures |Queue(us[|fs|].pools, key)| == |Queue(ss[|es|].pools, key)| + Cap(cfg)
    ensures forall id :: id in us[|fs|].forked ==> |id| < |Queue(us[|fs|].pools, key)|
  {
    us, fs := ss, es;
    var f := 0;
    while f < Cap(cfg)
      invariant f <= Cap(cfg) && Run(cfg, us, fs) && |us[|fs|].calls| == c
      invariant forall i :: 0 <= i < |us| ==> |us[i].calls| <= c
      invariant us[|fs|].calls[j] == Refilling(key, 0, f, Cap(cfg))
      invariant forall i :: 0 <= i < c && i != j ==> us[|fs|].calls[i] == ss[|es|].calls[i]
      invariant |Queue(us[|fs|].pools, key)| == |Queue(ss[|es|].pools, key)| + f
      invariant forall id :: id in us[|fs|].forked ==> |id| < |Queue(us[|fs|].pools, key)|
    {
      us, fs := RefillOne(cfg, us, fs, key, j, c);
      f := f + 1;
    }
  }

  ghost predicate BoundedRun(cfg: Config, ss: seq<State>, es: seq<Event>, key: Key, c: nat) {
    Run(cfg, ss, es) && forall i :: 0 <= i < |ss| ==> InFlight(ss[i].calls, key) <= c
  }

  ghost predicate WithinCap(cfg: Config, ss: seq<State>, key: Key) {
    forall i :: 0 <= i < |ss| ==> |Queue(ss[i].pools, key)| <= Cap(cfg)
  }

  /** The per-key cap is kept by every interleaving exactly when refills of a key do not overlap
      (or the cap is zero). */
  lemma CapKeptIffOneRefill(cfg: Config, key: Key, c: nat)
    ensures (forall ss, es :: BoundedRun(cfg, ss, es, key, c) ==> WithinCap(cfg, ss, key))
       <==> (c <= 1 || Cap(cfg) == 0)
  {
    if c <= 1 || Cap(cfg) == 0 {
      forall ss, es | BoundedRun(cfg, ss, es, key, c) ensures WithinCap(cfg, ss, key) {
        CapacityBound(cfg, ss, es, key, c);
        assert c * Cap(cfg) <= Cap(cfg);
      }
    } else {
      var ss, es := CapacityReached(cfg, key, c);
      assert BoundedRun(cfg, ss, es, key, c);
      MulMono(2, c, Cap(cfg));
      assert |Queue(ss[|es|].pools, key)| > Cap(cfg);
    }
  }

  // ---------------------------------------------------------------------------------------------
  // What one refill adds

  /** How often call `c` pooled a pod between two points of a run. */
  function Adds(es: seq<Event>, c: nat, i: nat, j: nat): nat
    requires i <= j <= |es|
  {
    if i == j then 0 else Adds(es, c, i, j - 1) + if es[j - 1] == RefillAdd(c) then 1 else 0
  }

  /** The refill is over, or it has pooled `adds` pods and no more than it wanted. */
  ghost predicate Progress(call: Call, key: Key, current: nat, target: int, adds: nat) {
    || call == Finished
    || (&& IsRefillOf(call, key) && call.current == current && call.target == target && call.forked == adds
        && (adds == 0 || current + adds <= target)
        && (call.Refilled? ==> current + adds < target))
  }

  lemma ProgressStep(cfg: Config, s: State, e: Event, t: State, c: nat, key: Key, current: nat, target: int, adds: nat)
    requires Step(cfg, s, e) == Some(t) && c < |s.calls| && Progress(s.calls[c], key, current, target, adds)
    ensures c < |t.calls| && Progress(t.calls[c], key, current, target, adds + if e == RefillAdd(c) then 1 else 0)
    ensures e == RefillAdd(c) ==> |Queue(t.pools, key)| == |Queue(s.pools, key)| + 1
  {}

  lemma {:induction false} RefillProgress(cfg: Config, ss: seq<State>, es: seq<Event>, i: nat, j: nat)
    requires Run(cfg, ss, es) && i < j <= |es| && es[i].BeginReplenish?
    ensures var c, current := |ss[i].calls|, |Queue(ss[i].pools, es[i].key)|;
      c < |ss[j].calls|
      && Progress(ss[j].calls[c], es[i].key, current, Capped(es[i].target, cfg.maxPerKey), Adds(es, c, i, j))
    decreases j
  {
    assert Linked(cfg, ss, es, j - 1);
    var c := |ss[i].calls|;
    if j == i + 1 {
      assert Adds(es, c, i, i) == 0;
    } else {
      RefillProgress(cfg, ss, es, i, j - 1);
      ProgressStep(cfg, ss[j - 1], es[j - 1], ss[j], c, es[i].key, |Queue(ss[i].pools, es[i].key)|,
                   Capped(es[i].target, cfg.maxPerKey), Adds(es, c, i, j - 1));
    }
  }

  /** In every interleaving, a refill that returns without a failed fork pooled exactly what was
      missing, when it counted, from the smaller of its target and the cap. */
  lemma RefillAddsMissing(cfg: Config, ss: seq<State>, es: seq<Event>, i: nat, j: nat)
    requires Run(cfg, ss, es) && i < j < |es| && es[i].BeginReplenish? && es[j] == Return(|ss[i].calls|)
    ensures var wanted := if es[i].target < cfg.maxPerKey then es[i].target else cfg.maxPerKey;
      Adds(es, |ss[i].calls|, i, j) == Larger(0, wanted - |Queue(ss[i].pools, es[i].key)|)
    ensures forall n :: i < n < j && es[n] == RefillAdd(|ss[i].calls|) ==>
      |Queue(ss[n + 1].pools, es[i].key)| == |Queue(ss[n].pools, es[i].key)| + 1
  {
    RefillProgress(cfg, ss, es, i, j);
    assert Linked(cfg, ss, es, j);
    forall n | i < n < j && es[n] == RefillAdd(|ss[i].calls|)
      ensures |Queue(ss[n + 1].pools, es[i].key)| == |Queue(ss[n].pools, es[i].key)| + 1
    {
      RefillProgress(cfg, ss, es, i, n);
      assert Linked(cfg, ss, es, n);
      ProgressStep(cfg, ss[n], es[n], ss[n + 1], |ss[i].calls|, es[i].key, |Queue(ss[i].pools, es[i].key)|,
                   Capped(es[i].target, cfg.maxPerKey), Adds(es, |ss[i].calls|, i, n));
    }
  }
}
