/** Every interleaving of Build, Rebuild and Evict. Each store operation and each critical section of
    the touch map is a step; Evict keeps the touch map locked while it deletes snapshots one by one. */
module SnapshotRuns {
  import opened Wrappers
  import opened CacheKey
  import opened Snapshots

  /** The cache key, and the scrubber as a predicate that snapshots meet or not. */
  datatype Config = Config(keyOf: Request -> string, scrub: string -> bool)

  ghost predicate Default(c: Config, hash: string -> string) {
    (forall r :: c.keyOf(r) == Key(hash, r)) && forall fs :: c.scrub(fs) <==> Clean(fs)
  }

  datatype Build =
    | Looking(req: Request)                        // before the store lookup
    | Missed(req: Request)                         // before the runner returns
    | Holding(req: Request, data: string)          // scrubbed, before the put
    | Stored(req: Request, data: string)           // put, before the touch
    | Hit(req: Request, data: string)              // found, before the touch
    | Done(req: Request, result: Option<BuildResult>)

  /** An Evict under way: what the touch map was, and which snapshots it has still to delete. */
  datatype Eviction = Eviction(now: int, ttl: int, maxEntries: nat, before: Touches, left: set<string>)

  datatype Output = Output(req: Request, data: string)

  /** `outputs` is the history of what the runner returned. */
  datatype State = State(
    blobs: map<string, string>, lastBuilt: Touches, builds: seq<Build>, evicting: Option<Eviction>, outputs: seq<Output>)

  datatype Event =
    | Start(req: Request, rebuild: bool)           // a Rebuild deletes first
    | Lookup(b: nat)
    | RunnerReturns(b: nat, ran: Option<string>)   // and the scrubber looks
    | Put(b: nat)
    | Note(b: nat, now: int)
    | EvictBegins(now: int, ttl: int, maxEntries: nat, after: Touches)
    | EvictDeletes(key: string)
    | EvictEnds

  const Initial := State(map[], map[], [], None, [])

  ghost function Set(s: State, b: nat, build: Build): State
    requires b < |s.builds|
  {
    s.(builds := s.builds[b := build])
  }

  ghost function Step(c: Config, s: State, e: Event): Option<State> {
    match e
    case Start(req, rebuild) =>
      Some(s.(blobs := if rebuild then s.blobs - {c.keyOf(req)} else s.blobs, builds := s.builds + [Looking(req)]))
    case Lookup(b) =>
      if b < |s.builds| && s.builds[b].Looking? then
        var req := s.builds[b].req;
        var key := c.keyOf(req);
        Some(Set(s, b, if key in s.blobs then Hit(req, s.blobs[key]) else Missed(req)))
      else None
    case RunnerReturns(b, ran) =>
      if b < |s.builds| && s.builds[b].Missed? then
        var req := s.builds[b].req;
        if ran.None? then Some(Set(s, b, Done(req, None)))
        else
          var t := s.(outputs := s.outputs + [Output(req, ran.value)]);
          Some(Set(t, b, if c.scrub(ran.value) then Holding(req, ran.value) else Done(req, None)))
      else None
    case Put(b) =>
      if b < |s.builds| && s.builds[b].Holding? then
        var req, data := s.builds[b].req, s.builds[b].data;
        Some(Set(s.(blobs := s.blobs[c.keyOf(req) := data]), b, Stored(req, data)))
      else None
    case Note(b, now) =>
      if b < |s.builds| && (s.builds[b].Stored? || s.builds[b].Hit?) && s.evicting.None? then
        var req, data := s.builds[b].req, s.builds[b].data;
        var key := c.keyOf(req);
        Some(Set(s.(lastBuilt := s.lastBuilt[key := now]), b, Done(req, Some(BuildResult(key, data, s.builds[b].Hit?)))))
      else None
    case EvictBegins(now, ttl, maxEntries, after) =>
      if s.evicting.None? && Evicted(s.lastBuilt, after, now, ttl, maxEntries) then
        Some(s.(lastBuilt := after,
                evicting := Some(Eviction(now, ttl, maxEntries, s.lastBuilt, s.lastBuilt.Keys - after.Keys))))
      else None
    case EvictDeletes(key) =>
      if s.evicting.Some? && key in s.evicting.value.left then
        Some(s.(blobs := s.blobs - {key}, evicting := Some(s.evicting.value.(left := s.evicting.value.left - {key}))))
      else None
    case EvictEnds =>
      if s.evicting.Some? && s.evicting.value.left == {} then Some(s.(evicting := None)) else None
  }

  ghost predicate Run(c: Config, ss: seq<State>, es: seq<Event>) {
    && |ss| == |es| + 1
    && ss[0] == Initial
    && forall i :: 0 <= i < |es| ==> Step(c, ss[i], es[i]) == Some(ss[i + 1])
  }

  // ----- what is stored and returned comes from the runner, scrubbed

  /** The runner returned `data` for a request with this key, and `data` passes the scrubber. */
  ghost predicate Made(c: Config, outputs: seq<Output>, key: string, data: string) {
    c.scrub(data) && exists i :: 0 <= i < |outputs| && outputs[i].data == data && c.keyOf(outputs[i].req) == key
  }

  ghost predicate BuildOk(c: Config, outputs: seq<Output>, b: Build) {
    match b
    case Looking(_) => true
    case Missed(_) => true
    case Holding(req, data) => Made(c, outputs, c.keyOf(req), data)
    case Stored(req, data) => Made(c, outputs, c.keyOf(req), data)
    case Hit(req, data) => Made(c, outputs, c.keyOf(req), data)
    case Done(req, result) => result.Some? ==>
      result.value.key == c.keyOf(req) && Made(c, outputs, result.value.key, result.value.snapshot)
  }

  ghost predicate AllMade(c: Config, s: State) {
    && (forall k :: k in s.blobs ==> Made(c, s.outputs, k, s.blobs[k]))
    && (forall b :: 0 <= b < |s.builds| ==> BuildOk(c, s.outputs, s.builds[b]))
  }

  lemma MadeGrows(c: Config, outputs: seq<Output>, o: Output, key: string, data: string)
    requires Made(c, outputs, key, data)
    ensures Made(c, outputs + [o], key, data)
  {
    var i :| 0 <= i < |outputs| && outputs[i].data == data && c.keyOf(outputs[i].req) == key;
    assert (outputs + [o])[i] == outputs[i];
  }

  lemma BuildOkGrows(c: Config, outputs: seq<Output>, o: Output, b: Build)
    requires BuildOk(c, outputs, b)
    ensures BuildOk(c, outputs + [o], b)
  {
    match b
    case Looking(_) =>
    case Missed(_) =>
    case Holding(req, data) => MadeGrows(c, outputs, o, c.keyOf(req), data);
    case Stored(req, data) => MadeGrows(c, outputs, o, c.keyOf(req), data);
    case Hit(req, data) => MadeGrows(c, outputs, o, c.keyOf(req), data);
    case Done(_, result) => if result.Some? { MadeGrows(c, outputs, o, result.value.key, result.value.snapshot); }
  }

  lemma AllMadeRunner(c: Config, s: State, b: nat, ran: Option<string>, t: State)
    requires AllMade(c, s) && Step(c, s, RunnerReturns(b, ran)) == Some(t)
    ensures AllMade(c, t)
  {
    if ran.Some? {
      var o := Output(s.builds[b].req, ran.value);
      assert t.outputs == s.outputs + [o] && t.outputs[|s.outputs|] == o;
      forall k | k in t.blobs ensures Made(c, t.outputs, k, t.blobs[k]) {
        MadeGrows(c, s.outputs, o, k, s.blobs[k]);
      }
      forall d | 0 <= d < |t.builds| ensures BuildOk(c, t.outputs, t.builds[d]) {
        if d != b { BuildOkGrows(c, s.outputs, o, s.builds[d]); }
      }
    }
  }

  lemma AllMadeStep(c: Config, s: State, e: Event, t: State)
    requires AllMade(c, s) && Step(c, s, e) == Some(t)
    ensures AllMade(c, t)
  {
    if e.RunnerReturns? {
      AllMadeRunner(c, s, e.b, e.ran, t);
    } else {
      assert t.outputs == s.outputs;
      if e.Lookup? || e.Put? || e.Note? {
        assert BuildOk(c, s.outputs, s.builds[e.b]);
        assert forall d :: 0 <= d < |t.builds| && d != e.b ==> t.builds[d] == s.builds[d];
      }
    }
  }

  /** Over every run: each stored snapshot, and each snapshot that a Build or Rebuild returns, is
      what the runner returned for some request with that key, and passes the scrubber. */
  lemma OnlyScrubbedOutputs(c: Config, ss: seq<State>, es: seq<Event>)
    requires Run(c, ss, es)
    ensures forall n :: 0 <= n <= |es| ==> AllMade(c, ss[n])
  {
    var n := 0;
    while n < |es|
      invariant 0 <= n <= |es| && forall m :: 0 <= m <= n ==> AllMade(c, ss[m])
    {
      assert Step(c, ss[n], es[n]) == Some(ss[n + 1]);
      AllMadeStep(c, ss[n], es[n], ss[n + 1]);
      n := n + 1;
    }
  }

  /** With CacheKey and the default scrubber: no scrub pattern occurs in a stored snapshot, and it
      is the runner's output for a request with the same CacheKey. */
  lemma OnlyCleanOutputs(c: Config, hash: string -> string, ss: seq<State>, es: seq<Event>, n: nat, key: string)
    requires Default(c, hash) && Run(c, ss, es) && n <= |es| && key in ss[n].blobs
    ensures Clean(ss[n].blobs[key])
    ensures var outputs, data := ss[n].outputs, ss[n].blobs[key];
      exists i :: 0 <= i < |outputs| && outputs[i].data == data && Key(hash, outputs[i].req) == key
  {
    OnlyScrubbedOutputs(c, ss, es);
    assert AllMade(c, ss[n]);
    var data := ss[n].blobs[key];
    assert Made(c, ss[n].outputs, key, data);
    var i :| 0 <= i < |ss[n].outputs| && ss[n].outputs[i].data == data && c.keyOf(ss[n].outputs[i].req) == key;
    assert Key(hash, ss[n].outputs[i].req) == key;
  }

  // ----- the cap

  /** Some Build has put this key and not yet touched it. */
  ghost predicate Unnoted(c: Config, builds: seq<Build>, key: string) {
    exists b :: 0 <= b < |builds| && builds[b].Stored? && c.keyOf(builds[b].req) == key
  }

  ghost predicate Tracked(c: Config, s: State, key: string) {
    || key in s.lastBuilt
    || Unnoted(c, s.builds, key)
    || (s.evicting.Some? && key in s.evicting.value.left)
  }

  ghost predicate EvictOk(s: State) {
    s.evicting.Some? ==>
      var e := s.evicting.value;
      Evicted(e.before, s.lastBuilt, e.now, e.ttl, e.maxEntries)
  }

  ghost predicate CapInv(c: Config, s: State) {
    EvictOk(s) && forall k :: k in s.blobs ==> Tracked(c, s, k)
  }

  lemma UnnotedStays(c: Config, builds: seq<Build>, b: nat, build: Build, key: string)
    requires b < |builds| && Unnoted(c, builds, key) && !(builds[b].Stored? && c.keyOf(builds[b].req) == key)
    ensures Unnoted(c, builds[b := build], key)
  {
    var d :| 0 <= d < |builds| && builds[d].Stored? && c.keyOf(builds[d].req) == key;
    assert builds[b := build][d] == builds[d];
  }

  lemma CapStart(c: Config, s: State, req: Request, rebuild: bool, t: State)
    requires CapInv(c, s) && Step(c, s, Start(req, rebuild)) == Some(t)
    ensures CapInv(c, t)
  {
    forall k | k in t.blobs ensures Tracked(c, t, k) {
      assert Tracked(c, s, k);
      if Unnoted(c, s.builds, k) {
        var d :| 0 <= d < |s.builds| && s.builds[d].Stored? && c.keyOf(s.builds[d].req) == k;
        assert t.builds[d] == s.builds[d];
      }
    }
  }

  lemma CapBuild(c: Config, s: State, e: Event, t: State)
    requires CapInv(c, s) && Step(c, s, e) == Some(t) && (e.Lookup? || e.RunnerReturns? || e.Put? || e.Note?)
    ensures CapInv(c, t)
  {
    var b := e.b;
    var key := c.keyOf(s.builds[b].req);
    forall k | k in t.blobs ensures Tracked(c, t, k) {
      if e.Put? && k == key {
        assert t.builds[b].Stored? && c.keyOf(t.builds[b].req) == k;
      } else if e.Note? && k == key {
        assert k in t.lastBuilt;
      } else {
        assert Tracked(c, s, k);
        if Unnoted(c, s.builds, k) {
          UnnotedStays(c, s.builds, b, t.builds[b], k);
        }
      }
    }
  }

  lemma CapEvict(c: Config, s: State, e: Event, t: State)
    requires CapInv(c, s) && Step(c, s, e) == Some(t) && (e.EvictBegins? || e.EvictDeletes? || e.EvictEnds?)
    ensures CapInv(c, t)
  {
    forall k | k in t.blobs ensures Tracked(c, t, k) {
      assert Tracked(c, s, k);
    }
  }

  lemma CapStep(c: Config, s: State, e: Event, t: State)
    requires CapInv(c, s) && Step(c, s, e) == Some(t)
    ensures CapInv(c, t)
  {
    match e
    case Start(req, rebuild) => CapStart(c, s, req, rebuild, t);
    case EvictBegins(_, _, _, _) => CapEvict(c, s, e, t);
    case EvictDeletes(_) => CapEvict(c, s, e, t);
    case EvictEnds => CapEvict(c, s, e, t);
    case Lookup(_) => CapBuild(c, s, e, t);
    case RunnerReturns(_, _) => CapBuild(c, s, e, t);
    case Put(_) => CapBuild(c, s, e, t);
    case Note(_, _) => CapBuild(c, s, e, t);
  }

  lemma {:induction false} SubsetSize(a: set<string>, b: set<string>)
    requires a <= b
    ensures |a| <= |b|
    decreases |a|
  {
    if a != {} {
      var x :| x in a;
      SubsetSize(a - {x}, b - {x});
    }
  }

  /** The keys that a Build has put and not yet touched. */
  ghost function UnnotedKeys(c: Config, s: State): set<string> {
    set k | k in s.blobs && Unnoted(c, s.builds, k)
  }

  /** When an Evict ends, in any run: the tracked keys are those that eviction must leave, all
      younger than ttl, with none dropped by the cap touched later than one kept; and every stored
      snapshot is tracked, or put by a Build that has not touched it yet. So at most maxEntries
      snapshots are stored beyond those. */
  lemma AfterEvict(c: Config, ss: seq<State>, es: seq<Event>, n: nat)
    requires Run(c, ss, es) && n < |es| && es[n].EvictEnds?
    ensures ss[n].evicting.Some? && var e, t := ss[n].evicting.value, ss[n + 1];
      && Evicted(e.before, t.lastBuilt, e.now, e.ttl, e.maxEntries)
      && (forall k :: k in t.lastBuilt ==> e.now - t.lastBuilt[k] < e.ttl)
      && |t.lastBuilt| <= e.maxEntries
      && |t.blobs| <= e.maxEntries + |UnnotedKeys(c, t)|
  {
    var m := 0;
    while m < n + 1
      invariant 0 <= m <= n + 1 && forall i :: 0 <= i <= m ==> CapInv(c, ss[i])
    {
      assert Step(c, ss[m], es[m]) == Some(ss[m + 1]);
      CapStep(c, ss[m], es[m], ss[m + 1]);
      m := m + 1;
    }
    assert Step(c, ss[n], es[n]) == Some(ss[n + 1]);
    var t := ss[n + 1];
    assert EvictOk(ss[n]);
    forall k | k in t.blobs ensures k in t.lastBuilt.Keys + UnnotedKeys(c, t) {
      assert Tracked(c, t, k);
    }
    SubsetSize(t.blobs.Keys, t.lastBuilt.Keys + UnnotedKeys(c, t));
  }
}
