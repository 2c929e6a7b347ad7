/** Order with restarts: one live worker at a time is what order needs, no less and no more. */
module OrchestratorLive {
  import opened Wrappers
  import opened Orchestrator
  import opened OrchestratorRuns
  import opened OrchestratorDelivery
  import opened OrchestratorOrder
  import opened OrchestratorAlone

  // ---------------------------------------------------------------------------------------------
  // Subsequences

  ghost predicate Subsequence<T>(a: seq<T>, b: seq<T>)
    decreases |b|
  {
    || a == []
    || (b != [] && Subsequence(a, b[..|b| - 1]))
    || (b != [] && a[|a| - 1] == b[|b| - 1] && Subsequence(a[..|a| - 1], b[..|b| - 1]))
  }

  lemma SubPush<T>(a: seq<T>, b: seq<T>, x: T)
    requires Subsequence(a, b)
    ensures Subsequence(a, b + [x]) && Subsequence(a + [x], b + [x])
  {
    assert (b + [x])[..|b|] == b && (a + [x])[..|a|] == a;
  }

  /** What one user gets of a subsequence is a subsequence of what the user has of the whole. */
  lemma {:induction false} OfSubsequence(a: seq<Request>, b: seq<Request>, user: UserId, priority: string)
    requires Subsequence(a, b)
    ensures Subsequence(Of(a, user, priority), Of(b, user, priority))
    decreases |b|
  {
    if a != [] {
      var n := |b| - 1;
      var ob := Of(b[..n], user, priority);
      assert ob + [] == ob;
      if Subsequence(a, b[..n]) {
        OfSubsequence(a, b[..n], user, priority);
        SubPush(Of(a, user, priority), ob, b[n]);
      } else {
        OfSubsequence(a[..|a| - 1], b[..n], user, priority);
        var oa := Of(a[..|a| - 1], user, priority);
        assert oa + [] == oa;
        SubPush(oa, ob, b[n]);
      }
    }
  }

  ghost predicate Ascending(handled: seq<Handled>) {
    forall i, j :: 0 <= i < j < |handled| ==> handled[i].index < handled[j].index
  }

  /** Calls for ascending entries are a subsequence of what the stream says. */
  lemma {:induction false} AscendingCalls(codec: Codec, entries: seq<string>, handled: seq<Handled>, n: nat)
    requires Ascending(handled) && n <= |entries|
    requires forall j :: 0 <= j < |handled| ==> handled[j].index < n && codec.unmarshal(entries[handled[j].index]).Some?
    ensures Subsequence(Calls(codec, entries, handled), Decoded(codec, entries[..n]))
    decreases n
  {
    if handled != [] {
      var m := |handled| - 1;
      assert handled[m].index < n;
      assert entries[..n] == entries[..n - 1] + [entries[n - 1]];
      DecodedPush(codec, entries[..n - 1], entries[n - 1]);
      var d := Decoded(codec, entries[..n - 1]);
      if handled[m].index == n - 1 {
        AscendingCalls(codec, entries, handled[..m], n - 1);
        SubPush(Calls(codec, entries, handled[..m]), d, codec.unmarshal(entries[n - 1]).value);
      } else {
        assert forall j :: 0 <= j < m ==> handled[j].index < handled[m].index;
        AscendingCalls(codec, entries, handled, n - 1);
        assert d + [] == d;
        if codec.unmarshal(entries[n - 1]).Some? {
          SubPush(Calls(codec, entries, handled), d, codec.unmarshal(entries[n - 1]).value);
        }
      }
    }
  }

  // ---------------------------------------------------------------------------------------------
  // One live worker at a time

  ghost predicate OneLive(s: State, shard: nat) {
    forall v, w :: 0 <= v < w < |s.workers| ==> !Live(s.workers[v], shard) || !Live(s.workers[w], shard)
  }

  predicate Live(w: Worker, shard: nat) {
    w.shard == shard && !w.stopped
  }

  /** What a live worker has still to handle lies beyond everything handled. */
  ghost predicate Beyond(handled: seq<Handled>, w: Worker, k: StreamKey) {
    Live(w, k.shard) && Todo(w, k).Some? ==> Below(handled, Todo(w, k).value)
  }

  ghost predicate Below(handled: seq<Handled>, n: nat) {
    forall j :: 0 <= j < |handled| ==> handled[j].index < n
  }

  ghost predicate Forward(codec: Codec, s: State, k: StreamKey) {
    var st := StreamAt(s.streams, k);
    && StreamOk(codec, st)
    && Ascending(st.handled)
    && forall w :: 0 <= w < |s.workers| ==> Beyond(st.handled, s.workers[w], k)
  }

  /** A step that handles nothing and gives no worker anything but the next entry. */
  lemma ForwardKept(codec: Codec, s: State, k: StreamKey, t: State)
    requires Forward(codec, s, k) && StreamOk(codec, StreamAt(t.streams, k))
    requires StreamAt(t.streams, k).handled == StreamAt(s.streams, k).handled
    requires forall w :: 0 <= w < |t.workers| ==>
      || (w < |s.workers| && t.workers[w] == s.workers[w])
      || Todo(t.workers[w], k).None?
      || (w < |s.workers| && Todo(t.workers[w], k) == Todo(s.workers[w], k) && t.workers[w].shard == s.workers[w].shard
          && t.workers[w].stopped == s.workers[w].stopped)
      || Todo(t.workers[w], k) == Some(StreamAt(s.streams, k).delivered)
    ensures Forward(codec, t, k)
  {
    var st := StreamAt(s.streams, k);
    forall w | 0 <= w < |t.workers| ensures Beyond(st.handled, t.workers[w], k) {
      if w < |s.workers| { assert Beyond(st.handled, s.workers[w], k); }
    }
  }

  lemma ForwardRead(codec: Codec, s: State, k: StreamKey, w: nat, i: bool, b: bool, t: State)
    requires Forward(codec, s, k) && StreamOk(codec, StreamAt(t.streams, k))
    requires WorkStep(codec, s, Read(w, i, b)) == Some(t)
    ensures Forward(codec, t, k)
  {
    ReadMoves(codec, s, k, w, i, b, t);
    ForwardKept(codec, s, k, t);
  }

  /** The only live worker of the shard handles what it had to do. */
  lemma ForwardRecorded(codec: Codec, s: State, k: StreamKey, w: nat, ok: bool, t: State)
    requires Forward(codec, s, k) && OneLive(s, k.shard) && StreamOk(codec, StreamAt(t.streams, k))
    requires w < |s.workers| == |t.workers| && t.workers == s.workers[w := t.workers[w]]
    requires Live(s.workers[w], k.shard) && Todo(s.workers[w], k).Some? && Todo(t.workers[w], k).None?
    requires StreamAt(t.streams, k) == Recorded(StreamAt(s.streams, k), Todo(s.workers[w], k).value, ok)
    ensures Forward(codec, t, k)
  {
    var st, st' := StreamAt(s.streams, k), StreamAt(t.streams, k);
    assert Beyond(st.handled, s.workers[w], k);
    forall v | 0 <= v < |t.workers| ensures Beyond(st'.handled, t.workers[v], k) {
      assert v != w ==> t.workers[v] == s.workers[v] && !Live(s.workers[v], k.shard);
    }
  }

  lemma ForwardHandle(codec: Codec, s: State, k: StreamKey, w: nat, ok: bool, t: State)
    requires Forward(codec, s, k) && OneLive(s, k.shard) && StreamOk(codec, StreamAt(t.streams, k))
    requires WorkStep(codec, s, Handle(w, ok)) == Some(t) && !s.workers[w].stopped
    ensures Forward(codec, t, k)
  {
    HandleMoves(codec, s, k, w, ok, t);
    if k == CurrentKey(s.workers[w]) && StreamAt(t.streams, k) != StreamAt(s.streams, k) {
      ForwardRecorded(codec, s, k, w, ok, t);
    } else {
      ForwardKept(codec, s, k, t);
    }
  }

  lemma ForwardAck(codec: Codec, s: State, k: StreamKey, w: nat, up: bool, t: State)
    requires Forward(codec, s, k) && StreamOk(codec, StreamAt(t.streams, k))
    requires WorkStep(codec, s, Ack(w, up)) == Some(t)
    ensures Forward(codec, t, k)
  {
    AckMoves(codec, s, k, w, up, t);
    ForwardKept(codec, s, k, t);
  }

  lemma AckMoves(codec: Codec, s: State, k: StreamKey, w: nat, up: bool, t: State)
    requires WorkStep(codec, s, Ack(w, up)) == Some(t)
    ensures t.workers == s.workers[w := t.workers[w]]
    ensures t.workers[w].shard == s.workers[w].shard && t.workers[w].stopped == s.workers[w].stopped
    ensures StreamAt(t.streams, k).handled == StreamAt(s.streams, k).handled
    ensures Todo(t.workers[w], k).None? || Todo(t.workers[w], k) == Todo(s.workers[w], k)
  {
    assert INTERACTIVE[0] != BACKGROUND[0];
  }

  lemma ForwardIdle(codec: Codec, s: State, e: WorkEvent, t: State, k: StreamKey)
    requires WorkStep(codec, s, e) == Some(t) && (e.Foreign? || e.StartWorker? || e.Stop?)
    requires Forward(codec, s, k) && StreamOk(codec, StreamAt(t.streams, k))
    ensures Forward(codec, t, k)
  {
    ForwardKept(codec, s, k, t);
  }

  lemma ForwardWork(codec: Codec, s: State, e: WorkEvent, t: State, k: StreamKey)
    requires WorkStep(codec, s, e) == Some(t) && Forward(codec, s, k) && OneLive(s, k.shard) && StoppedIdle(s)
    requires StreamOk(codec, StreamAt(t.streams, k))
    ensures Forward(codec, t, k)
  {
    match e
    case Foreign(_, _) => ForwardIdle(codec, s, e, t, k);
    case StartWorker(_) => ForwardIdle(codec, s, e, t, k);
    case Read(w, i, b) => ForwardRead(codec, s, k, w, i, b, t);
    case Handle(w, ok) => ForwardHandle(codec, s, k, w, ok, t);
    case Ack(w, up) => ForwardAck(codec, s, k, w, up, t);
    case Stop(_) => ForwardIdle(codec, s, e, t, k);
  }

  lemma ForwardStep(codec: Codec, shards: nat, s: State, e: Event, t: State, k: StreamKey)
    requires 0 < shards && Step(codec, shards, s, e) == Some(t)
    requires Forward(codec, s, k) && OneLive(s, k.shard) && StoppedIdle(s) && StreamOk(codec, StreamAt(t.streams, k))
    ensures Forward(codec, t, k)
  {
    match e
    case Enq(x) =>
      EnqFrame(codec, shards, s, x, t);
      ForwardKept(codec, s, k, t);
    case Work(x) => ForwardWork(codec, s, x, t, k);
  }

  /** The handler calls of a user are in enqueue order, at every priority. */
  ghost predicate InOrder(codec: Codec, shards: nat, s: State, user: UserId)
    requires 0 < shards
  {
    forall priority :: OrderedAt(codec, shards, s, user, priority)
  }

  ghost predicate OrderedAt(codec: Codec, shards: nat, s: State, user: UserId, priority: string)
    requires 0 < shards
  {
    var st := StreamAt(s.streams, StreamKey(ShardOf(user, shards), priority));
    StreamOk(codec, st) && Subsequence(Of(Calls(codec, st.entries, st.handled), user, priority), Of(s.enqueued, user, priority))
  }

  /** With at most one live worker at a time on a user's shard, workers may stop and be replaced as
      often as they like: in every state of every run the handler calls for the user at a priority
      are a subsequence of the user's enqueues. What a stopped worker had in hand is skipped. */
  lemma OrderAcrossRestarts(codec: Codec, shards: nat, ss: seq<State>, es: seq<Event>, user: UserId, priority: string)
    requires 0 < shards && Lawful(codec) && Run(codec, shards, ss, es)
    requires forall n :: 0 <= n <= |es| ==> OneLive(ss[n], ShardOf(user, shards))
    ensures OrderedAt(codec, shards, ss[|es|], user, priority)
  {
    var k := StreamKey(ShardOf(user, shards), priority);
    AtMostOnce(codec, shards, ss, es);
    var n := 0;
    while n < |es|
      invariant 0 <= n <= |es| && StoppedIdle(ss[n])
      invariant Forward(codec, ss[n], k) && Carries(codec, shards, ss[n], k)
    {
      assert Linked(codec, shards, ss, es, n);
      CarriesStep(codec, shards, ss[n], es[n], ss[n + 1], k);
      StoppedIdleStep(codec, shards, ss[n], es[n], ss[n + 1]);
      ForwardStep(codec, shards, ss[n], es[n], ss[n + 1], k);
      n := n + 1;
    }
    var st := StreamAt(ss[n].streams, k);
    assert st.entries[..|st.entries|] == st.entries;
    AscendingCalls(codec, st.entries, st.handled, |st.entries|);
    OfSubsequence(Calls(codec, st.entries, st.handled), On(ss[n].enqueued, shards, k), user, priority);
    OfOn(ss[n].enqueued, shards, user, priority);
  }

  // ---------------------------------------------------------------------------------------------
  // Exactly one

  function LiveCount(ws: seq<Worker>, shard: nat): nat {
    if ws == [] then 0 else LiveCount(ws[..|ws| - 1], shard) + if Live(ws[|ws| - 1], shard) then 1 else 0
  }

  lemma {:induction false} LiveCountBounds(ws: seq<Worker>, shard: nat, v: nat, w: nat)
    requires v <= w < |ws|
    ensures LiveCount(ws, shard) <= |ws|
    ensures Live(ws[w], shard) ==> LiveCount(ws, shard) >= 1
    ensures v < w && Live(ws[v], shard) && Live(ws[w], shard) ==> LiveCount(ws, shard) >= 2
    decreases |ws|
  {
    var n := |ws| - 1;
    if w < n {
      LiveCountBounds(ws[..n], shard, v, w);
    } else if v < w {
      LiveCountBounds(ws[..n], shard, v, v);
    } else if n > 0 {
      LiveCountBounds(ws[..n], shard, 0, 0);
    }
  }

  lemma CountOneIsOneLive(s: State, shard: nat)
    requires LiveCount(s.workers, shard) <= 1
    ensures OneLive(s, shard)
  {
    forall v, w | 0 <= v < w < |s.workers| ensures !(Live(s.workers[v], shard) && Live(s.workers[w], shard)) {
      LiveCountBounds(s.workers, shard, v, w);
    }
  }

  /** A run with at most c live workers on the shard at any time. */
  ghost predicate BoundedRun(codec: Codec, shards: nat, ss: seq<State>, es: seq<Event>, shard: nat, c: nat)
    requires 0 < shards
  {
    Run(codec, shards, ss, es) && forall n :: 0 <= n <= |es| ==> LiveCount(ss[n].workers, shard) <= c
  }

  /** The states on the way. */
  ghost function Trace(codec: Codec, shards: nat, s: State, es: seq<Event>, t: State): (ss: seq<State>)
    requires 0 < shards && Leads(codec, shards, s, es, t)
    ensures |ss| == |es| + 1 && ss[0] == s && ss[|es|] == t
    decreases |es|
  {
    if es == [] then [s] else [s] + Trace(codec, shards, Step(codec, shards, s, es[0]).value, es[1..], t)
  }

  lemma {:induction false} TraceSteps(codec: Codec, shards: nat, s: State, es: seq<Event>, t: State, i: nat)
    requires 0 < shards && Leads(codec, shards, s, es, t) && i < |es|
    ensures Linked(codec, shards, Trace(codec, shards, s, es, t), es, i)
    decreases |es|
  {
    if i > 0 {
      TraceSteps(codec, shards, Step(codec, shards, s, es[0]).value, es[1..], t, i - 1);
    }
  }

  lemma WorkersGrow(codec: Codec, shards: nat, s: State, e: Event, t: State)
    requires 0 < shards && Step(codec, shards, s, e) == Some(t)
    ensures |s.workers| <= |t.workers|
  {
    if e.Enq? { EnqFrame(codec, shards, s, e.enq, t); }
  }

  /** No state of a run has more workers than the last. */
  lemma {:induction false} WorkersBounded(codec: Codec, shards: nat, ss: seq<State>, es: seq<Event>, n: nat)
    requires 0 < shards && Run(codec, shards, ss, es) && n <= |es|
    ensures |ss[n].workers| <= |ss[|es|].workers|
    decreases |es| - n
  {
    if n < |es| {
      assert Linked(codec, shards, ss, es, n);
      WorkersGrow(codec, shards, ss[n], es[n], ss[n + 1]);
      WorkersBounded(codec, shards, ss, es, n + 1);
    }
  }

  /** The two workers of TwoWorkersReorder, as a run. */
  lemma ReorderRun(codec: Codec, shards: nat, a: Request, b: Request) returns (ss: seq<State>, es: seq<Event>)
    requires 0 < shards && Lawful(codec) && a != b && a.userId == b.userId && a.idemKey == b.idemKey == ""
    requires a.priority == b.priority == INTERACTIVE
    ensures BoundedRun(codec, shards, ss, es, ShardOf(a.userId, shards), 2)
    ensures !OrderedAt(codec, shards, ss[|es|], a.userId, INTERACTIVE)
  {
    var t;
    es, t := TwoWorkersReorder(codec, shards, a, b);
    ss := Trace(codec, shards, Initial, es, t);
    forall i | 0 <= i < |es| ensures Linked(codec, shards, ss, es, i) {
      TraceSteps(codec, shards, Initial, es, t, i);
    }
    var shard := ShardOf(a.userId, shards);
    forall n | 0 <= n <= |es| ensures LiveCount(ss[n].workers, shard) <= 2 {
      WorkersBounded(codec, shards, ss, es, n);
      if ss[n].workers != [] { LiveCountBounds(ss[n].workers, shard, 0, 0); }
    }
    NotOrdered(codec, shards, t, a, b);
  }

  lemma Swapped<T>(a: T, b: T)
    requires a != b
    ensures !Subsequence([b, a], [a, b])
  {
    assert [a, b][..1] == [a] && [b, a][..1] == [b] && [a][..0] == [];
    assert !Subsequence([b], [a]) && !Subsequence([b, a], [a]);
  }

  lemma CallsPair(codec: Codec, x: string, y: string, a: Request, b: Request)
    requires codec.unmarshal(x) == Some(a) && codec.unmarshal(y) == Some(b)
    ensures Calls(codec, [x, y], [Handled(1, true), Handled(0, true)]) == [b, a]
  {
    var hs := [Handled(1, true), Handled(0, true)];
    assert hs[..1] == [Handled(1, true)] && hs[..1][..0] == [];
    assert Calls(codec, [x, y], hs[..1]) == [b];
  }

  lemma NotOrdered(codec: Codec, shards: nat, t: State, a: Request, b: Request)
    requires 0 < shards && Lawful(codec) && a != b && a.userId == b.userId && a.priority == b.priority
    requires var st := StreamAt(t.streams, KeyFor(a, shards));
      st.entries == [codec.marshal(a), codec.marshal(b)] && st.handled == [Handled(1, true), Handled(0, true)]
    requires t.enqueued == [a, b]
    ensures !OrderedAt(codec, shards, t, a.userId, a.priority)
  {
    CallsPair(codec, codec.marshal(a), codec.marshal(b), a, b);
    OfPair(b, a);
    OfPair(a, b);
    Swapped(a, b);
  }

  lemma OfPair(a: Request, b: Request)
    requires a.userId == b.userId && a.priority == b.priority
    ensures Of([a, b], a.userId, a.priority) == [a, b]
  {
    assert [a, b][..1] == [a] && [a][..0] == [];
    assert Of([a], a.userId, a.priority) == [a];
  }

  /** Every run with at most c live workers at a time on a user's shard hands the user's runs over
      in order if and only if c is at most one. */
  lemma OrderIffOneWorker(codec: Codec, shards: nat, user: UserId, c: nat)
    requires 0 < shards && Lawful(codec)
    ensures c <= 1 <==>
      forall ss, es :: BoundedRun(codec, shards, ss, es, ShardOf(user, shards), c) ==> InOrder(codec, shards, ss[|es|], user)
  {
    var shard := ShardOf(user, shards);
    if c <= 1 {
      forall ss, es | BoundedRun(codec, shards, ss, es, shard, c) ensures InOrder(codec, shards, ss[|es|], user) {
        forall n | 0 <= n <= |es| ensures OneLive(ss[n], shard) { CountOneIsOneLive(ss[n], shard); }
        forall priority ensures OrderedAt(codec, shards, ss[|es|], user, priority) {
          OrderAcrossRestarts(codec, shards, ss, es, user, priority);
        }
      }
    } else {
      var a := Request("1", "", "", user, "", INTERACTIVE, "", 0);
      var b := Request("2", "", "", user, "", INTERACTIVE, "", 0);
      var ss, es := ReorderRun(codec, shards, a, b);
      assert BoundedRun(codec, shards, ss, es, shard, c);
      assert !InOrder(codec, shards, ss[|es|], user);
    }
  }
}
