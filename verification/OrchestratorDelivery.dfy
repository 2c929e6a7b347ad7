/** Delivery: over all workers each entry is undelivered, pending or acked, and reaches a handler
    at most once. */
module OrchestratorDelivery {
  import opened Wrappers
  import opened Orchestrator
  import opened OrchestratorRuns

  ghost predicate Undecodable(codec: Codec, st: Stream, i: nat) {
    i < |st.entries| && codec.unmarshal(st.entries[i]).None?
  }

  ghost predicate WasHandled(st: Stream, i: nat) {
    exists j :: 0 <= j < |st.handled| && st.handled[j].index == i
  }

  /** Every entry is exactly one of undelivered, pending or acked; handler calls are for delivered,
      decodable entries, one call each; and an acked entry was undecodable or handled well. */
  ghost predicate StreamOk(codec: Codec, st: Stream) {
    && st.delivered <= |st.entries|
    && (forall i: nat :: i < st.delivered <==> i in st.pending || i in st.acked)
    && st.pending !! st.acked
    && (forall j :: 0 <= j < |st.handled| ==>
          st.handled[j].index < st.delivered && !Undecodable(codec, st, st.handled[j].index))
    && (forall i, j :: 0 <= i < j < |st.handled| ==> st.handled[i].index != st.handled[j].index)
    && (forall i :: i in st.acked ==> Undecodable(codec, st, i) || Handled(i, true) in st.handled)
  }

  /** The worker has entry i of stream k in hand. */
  ghost predicate Has(w: Worker, k: StreamKey, i: nat) {
    || (k == StreamKey(w.shard, INTERACTIVE) && w.interactive == Some(i))
    || (k == StreamKey(w.shard, BACKGROUND) && w.background == Some(i))
  }

  /** The entry in hand that is through the handler, or needs none. */
  ghost predicate Done(w: Worker, k: StreamKey, i: nat) {
    w.acking && k == CurrentKey(w) && CurrentIndex(w) == Some(i)
  }

  /** What a worker relies on for an entry in hand. */
  ghost predicate InHand(codec: Codec, st: Stream, done: bool, i: nat) {
    && i in st.pending && i < |st.entries|
    && if done then Undecodable(codec, st, i) || Handled(i, true) in st.handled else !WasHandled(st, i)
  }

  ghost predicate WorkerOk(codec: Codec, ss: Streams, w: Worker) {
    && (w.acking ==> CurrentIndex(w).Some?)
    && forall k, i :: Has(w, k, i) ==> InHand(codec, StreamAt(ss, k), Done(w, k, i), i)
  }

  ghost predicate NoSharing(ws: seq<Worker>) {
    forall v, w, k, i :: 0 <= v < |ws| && 0 <= w < |ws| && Has(ws[v], k, i) && Has(ws[w], k, i) ==> v == w
  }

  ghost predicate Inv(codec: Codec, s: State) {
    && (forall k :: StreamOk(codec, StreamAt(s.streams, k)))
    && (forall w :: 0 <= w < |s.workers| ==> WorkerOk(codec, s.streams, s.workers[w]))
    && NoSharing(s.workers)
  }

  // ----- stream moves

  lemma AppendOk(codec: Codec, st: Stream, payload: string)
    requires StreamOk(codec, st)
    ensures StreamOk(codec, Appended(st, payload))
    ensures forall i :: i in st.pending ==> Undecodable(codec, Appended(st, payload), i) == Undecodable(codec, st, i)
  {
    assert forall i: nat :: i < |st.entries| ==> Undecodable(codec, Appended(st, payload), i) == Undecodable(codec, st, i);
  }

  lemma DeliverOk(codec: Codec, st: Stream)
    requires StreamOk(codec, st) && HasNext(st)
    ensures StreamOk(codec, Delivered(st)) && InHand(codec, Delivered(st), false, st.delivered)
    ensures st.delivered !in st.pending && st.delivered !in st.acked
  {}

  lemma RecordOk(codec: Codec, st: Stream, i: nat, ok: bool)
    requires StreamOk(codec, st) && InHand(codec, st, false, i) && !Undecodable(codec, st, i)
    ensures StreamOk(codec, Recorded(st, i, ok))
    ensures ok ==> InHand(codec, Recorded(st, i, ok), true, i)
    ensures forall h :: h in st.handled ==> h in Recorded(st, i, ok).handled
    ensures forall j: nat :: j != i && !WasHandled(st, j) ==> !WasHandled(Recorded(st, i, ok), j)
  {
    var t := Recorded(st, i, ok);
    assert t.handled[|st.handled|] == Handled(i, ok);
    assert forall j :: 0 <= j < |st.handled| ==> t.handled[j] == st.handled[j] && st.handled[j].index != i;
  }

  lemma AckOk(codec: Codec, st: Stream, i: nat)
    requires StreamOk(codec, st) && InHand(codec, st, true, i)
    ensures StreamOk(codec, Acked(st, i))
  {}

  // ----- what other workers keep

  /** A stream change that keeps, for every entry in hand, all the worker relies on. */
  ghost predicate Keeps(codec: Codec, st: Stream, st': Stream, done: bool, i: nat) {
    InHand(codec, st, done, i) ==> InHand(codec, st', done, i)
  }

  lemma AppendKeeps(codec: Codec, st: Stream, payload: string, done: bool, i: nat)
    requires StreamOk(codec, st)
    ensures Keeps(codec, st, Appended(st, payload), done, i)
  {
    AppendOk(codec, st, payload);
    assert WasHandled(Appended(st, payload), i) == WasHandled(st, i);
  }

  lemma DeliverKeeps(codec: Codec, st: Stream, done: bool, i: nat)
    ensures Keeps(codec, st, Delivered(st), done, i)
  {
    assert WasHandled(Delivered(st), i) == WasHandled(st, i);
  }

  lemma AckKeeps(codec: Codec, st: Stream, x: nat, done: bool, i: nat)
    requires i != x
    ensures Keeps(codec, st, Acked(st, x), done, i)
  {
    assert WasHandled(Acked(st, x), i) == WasHandled(st, i);
  }

  lemma RecordKeeps(codec: Codec, st: Stream, x: nat, ok: bool, done: bool, i: nat)
    requires StreamOk(codec, st) && InHand(codec, st, false, x) && !Undecodable(codec, st, x) && i != x
    ensures Keeps(codec, st, Recorded(st, x, ok), done, i)
  {
    RecordOk(codec, st, x, ok);
  }

  lemma WorkerKept(codec: Codec, ss: Streams, ss': Streams, w: Worker)
    requires WorkerOk(codec, ss, w)
    requires forall k, i :: Has(w, k, i) ==> Keeps(codec, StreamAt(ss, k), StreamAt(ss', k), Done(w, k, i), i)
    ensures WorkerOk(codec, ss', w)
  {}

  // ----- steps

  lemma AppendInv(codec: Codec, s: State, k: StreamKey, payload: string, t: State)
    requires Inv(codec, s) && t.streams == s.streams[k := Appended(StreamAt(s.streams, k), payload)] && t.workers == s.workers
    ensures Inv(codec, t)
  {
    AppendOk(codec, StreamAt(s.streams, k), payload);
    forall x ensures StreamOk(codec, StreamAt(t.streams, x)) {
      assert StreamOk(codec, StreamAt(s.streams, x));
    }
    forall w | 0 <= w < |t.workers| ensures WorkerOk(codec, t.streams, t.workers[w]) {
      forall x, i ensures Keeps(codec, StreamAt(s.streams, x), StreamAt(t.streams, x), Done(t.workers[w], x, i), i) {
        if x == k { AppendKeeps(codec, StreamAt(s.streams, k), payload, Done(t.workers[w], x, i), i); }
      }
      WorkerKept(codec, s.streams, t.streams, t.workers[w]);
    }
  }

  /** Delivering from one stream of a worker's shard. */
  lemma DeliverInv(codec: Codec, s: State, k: StreamKey, w: nat, worker: Worker, t: State)
    requires Inv(codec, s) && w < |s.workers| && HasNext(StreamAt(s.streams, k))
    requires !s.workers[w].acking && !worker.acking
    requires t == s.(streams := s.streams[k := Delivered(StreamAt(s.streams, k))], workers := s.workers[w := worker])
    requires forall x, i :: Has(worker, x, i) <==>
      Has(s.workers[w], x, i) || (x == k && i == StreamAt(s.streams, k).delivered)
    ensures Inv(codec, t)
  {
    var st := StreamAt(s.streams, k);
    DeliverOk(codec, st);
    forall x ensures StreamOk(codec, StreamAt(t.streams, x)) {
      assert StreamOk(codec, StreamAt(s.streams, x));
    }
    forall v, x, i | 0 <= v < |s.workers| && Has(s.workers[v], x, i)
      ensures InHand(codec, StreamAt(t.streams, x), Done(s.workers[v], x, i), i) && !(x == k && i == st.delivered)
    {
      assert InHand(codec, StreamAt(s.streams, x), Done(s.workers[v], x, i), i);
      if x == k { DeliverKeeps(codec, st, Done(s.workers[v], x, i), i); }
    }
    forall v | 0 <= v < |t.workers| ensures WorkerOk(codec, t.streams, t.workers[v]) {
      assert v != w ==> t.workers[v] == s.workers[v];
      assert forall x, i :: !Done(worker, x, i) && !Done(s.workers[w], x, i);
    }
    assert forall v :: 0 <= v < |t.workers| && v != w ==> t.workers[v] == s.workers[v];
  }

  lemma ReadInv(codec: Codec, s: State, w: nat, i: bool, b: bool, t: State)
    requires Inv(codec, s) && WorkStep(codec, s, Read(w, i, b)) == Some(t)
    ensures Inv(codec, t)
  {
    var worker := s.workers[w];
    var ki, kb := StreamKey(worker.shard, INTERACTIVE), StreamKey(worker.shard, BACKGROUND);
    assert INTERACTIVE[0] != BACKGROUND[0];
    var si, sb := StreamAt(s.streams, ki), StreamAt(s.streams, kb);
    var w1 := if i then worker.(interactive := Some(si.delivered)) else worker;
    var m := if i then s.(streams := s.streams[ki := Delivered(si)], workers := s.workers[w := w1]) else s;
    if i { DeliverInv(codec, s, ki, w, w1, m); }
    assert StreamAt(m.streams, kb) == sb;
    if b {
      var w2 := w1.(background := Some(sb.delivered));
      assert m.workers[w := w2] == t.workers;
      DeliverInv(codec, m, kb, w, w2, t);
    } else {
      assert t.workers == m.workers;
    }
  }

  /** A step that changes one worker, which keeps nothing it did not have, and one stream, in a way
      that keeps what everybody else relies on. */
  lemma OneWorkerInv(codec: Codec, s: State, w: nat, worker: Worker, t: State)
    requires Inv(codec, s) && w < |s.workers| && t.workers == s.workers[w := worker]
    requires forall k, i :: Has(worker, k, i) ==> Has(s.workers[w], k, i)
    requires forall k :: StreamOk(codec, StreamAt(t.streams, k))
    requires WorkerOk(codec, t.streams, worker)
    requires forall v, k, i :: 0 <= v < |s.workers| && v != w && Has(s.workers[v], k, i) ==>
      Keeps(codec, StreamAt(s.streams, k), StreamAt(t.streams, k), Done(s.workers[v], k, i), i)
    ensures Inv(codec, t)
  {
    forall v | 0 <= v < |t.workers| ensures WorkerOk(codec, t.streams, t.workers[v]) {
      if v != w {
        assert t.workers[v] == s.workers[v];
        WorkerKept(codec, s.streams, t.streams, s.workers[v]);
      }
    }
    assert forall v :: 0 <= v < |t.workers| && v != w ==> t.workers[v] == s.workers[v];
  }

  lemma CurrentHeld(worker: Worker)
    requires CurrentIndex(worker).Some?
    ensures Has(worker, CurrentKey(worker), CurrentIndex(worker).value)
    ensures forall k, i :: Has(worker, k, i) && k == CurrentKey(worker) ==> i == CurrentIndex(worker).value
    ensures forall k, i :: Has(NextItem(worker), k, i) <==> Has(worker, k, i) && k != CurrentKey(worker)
  {
    assert INTERACTIVE[0] != BACKGROUND[0];
  }

  lemma HandleInv(codec: Codec, s: State, w: nat, ok: bool, t: State)
    requires Inv(codec, s) && WorkStep(codec, s, Handle(w, ok)) == Some(t)
    ensures Inv(codec, t)
  {
    var worker := s.workers[w];
    var k, i := CurrentKey(worker), CurrentIndex(worker).value;
    CurrentHeld(worker);
    var st := StreamAt(s.streams, k);
    assert WorkerOk(codec, s.streams, worker);
    assert !Done(worker, k, i) && InHand(codec, st, false, i);
    if Undecodable(codec, st, i) {
      var next := worker.(acking := true);
      assert WorkerOk(codec, t.streams, next) by {
        forall x, j | Has(next, x, j) ensures InHand(codec, StreamAt(t.streams, x), Done(next, x, j), j) {
          assert Has(worker, x, j);
        }
      }
      OneWorkerInv(codec, s, w, next, t);
    } else {
      RecordOk(codec, st, i, ok);
      var next := if ok then worker.(acking := true) else NextItem(worker);
      forall x ensures StreamOk(codec, StreamAt(t.streams, x)) {
        assert StreamOk(codec, StreamAt(s.streams, x));
      }
      forall v, x, j | 0 <= v < |s.workers| && v != w && Has(s.workers[v], x, j)
        ensures Keeps(codec, StreamAt(s.streams, x), StreamAt(t.streams, x), Done(s.workers[v], x, j), j)
      {
        if x == k { RecordKeeps(codec, st, i, ok, Done(s.workers[v], x, j), j); }
      }
      HandledWorker(codec, s, w, ok, t, next);
      OneWorkerInv(codec, s, w, next, t);
    }
  }

  lemma HandledWorker(codec: Codec, s: State, w: nat, ok: bool, t: State, next: Worker)
    requires Inv(codec, s) && WorkStep(codec, s, Handle(w, ok)) == Some(t)
    requires var st := StreamAt(s.streams, CurrentKey(s.workers[w]));
      !Undecodable(codec, st, CurrentIndex(s.workers[w]).value)
    requires next == if ok then s.workers[w].(acking := true) else NextItem(s.workers[w])
    ensures WorkerOk(codec, t.streams, next)
    ensures forall x, j :: Has(next, x, j) ==> Has(s.workers[w], x, j)
  {
    var worker := s.workers[w];
    var k, i := CurrentKey(worker), CurrentIndex(worker).value;
    CurrentHeld(worker);
    var st := StreamAt(s.streams, k);
    assert WorkerOk(codec, s.streams, worker);
    assert !Done(worker, k, i) && InHand(codec, st, false, i);
    RecordOk(codec, st, i, ok);
    forall x, j | Has(next, x, j) ensures Has(worker, x, j) && InHand(codec, StreamAt(t.streams, x), Done(next, x, j), j) {
      assert Has(worker, x, j);
      assert InHand(codec, StreamAt(s.streams, x), Done(worker, x, j), j);
    }
  }

  lemma AckInv(codec: Codec, s: State, w: nat, up: bool, t: State)
    requires Inv(codec, s) && WorkStep(codec, s, Ack(w, up)) == Some(t)
    ensures Inv(codec, t)
  {
    var worker := s.workers[w];
    var k, i := CurrentKey(worker), CurrentIndex(worker).value;
    CurrentHeld(worker);
    var st := StreamAt(s.streams, k);
    assert WorkerOk(codec, s.streams, worker);
    assert Done(worker, k, i) && InHand(codec, st, true, i);
    AckOk(codec, st, i);
    var next := NextItem(worker);
    forall x ensures StreamOk(codec, StreamAt(t.streams, x)) {
      assert StreamOk(codec, StreamAt(s.streams, x));
    }
    forall v, x, j | 0 <= v < |s.workers| && v != w && Has(s.workers[v], x, j)
      ensures Keeps(codec, StreamAt(s.streams, x), StreamAt(t.streams, x), Done(s.workers[v], x, j), j)
    {
      if x == k { AckKeeps(codec, st, i, Done(s.workers[v], x, j), j); }
    }
    forall x, j | Has(next, x, j) ensures InHand(codec, StreamAt(t.streams, x), Done(next, x, j), j) {
      assert Has(worker, x, j);
    }
    OneWorkerInv(codec, s, w, next, t);
  }

  lemma StartInv(codec: Codec, s: State, shard: nat, t: State)
    requires Inv(codec, s) && WorkStep(codec, s, StartWorker(shard)) == Some(t)
    ensures Inv(codec, t)
  {
    var n := |s.workers|;
    assert forall k, i :: !Has(t.workers[n], k, i);
    assert forall v :: 0 <= v < n ==> t.workers[v] == s.workers[v];
  }

  lemma StepInv(codec: Codec, shards: nat, s: State, e: Event, t: State)
    requires 0 < shards && Inv(codec, s) && Step(codec, shards, s, e) == Some(t)
    ensures Inv(codec, t)
  {
    match e
    case Enq(x) =>
      if x.Append? && x.reply != Down {
        var req := s.calls[x.c].req;
        AppendInv(codec, s, KeyFor(req, shards), codec.marshal(req), t);
      } else {
        assert t.streams == s.streams && t.workers == s.workers;
      }
    case Work(Foreign(k, payload)) => AppendInv(codec, s, k, payload, t);
    case Work(StartWorker(shard)) => StartInv(codec, s, shard, t);
    case Work(Read(w, i, b)) => ReadInv(codec, s, w, i, b, t);
    case Work(Handle(w, ok)) => HandleInv(codec, s, w, ok, t);
    case Work(Ack(w, up)) => AckInv(codec, s, w, up, t);
    case Work(Stop(w)) =>
      var idle := Worker(s.workers[w].shard, None, None, false, true);
      OneWorkerInv(codec, s, w, idle, t);
  }

  /** Over every run with any number of workers per shard: each entry of each stream is exactly one
      of undelivered, pending or acked; it reaches a handler at most once; it is acked only if it is
      undecodable or its handler call succeeded. */
  lemma AtMostOnce(codec: Codec, shards: nat, ss: seq<State>, es: seq<Event>)
    requires 0 < shards && Run(codec, shards, ss, es)
    ensures forall n, k :: 0 <= n <= |es| ==> StreamOk(codec, StreamAt(ss[n].streams, k))
    ensures forall n :: 0 <= n <= |es| ==> Inv(codec, ss[n])
  {
    var n := 0;
    while n < |es|
      invariant 0 <= n <= |es| && forall m :: 0 <= m <= n ==> Inv(codec, ss[m])
    {
      assert Linked(codec, shards, ss, es, n);
      StepInv(codec, shards, ss[n], es[n], ss[n + 1]);
      n := n + 1;
    }
  }

  /** Delivery only moves forward: entries, handler calls and acks are never taken back. */
  ghost predicate Extends(st: Stream, st': Stream) {
    st.entries <= st'.entries && st.delivered <= st'.delivered && st.acked <= st'.acked && st.handled <= st'.handled
  }

  lemma StepExtends(codec: Codec, shards: nat, s: State, e: Event, t: State, k: StreamKey)
    requires 0 < shards && Step(codec, shards, s, e) == Some(t)
    ensures Extends(StreamAt(s.streams, k), StreamAt(t.streams, k))
  {
    if e.Work? && e.work.Read? {
      assert INTERACTIVE[0] != BACKGROUND[0];
    }
  }

  lemma {:induction false} HandledStays(codec: Codec, shards: nat, ss: seq<State>, es: seq<Event>, k: StreamKey,
                                        h: Handled, m: nat, n: nat)
    requires 0 < shards && Run(codec, shards, ss, es) && m <= n <= |es| && h in StreamAt(ss[m].streams, k).handled
    ensures h in StreamAt(ss[n].streams, k).handled
    decreases n
  {
    if m < n {
      HandledStays(codec, shards, ss, es, k, h, m, n - 1);
      assert Linked(codec, shards, ss, es, n - 1);
      HandledStep(codec, shards, ss[n - 1], es[n - 1], ss[n], k, h);
    }
  }

  lemma HandledStep(codec: Codec, shards: nat, s: State, e: Event, t: State, k: StreamKey, h: Handled)
    requires 0 < shards && Step(codec, shards, s, e) == Some(t) && h in StreamAt(s.streams, k).handled
    ensures h in StreamAt(t.streams, k).handled
  {
    StepExtends(codec, shards, s, e, t, k);
    InPrefix(StreamAt(s.streams, k).handled, StreamAt(t.streams, k).handled, h);
  }

  lemma InPrefix(a: seq<Handled>, b: seq<Handled>, h: Handled)
    requires a <= b && h in a
    ensures h in b
  {
    var j :| 0 <= j < |a| && a[j] == h;
    assert b[j] == h;
  }

  lemma FailedStream(codec: Codec, st: Stream, i: nat)
    requires StreamOk(codec, st) && Handled(i, false) in st.handled
    ensures i in st.pending && i !in st.acked
    ensures forall j :: 0 <= j < |st.handled| && st.handled[j].index == i ==> st.handled[j] == Handled(i, false)
  {
    var j :| 0 <= j < |st.handled| && st.handled[j] == Handled(i, false);
    forall l | 0 <= l < |st.handled| && st.handled[l].index == i ensures st.handled[l] == Handled(i, false) {
      assert l == j;
    }
  }

  /** An entry whose handler call failed is lost: in every later state of the run it is still
      pending, never acked, and never handled again, by whatever worker. */
  lemma FailedIsNeverRetried(codec: Codec, shards: nat, ss: seq<State>, es: seq<Event>, k: StreamKey, i: nat,
                             m: nat, n: nat)
    requires 0 < shards && Run(codec, shards, ss, es) && m <= n <= |es|
    requires Handled(i, false) in StreamAt(ss[m].streams, k).handled
    ensures var st := StreamAt(ss[n].streams, k);
      && i in st.pending && i !in st.acked
      && (forall j :: 0 <= j < |st.handled| && st.handled[j].index == i ==> st.handled[j] == Handled(i, false))
  {
    AtMostOnce(codec, shards, ss, es);
    HandledStays(codec, shards, ss, es, k, Handled(i, false), m, n);
    assert StreamOk(codec, StreamAt(ss[n].streams, k));
    FailedStream(codec, StreamAt(ss[n].streams, k), i);
  }
}
