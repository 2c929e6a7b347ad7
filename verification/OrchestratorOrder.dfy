/** Per-user order: with one worker per shard, handler calls follow enqueue order. */
module OrchestratorOrder {
  import opened Wrappers
  import opened Orchestrator
  import opened OrchestratorRuns
  import opened OrchestratorDelivery

  // ----- what a stream says, and what was enqueued

  function Decoded(codec: Codec, entries: seq<string>): seq<Request> {
    if entries == [] then [] else
      var r := codec.unmarshal(entries[|entries| - 1]);
      Decoded(codec, entries[..|entries| - 1]) + if r.Some? then [r.value] else []
  }

  /** The enqueued requests that belong in stream k. */
  function On(reqs: seq<Request>, shards: nat, k: StreamKey): seq<Request>
    requires 0 < shards
  {
    if reqs == [] then [] else
      var r := reqs[|reqs| - 1];
      On(reqs[..|reqs| - 1], shards, k) + if KeyFor(r, shards) == k then [r] else []
  }

  /** The requests of one user at one priority. */
  function Of(reqs: seq<Request>, user: UserId, priority: string): seq<Request> {
    if reqs == [] then [] else
      var r := reqs[|reqs| - 1];
      Of(reqs[..|reqs| - 1], user, priority) + if r.userId == user && r.priority == priority then [r] else []
  }

  /** The requests handed to the handler, in call order. */
  function Calls(codec: Codec, entries: seq<string>, handled: seq<Handled>): seq<Request>
    requires forall j :: 0 <= j < |handled| ==>
      handled[j].index < |entries| && codec.unmarshal(entries[handled[j].index]).Some?
  {
    if handled == [] then [] else
      Calls(codec, entries, handled[..|handled| - 1]) + [codec.unmarshal(entries[handled[|handled| - 1].index]).value]
  }

  lemma DecodedPush(codec: Codec, entries: seq<string>, x: string)
    ensures Decoded(codec, entries + [x]) ==
      Decoded(codec, entries) + if codec.unmarshal(x).Some? then [codec.unmarshal(x).value] else []
  {
    assert (entries + [x])[..|entries|] == entries;
  }

  lemma OnPush(reqs: seq<Request>, shards: nat, k: StreamKey, r: Request)
    requires 0 < shards
    ensures On(reqs + [r], shards, k) == On(reqs, shards, k) + if KeyFor(r, shards) == k then [r] else []
  {
    assert (reqs + [r])[..|reqs|] == reqs;
  }

  lemma {:induction false} CallsAppended(codec: Codec, entries: seq<string>, more: seq<string>, handled: seq<Handled>)
    requires forall j :: 0 <= j < |handled| ==>
      handled[j].index < |entries| && codec.unmarshal(entries[handled[j].index]).Some?
    ensures Calls(codec, entries + more, handled) == Calls(codec, entries, handled)
  {
    if handled != [] { CallsAppended(codec, entries, more, handled[..|handled| - 1]); }
  }

  lemma {:induction false} DecodedPrefix(codec: Codec, entries: seq<string>, n: nat)
    requires n <= |entries|
    ensures Decoded(codec, entries[..n]) <= Decoded(codec, entries)
    decreases |entries|
  {
    if n == |entries| {
      assert entries[..n] == entries;
    } else {
      var m := |entries| - 1;
      DecodedPrefix(codec, entries[..m], n);
      assert entries[..m][..n] == entries[..n];
    }
  }

  lemma {:induction false} OfPrefix(a: seq<Request>, b: seq<Request>, user: UserId, priority: string)
    requires a <= b
    ensures Of(a, user, priority) <= Of(b, user, priority)
    decreases |b|
  {
    if a != b {
      OfPrefix(a, b[..|b| - 1], user, priority);
    }
  }

  /** The stream of a user and priority carries all of that user's requests at that priority. */
  lemma {:induction false} OfOn(reqs: seq<Request>, shards: nat, user: UserId, priority: string)
    requires 0 < shards
    ensures Of(On(reqs, shards, StreamKey(ShardOf(user, shards), priority)), user, priority) == Of(reqs, user, priority)
  {
    var k := StreamKey(ShardOf(user, shards), priority);
    if reqs != [] {
      var init, r := reqs[..|reqs| - 1], reqs[|reqs| - 1];
      OfOn(init, shards, user, priority);
      var on := On(init, shards, k);
      assert KeyFor(r, shards) == k ==> (on + [r])[..|on|] == on;
      assert KeyFor(r, shards) != k ==> on + [] == on;
    }
  }

  // ----- every stream decodes to what Enqueue appended to it

  ghost predicate Carries(codec: Codec, shards: nat, s: State, k: StreamKey)
    requires 0 < shards
  {
    Decoded(codec, StreamAt(s.streams, k).entries) == On(s.enqueued, shards, k)
  }

  lemma EntriesUnchanged(codec: Codec, s: State, e: WorkEvent, t: State, k: StreamKey)
    requires WorkStep(codec, s, e) == Some(t) && !e.Foreign?
    ensures StreamAt(t.streams, k).entries == StreamAt(s.streams, k).entries && t.enqueued == s.enqueued
  {
    if e.Read? {
      assert INTERACTIVE[0] != BACKGROUND[0];
    }
  }

  lemma EnqFrame(codec: Codec, shards: nat, s: State, e: EnqEvent, t: State)
    requires 0 < shards && EnqStep(codec, shards, s, e) == Some(t)
    ensures t.workers == s.workers
    ensures !e.Append? || e.reply == Down ==> t.streams == s.streams && t.enqueued == s.enqueued
    ensures e.Append? && e.reply != Down ==> e.c < |s.calls| && t.enqueued == s.enqueued + [s.calls[e.c].req]
    ensures e.Append? && e.reply != Down ==> var req := s.calls[e.c].req;
      t.streams == s.streams[KeyFor(req, shards) := Appended(StreamAt(s.streams, KeyFor(req, shards)), codec.marshal(req))]
  {}

  lemma CarriesAppend(codec: Codec, shards: nat, s: State, req: Request, t: State, k: StreamKey)
    requires 0 < shards && Lawful(codec) && Carries(codec, shards, s, k)
    requires t.enqueued == s.enqueued + [req]
    requires StreamAt(t.streams, k) ==
      if KeyFor(req, shards) == k then Appended(StreamAt(s.streams, k), codec.marshal(req)) else StreamAt(s.streams, k)
    ensures Carries(codec, shards, t, k)
  {
    OnPush(s.enqueued, shards, k, req);
    DecodedPush(codec, StreamAt(s.streams, k).entries, codec.marshal(req));
    assert codec.unmarshal(codec.marshal(req)) == Some(req);
  }

  lemma CarriesForeign(codec: Codec, shards: nat, s: State, x: StreamKey, payload: string, t: State, k: StreamKey)
    requires 0 < shards && Carries(codec, shards, s, k) && WorkStep(codec, s, Foreign(x, payload)) == Some(t)
    ensures Carries(codec, shards, t, k)
  {
    DecodedPush(codec, StreamAt(s.streams, k).entries, payload);
  }

  lemma CarriesStep(codec: Codec, shards: nat, s: State, e: Event, t: State, k: StreamKey)
    requires 0 < shards && Lawful(codec) && Carries(codec, shards, s, k) && Step(codec, shards, s, e) == Some(t)
    ensures Carries(codec, shards, t, k)
  {
    match e
    case Enq(x) =>
      EnqFrame(codec, shards, s, x, t);
      if x.Append? && x.reply != Down {
        CarriesAppend(codec, shards, s, s.calls[x.c].req, t, k);
      }
    case Work(x) =>
      if x.Foreign? {
        CarriesForeign(codec, shards, s, x.k, x.payload, t, k);
      } else {
        EntriesUnchanged(codec, s, x, t, k);
      }
  }

  // ----- one worker per shard

  /** The entry of stream k the worker has still to put through the handler. */
  function Todo(w: Worker, k: StreamKey): Option<nat> {
    if k == StreamKey(w.shard, INTERACTIVE) then if w.acking then None else w.interactive
    else if k == StreamKey(w.shard, BACKGROUND) then if w.acking && w.interactive.None? then None else w.background
    else None
  }

  ghost predicate OneWorker(s: State, shard: nat) {
    forall v, w :: 0 <= v < w < |s.workers| ==> s.workers[v].shard != shard || s.workers[w].shard != shard
  }

  /** A live worker of the shard has handled everything delivered but what it has to do. */
  ghost predicate UpTo(w: Worker, k: StreamKey, delivered: nat, done: nat) {
    w.shard == k.shard && !w.stopped ==>
      match Todo(w, k)
      case Some(i) => i == done && delivered == done + 1
      case None => delivered == done
  }

  /** The handler saw exactly the decodable ones of the first `done` entries, in order. */
  ghost predicate Front(codec: Codec, s: State, k: StreamKey, done: nat) {
    var st := StreamAt(s.streams, k);
    && StreamOk(codec, st)
    && done <= st.delivered
    && Calls(codec, st.entries, st.handled) == Decoded(codec, st.entries[..done])
    && (forall w :: 0 <= w < |s.workers| ==> UpTo(s.workers[w], k, st.delivered, done))
    && ((forall w :: 0 <= w < |s.workers| ==> s.workers[w].shard != k.shard) ==> st.delivered == 0)
  }

  lemma FrontAppend(codec: Codec, s: State, k: StreamKey, done: nat, payload: string, t: State)
    requires Front(codec, s, k, done) && t.workers == s.workers
    requires StreamAt(t.streams, k) == Appended(StreamAt(s.streams, k), payload)
    ensures Front(codec, t, k, done)
  {
    var st := StreamAt(s.streams, k);
    AppendOk(codec, st, payload);
    CallsAppended(codec, st.entries, [payload], st.handled);
    assert (st.entries + [payload])[..done] == st.entries[..done];
  }

  /** A read takes the next entry of a stream of its shard into hand, or leaves the stream alone. */
  lemma ReadMoves(codec: Codec, s: State, k: StreamKey, w: nat, i: bool, b: bool, t: State)
    requires WorkStep(codec, s, Read(w, i, b)) == Some(t)
    ensures t.workers == s.workers[w := t.workers[w]] && t.workers[w].shard == s.workers[w].shard
    ensures Todo(s.workers[w], k).None? && !s.workers[w].stopped && !t.workers[w].stopped
    ensures StreamAt(t.streams, k).handled == StreamAt(s.streams, k).handled
    ensures StreamAt(t.streams, k).entries == StreamAt(s.streams, k).entries
    ensures
      || (StreamAt(t.streams, k) == StreamAt(s.streams, k) && Todo(t.workers[w], k).None?)
      || (StreamAt(t.streams, k) == Delivered(StreamAt(s.streams, k)) && s.workers[w].shard == k.shard
          && Todo(t.workers[w], k) == Some(StreamAt(s.streams, k).delivered))
  {
    assert INTERACTIVE[0] != BACKGROUND[0];
  }

  lemma FrontRead(codec: Codec, s: State, k: StreamKey, done: nat, w: nat, i: bool, b: bool, t: State)
    requires Front(codec, s, k, done) && OneWorker(s, k.shard) && StreamOk(codec, StreamAt(t.streams, k))
    requires WorkStep(codec, s, Read(w, i, b)) == Some(t)
    ensures Front(codec, t, k, done)
  {
    ReadMoves(codec, s, k, w, i, b, t);
    FrontTakes(codec, s, k, done, w, t);
  }

  lemma FrontTakes(codec: Codec, s: State, k: StreamKey, done: nat, w: nat, t: State)
    requires Front(codec, s, k, done) && OneWorker(s, k.shard) && StreamOk(codec, StreamAt(t.streams, k))
    requires w < |s.workers| == |t.workers| && t.workers == s.workers[w := t.workers[w]]
    requires t.workers[w].shard == s.workers[w].shard && !s.workers[w].stopped && Todo(s.workers[w], k).None?
    requires var st, st' := StreamAt(s.streams, k), StreamAt(t.streams, k);
      && st'.handled == st.handled && st'.entries == st.entries
      && (|| (st' == st && Todo(t.workers[w], k).None?)
          || (st'.delivered == st.delivered + 1 && s.workers[w].shard == k.shard
              && Todo(t.workers[w], k) == Some(st.delivered)))
    ensures Front(codec, t, k, done)
  {
    var st, st' := StreamAt(s.streams, k), StreamAt(t.streams, k);
    assert UpTo(s.workers[w], k, st.delivered, done);
    forall v | 0 <= v < |t.workers| ensures UpTo(t.workers[v], k, st'.delivered, done) {
      if v != w {
        assert t.workers[v] == s.workers[v];
        assert UpTo(s.workers[v], k, st.delivered, done);
      }
    }
    assert forall v :: 0 <= v < |s.workers| ==> t.workers[v].shard == s.workers[v].shard;
  }

  /** Others than the worker at work are on other shards. */
  lemma FrontOthers(codec: Codec, s: State, k: StreamKey, done: nat, w: nat, worker: Worker, t: State, done': nat)
    requires Front(codec, s, k, done) && OneWorker(s, k.shard) && w < |s.workers|
    requires t.workers == s.workers[w := worker] && worker.shard == s.workers[w].shard
    requires var st, st' := StreamAt(s.streams, k), StreamAt(t.streams, k);
      && StreamOk(codec, st') && st'.delivered == st.delivered && st'.entries == st.entries && done' <= st.delivered
      && Calls(codec, st'.entries, st'.handled) == Decoded(codec, st'.entries[..done'])
      && UpTo(worker, k, st'.delivered, done')
      && (s.workers[w].shard != k.shard ==> done' == done)
    ensures Front(codec, t, k, done')
  {
    var st' := StreamAt(t.streams, k);
    forall v | 0 <= v < |t.workers| ensures UpTo(t.workers[v], k, st'.delivered, done') {
      if v != w {
        assert t.workers[v] == s.workers[v];
        assert UpTo(s.workers[v], k, st'.delivered, done);
      }
    }
    assert forall v :: 0 <= v < |s.workers| ==> t.workers[v].shard == s.workers[v].shard;
  }

  /** The handler call for entry `done`, or the decision that it needs none. */
  lemma CallsNext(codec: Codec, st: Stream, done: nat, st': Stream, ok: bool)
    requires StreamOk(codec, st) && StreamOk(codec, st') && done < |st.entries|
    requires Calls(codec, st.entries, st.handled) == Decoded(codec, st.entries[..done])
    requires st' == if codec.unmarshal(st.entries[done]).None? then st else Recorded(st, done, ok)
    ensures Calls(codec, st'.entries, st'.handled) == Decoded(codec, st'.entries[..done + 1])
  {
    assert st.entries[..done + 1] == st.entries[..done] + [st.entries[done]];
    DecodedPush(codec, st.entries[..done], st.entries[done]);
    if codec.unmarshal(st.entries[done]).Some? {
      assert st'.handled[..|st.handled|] == st.handled;
    }
  }

  lemma HandleMoves(codec: Codec, s: State, k: StreamKey, w: nat, ok: bool, t: State)
    requires WorkStep(codec, s, Handle(w, ok)) == Some(t)
    ensures t.workers == s.workers[w := t.workers[w]] && t.workers[w].shard == s.workers[w].shard
    ensures k != CurrentKey(s.workers[w]) ==>
      StreamAt(t.streams, k) == StreamAt(s.streams, k) && Todo(t.workers[w], k) == Todo(s.workers[w], k)
    ensures k == CurrentKey(s.workers[w]) ==>
      && Todo(s.workers[w], k) == CurrentIndex(s.workers[w]) && Todo(t.workers[w], k).None?
      && var st, i := StreamAt(s.streams, k), CurrentIndex(s.workers[w]).value;
      i < |st.entries| && StreamAt(t.streams, k) == if codec.unmarshal(st.entries[i]).None? then st else Recorded(st, i, ok)
    ensures t.workers[w].stopped == s.workers[w].stopped
  {
    assert INTERACTIVE[0] != BACKGROUND[0];
  }

  lemma FrontHandle(codec: Codec, s: State, k: StreamKey, done: nat, w: nat, ok: bool, t: State) returns (done': nat)
    requires Front(codec, s, k, done) && OneWorker(s, k.shard) && StreamOk(codec, StreamAt(t.streams, k))
    requires WorkStep(codec, s, Handle(w, ok)) == Some(t) && !s.workers[w].stopped
    ensures Front(codec, t, k, done')
  {
    HandleMoves(codec, s, k, w, ok, t);
    var st := StreamAt(s.streams, k);
    assert UpTo(s.workers[w], k, st.delivered, done);
    done' := done;
    if k == CurrentKey(s.workers[w]) {
      CallsNext(codec, st, done, StreamAt(t.streams, k), ok);
      done' := done + 1;
    }
    FrontOthers(codec, s, k, done, w, t.workers[w], t, done');
  }

  lemma FrontAck(codec: Codec, s: State, k: StreamKey, done: nat, w: nat, up: bool, t: State)
    requires Front(codec, s, k, done) && OneWorker(s, k.shard) && StreamOk(codec, StreamAt(t.streams, k))
    requires WorkStep(codec, s, Ack(w, up)) == Some(t)
    ensures Front(codec, t, k, done)
  {
    assert INTERACTIVE[0] != BACKGROUND[0];
    assert UpTo(s.workers[w], k, StreamAt(s.streams, k).delivered, done);
    FrontOthers(codec, s, k, done, w, t.workers[w], t, done);
  }

  lemma FrontStart(codec: Codec, s: State, k: StreamKey, done: nat, shard: nat, t: State)
    requires Front(codec, s, k, done) && OneWorker(t, k.shard)
    requires WorkStep(codec, s, StartWorker(shard)) == Some(t)
    ensures Front(codec, t, k, done)
  {
    var n := |s.workers|;
    assert forall v :: 0 <= v < n ==> t.workers[v] == s.workers[v];
    assert t.workers[n] == Worker(shard, None, None, false, false);
    if shard == k.shard {
      assert forall v :: 0 <= v < n ==> s.workers[v].shard != k.shard by {
        forall v | 0 <= v < n ensures s.workers[v].shard != k.shard {
          assert t.workers[v].shard == k.shard ==> v == n;
        }
      }
    }
  }

  /** A stopped worker holds nothing, so it handles nothing. */
  ghost predicate StoppedIdle(s: State) {
    forall w :: 0 <= w < |s.workers| && s.workers[w].stopped ==> Idle(s.workers[w])
  }

  lemma StoppedIdleWork(codec: Codec, s: State, e: WorkEvent, t: State)
    requires StoppedIdle(s) && WorkStep(codec, s, e) == Some(t)
    ensures StoppedIdle(t)
  {
    match e
    case Foreign(_, _) =>
    case StartWorker(_) => assert forall v :: 0 <= v < |s.workers| ==> t.workers[v] == s.workers[v];
    case Read(w, _, _) => assert forall v :: 0 <= v < |s.workers| && v != w ==> t.workers[v] == s.workers[v];
    case Handle(w, _) => assert forall v :: 0 <= v < |s.workers| && v != w ==> t.workers[v] == s.workers[v];
    case Ack(w, _) => assert forall v :: 0 <= v < |s.workers| && v != w ==> t.workers[v] == s.workers[v];
    case Stop(w) => assert forall v :: 0 <= v < |s.workers| && v != w ==> t.workers[v] == s.workers[v];
  }

  lemma StoppedIdleStep(codec: Codec, shards: nat, s: State, e: Event, t: State)
    requires 0 < shards && StoppedIdle(s) && Step(codec, shards, s, e) == Some(t)
    ensures StoppedIdle(t)
  {
    match e
    case Enq(x) => EnqFrame(codec, shards, s, x, t);
    case Work(x) => StoppedIdleWork(codec, s, x, t);
  }

  lemma FrontEnq(codec: Codec, shards: nat, s: State, e: EnqEvent, t: State, k: StreamKey, done: nat)
    requires 0 < shards && EnqStep(codec, shards, s, e) == Some(t) && Front(codec, s, k, done)
    ensures Front(codec, t, k, done)
  {
    EnqFrame(codec, shards, s, e, t);
    if e.Append? && e.reply != Down && KeyFor(s.calls[e.c].req, shards) == k {
      FrontAppend(codec, s, k, done, codec.marshal(s.calls[e.c].req), t);
    } else {
      assert StreamAt(t.streams, k) == StreamAt(s.streams, k);
    }
  }

  lemma FrontStop(codec: Codec, s: State, k: StreamKey, done: nat, w: nat, t: State)
    requires Front(codec, s, k, done) && OneWorker(s, k.shard) && WorkStep(codec, s, Stop(w)) == Some(t)
    ensures Front(codec, t, k, done)
  {
    FrontOthers(codec, s, k, done, w, t.workers[w], t, done);
  }

  lemma FrontWork(codec: Codec, s: State, e: WorkEvent, t: State, k: StreamKey, done: nat) returns (done': nat)
    requires WorkStep(codec, s, e) == Some(t)
    requires Front(codec, s, k, done) && OneWorker(s, k.shard) && OneWorker(t, k.shard) && StoppedIdle(s)
    requires StreamOk(codec, StreamAt(t.streams, k))
    ensures Front(codec, t, k, done')
  {
    done' := done;
    match e
    case Foreign(x, payload) =>
      if x == k {
        FrontAppend(codec, s, k, done, payload, t);
      } else {
        assert StreamAt(t.streams, k) == StreamAt(s.streams, k) && t.workers == s.workers;
      }
    case StartWorker(shard) => FrontStart(codec, s, k, done, shard, t);
    case Read(w, i, b) => FrontRead(codec, s, k, done, w, i, b, t);
    case Handle(w, ok) => done' := FrontHandle(codec, s, k, done, w, ok, t);
    case Ack(w, up) => FrontAck(codec, s, k, done, w, up, t);
    case Stop(w) => FrontStop(codec, s, k, done, w, t);
  }

  lemma FrontStep(codec: Codec, shards: nat, s: State, e: Event, t: State, k: StreamKey, done: nat) returns (done': nat)
    requires 0 < shards && Step(codec, shards, s, e) == Some(t)
    requires Front(codec, s, k, done) && OneWorker(s, k.shard) && OneWorker(t, k.shard) && StoppedIdle(s)
    requires StreamOk(codec, StreamAt(t.streams, k))
    ensures Front(codec, t, k, done')
  {
    done' := done;
    match e
    case Enq(x) => FrontEnq(codec, shards, s, x, t, k, done);
    case Work(x) => done' := FrontWork(codec, s, x, t, k, done);
  }

  /** With at most one worker ever on a user's shard, in every state of every run the handler calls
      for that user at a priority are a prefix of the user's enqueues at that priority: in order,
      none skipped, none repeated; whatever other users, foreign entries and lost replies do. */
  lemma UserOrder(codec: Codec, shards: nat, ss: seq<State>, es: seq<Event>, user: UserId, priority: string)
    requires 0 < shards && Lawful(codec) && Run(codec, shards, ss, es)
    requires forall n :: 0 <= n <= |es| ==> OneWorker(ss[n], ShardOf(user, shards))
    ensures var s := ss[|es|];
      var st := StreamAt(s.streams, StreamKey(ShardOf(user, shards), priority));
      && StreamOk(codec, st)
      && Of(Calls(codec, st.entries, st.handled), user, priority) <= Of(s.enqueued, user, priority)
  {
    var k := StreamKey(ShardOf(user, shards), priority);
    AtMostOnce(codec, shards, ss, es);
    var n, done := 0, 0;
    while n < |es|
      invariant 0 <= n <= |es| && StoppedIdle(ss[n])
      invariant Front(codec, ss[n], k, done) && Carries(codec, shards, ss[n], k)
    {
      assert Linked(codec, shards, ss, es, n);
      CarriesStep(codec, shards, ss[n], es[n], ss[n + 1], k);
      StoppedIdleStep(codec, shards, ss[n], es[n], ss[n + 1]);
      done := FrontStep(codec, shards, ss[n], es[n], ss[n + 1], k, done);
      n := n + 1;
    }
    var st := StreamAt(ss[n].streams, k);
    DecodedPrefix(codec, st.entries, done);
    OfPrefix(Calls(codec, st.entries, st.handled), On(ss[n].enqueued, shards, k), user, priority);
    OfOn(ss[n].enqueued, shards, user, priority);
  }
}
