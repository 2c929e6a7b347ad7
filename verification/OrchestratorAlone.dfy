/** The undisturbed Enqueue and worker turn of Orchestrator.Broker are runs of the steps that
    OrchestratorRuns interleaves; and why order needs one worker. */
module OrchestratorAlone {
  import opened Wrappers
  import opened Orchestrator
  import opened OrchestratorRuns

  /** The events lead from one state to another. */
  ghost predicate Leads(codec: Codec, shards: nat, s: State, es: seq<Event>, t: State)
    requires 0 < shards
    decreases |es|
  {
    if es == [] then t == s
    else Step(codec, shards, s, es[0]).Some? && Leads(codec, shards, Step(codec, shards, s, es[0]).value, es[1..], t)
  }

  lemma LeadsOne(codec: Codec, shards: nat, s: State, e: Event, m: State, es: seq<Event>, t: State)
    requires 0 < shards && Step(codec, shards, s, e) == Some(m) && Leads(codec, shards, m, es, t)
    ensures Leads(codec, shards, s, [e] + es, t)
  {
    assert ([e] + es)[1..] == es;
  }

  lemma {:induction false} LeadsOn(codec: Codec, shards: nat, s: State, es: seq<Event>, m: State, fs: seq<Event>,
                                   t: State)
    requires 0 < shards && Leads(codec, shards, s, es, m) && Leads(codec, shards, m, fs, t)
    ensures Leads(codec, shards, s, es + fs, t)
    decreases |es|
  {
    if es == [] {
      assert es + fs == fs;
    } else {
      var e, next := es[0], Step(codec, shards, s, es[0]).value;
      assert Leads(codec, shards, next, es[1..] + fs, t) by {
        LeadsOn(codec, shards, next, es[1..], m, fs, t);
      }
      LeadsOne(codec, shards, s, e, next, es[1..] + fs, t);
      assert [e] + (es[1..] + fs) == es + fs;
    }
  }

  /** Enqueue alone is its own steps in a row, of the request with its enqueue time filled in. */
  lemma EnqueueAlone(codec: Codec, shards: nat, s: State, given: Request, now: int, budgetOk: bool, up: bool)
    returns (es: seq<Event>, t: State, r: Option<string>)
    requires 0 < shards
    ensures Leads(codec, shards, s, es, t) && t.calls == s.calls + [Returned(Stamped(given, now), r)] && t.workers == s.workers
    ensures Enqueued(codec, shards, s.streams, s.claims, given, now, budgetOk, up, t.streams, t.claims, r)
    ensures budgetOk && up && given.idemKey == "" ==> t.enqueued == s.enqueued + [Stamped(given, now)]
  {
    var req := Stamped(given, now);
    var c := |s.calls|;
    var begin := Enq(Begin(req, budgetOk));
    var s1 := Step(codec, shards, s, begin).value;
    if !budgetOk {
      es, t, r := [begin], s1, None;
      LeadsOne(codec, shards, s, begin, s1, [], t);
    } else if req.idemKey == "" {
      es, t, r := AppendAlone(codec, shards, s1, c, req, up);
      LeadsOne(codec, shards, s, begin, s1, es, t);
      es := [begin] + es;
      assert t.calls == s.calls + [Returned(req, r)];
    } else {
      var claim := Enq(Claim(c, Up));
      var s2 := Step(codec, shards, s1, claim).value;
      if req.idemKey in s.claims {
        var read := Enq(ReadClaim(c, true));
        t, r := Step(codec, shards, s2, read).value, Some(s.claims[req.idemKey]);
        LeadsOne(codec, shards, s2, read, t, [], t);
        es := [read] + [];
      } else {
        es, t, r := AppendAlone(codec, shards, s2, c, req, up);
      }
      LeadsOne(codec, shards, s1, claim, s2, es, t);
      LeadsOne(codec, shards, s, begin, s1, [claim] + es, t);
      es := [begin] + ([claim] + es);
      assert t.calls == s.calls + [Returned(req, r)];
    }
  }

  lemma AppendAlone(codec: Codec, shards: nat, s: State, c: nat, req: Request, up: bool)
    returns (es: seq<Event>, t: State, r: Option<string>)
    requires 0 < shards && c < |s.calls| && s.calls[c] == Owning(req)
    ensures Leads(codec, shards, s, es, t) && t.calls == s.calls[c := Returned(req, r)] && t.workers == s.workers
    ensures t.enqueued == if up then s.enqueued + [req] else s.enqueued
    ensures t.claims == s.claims && r == (if up then Some(req.runId) else None)
    ensures var k := KeyFor(req, shards);
      t.streams == if up then s.streams[k := Appended(StreamAt(s.streams, k), codec.marshal(req))] else s.streams
  {
    var append := Enq(Append(c, if up then Up else Down));
    t, r := Step(codec, shards, s, append).value, if up then Some(req.runId) else None;
    LeadsOne(codec, shards, s, append, t, [], t);
    es := [append] + [];
  }

  /** One delivered entry: handled, and acked if it should be. */
  lemma ItemAlone(codec: Codec, shards: nat, s: State, w: nat, handle: Request -> bool)
    returns (es: seq<Event>, t: State)
    requires 0 < shards && w < |s.workers| && !s.workers[w].acking && CurrentIndex(s.workers[w]).Some?
    requires CurrentIndex(s.workers[w]).value < |StreamAt(s.streams, CurrentKey(s.workers[w])).entries|
    ensures Leads(codec, shards, s, es, t)
    ensures var worker := s.workers[w];
      var k := CurrentKey(worker);
      && t.workers == s.workers[w := NextItem(worker)]
      && t.streams == s.streams[k := Processed(codec, StreamAt(s.streams, k), CurrentIndex(worker).value, handle)]
  {
    var worker := s.workers[w];
    var k, i := CurrentKey(worker), CurrentIndex(worker).value;
    var st := StreamAt(s.streams, k);
    var req := codec.unmarshal(st.entries[i]);
    var ok := req.Some? && handle(req.value);
    var e := Work(Handle(w, ok));
    var m := Step(codec, shards, s, e).value;
    if req.Some? && !ok {
      t := m;
      LeadsOne(codec, shards, s, e, m, [], t);
      es := [e] + [];
    } else {
      var ack := Work(Ack(w, true));
      t := Step(codec, shards, m, ack).value;
      LeadsOne(codec, shards, m, ack, t, [], t);
      LeadsOne(codec, shards, s, e, m, [ack] + [], t);
      es := [e] + ([ack] + []);
    }
  }

  /** A worker turn alone is its own steps in a row. */
  lemma TurnAlone(codec: Codec, shards: nat, s: State, w: nat, read: set<StreamKey>, handle: Request -> bool)
    returns (es: seq<Event>, t: State)
    requires 0 < shards && w < |s.workers| && Idle(s.workers[w]) && !s.workers[w].stopped
    requires Offers(s.streams, s.workers[w].shard, read)
    ensures Leads(codec, shards, s, es, t) && t.workers == s.workers
    ensures forall k :: StreamAt(t.streams, k) == TurnedIf(codec, s.streams, k, k in read, handle)
  {
    assert INTERACTIVE[0] != BACKGROUND[0];
    var ki, kb := StreamKey(s.workers[w].shard, INTERACTIVE), StreamKey(s.workers[w].shard, BACKGROUND);
    var e := Work(Read(w, ki in read, kb in read));
    var s1 := Step(codec, shards, s, e).value;
    es, t := [], s1;
    if ki in read {
      es, t := ItemAlone(codec, shards, s1, w, handle);
    }
    var s2 := t;
    assert StreamAt(s2.streams, kb) == StreamAt(s1.streams, kb);
    if kb in read {
      var fs, t' := ItemAlone(codec, shards, s2, w, handle);
      LeadsOn(codec, shards, s1, es, s2, fs, t');
      es, t := es + fs, t';
    }
    LeadsOne(codec, shards, s, e, s1, es, t);
    es := [e] + es;
    assert t.workers == s.workers;
  }

  // ----- two workers

  /** Two fresh workers each take one of the first two entries. */
  lemma TwoReads(codec: Codec, shards: nat, s: State, k: StreamKey) returns (es: seq<Event>, t: State)
    requires 0 < shards && s.workers == [] && k.priority == INTERACTIVE
    requires StreamAt(s.streams, k).delivered == 0 && |StreamAt(s.streams, k).entries| == 2
    ensures Leads(codec, shards, s, es, t) && t.enqueued == s.enqueued
    ensures t.workers == [Worker(k.shard, Some(0), None, false, false), Worker(k.shard, Some(1), None, false, false)]
    ensures StreamAt(t.streams, k) == Delivered(Delivered(StreamAt(s.streams, k)))
  {
    var idle := Worker(k.shard, None, None, false, false);
    var start := Work(StartWorker(k.shard));
    var s1 := s.(workers := [idle]);
    var s2 := s.(workers := [idle, idle]);
    assert [] + [idle] == [idle] && [idle] + [idle] == [idle, idle];
    var r0, r1 := Work(Read(0, true, false)), Work(Read(1, true, false));
    var s3 := Step(codec, shards, s2, r0).value;
    assert s3.workers == [Worker(k.shard, Some(0), None, false, false), idle];
    t := Step(codec, shards, s3, r1).value;
    LeadsOne(codec, shards, s3, r1, t, [], t);
    LeadsOne(codec, shards, s2, r0, s3, [r1] + [], t);
    es := [r0] + ([r1] + []);
    LeadsOne(codec, shards, s1, start, s2, es, t);
    LeadsOne(codec, shards, s, start, s1, [start] + es, t);
    es := [start] + ([start] + es);
  }

  /** The second worker is the faster one. */
  lemma TwoHandles(codec: Codec, shards: nat, s: State, k: StreamKey) returns (es: seq<Event>, t: State)
    requires 0 < shards && k.priority == INTERACTIVE
    requires s.workers == [Worker(k.shard, Some(0), None, false, false), Worker(k.shard, Some(1), None, false, false)]
    requires var st := StreamAt(s.streams, k);
      |st.entries| == 2 && codec.unmarshal(st.entries[0]).Some? && codec.unmarshal(st.entries[1]).Some?
    ensures Leads(codec, shards, s, es, t) && t.enqueued == s.enqueued && |t.workers| == 2
    ensures StreamAt(t.streams, k) == Recorded(Recorded(StreamAt(s.streams, k), 1, true), 0, true)
  {
    var h1, h0 := Work(Handle(1, true)), Work(Handle(0, true));
    var m := Step(codec, shards, s, h1).value;
    assert m.workers[0] == s.workers[0] && StreamAt(m.streams, k) == Recorded(StreamAt(s.streams, k), 1, true);
    t := Step(codec, shards, m, h0).value;
    LeadsOne(codec, shards, m, h0, t, [], t);
    LeadsOne(codec, shards, s, h1, m, [h0] + [], t);
    es := [h1] + ([h0] + []);
  }

  /** Two workers on one shard can hand a user's runs over in the wrong order: enqueued a then b,
      handled b then a. */
  lemma TwoWorkersReorder(codec: Codec, shards: nat, a: Request, b: Request) returns (es: seq<Event>, t: State)
    requires 0 < shards && Lawful(codec) && a.userId == b.userId && a.idemKey == b.idemKey == ""
    requires a.priority == b.priority == INTERACTIVE
    ensures Leads(codec, shards, Initial, es, t) && t.enqueued == [a, b] && |t.workers| == 2
    ensures var st := StreamAt(t.streams, KeyFor(a, shards));
      st.entries == [codec.marshal(a), codec.marshal(b)] && st.handled == [Handled(1, true), Handled(0, true)]
  {
    var k := KeyFor(a, shards);
    var ea, sa, ra := EnqueueAlone(codec, shards, Initial, a, a.enqueuedAt, true, true);
    var eb, sb, rb := EnqueueAlone(codec, shards, sa, b, b.enqueuedAt, true, true);
    assert StreamAt(sb.streams, k).entries == [codec.marshal(a), codec.marshal(b)];
    assert sb.enqueued == [a, b];
    var er, sr := TwoReads(codec, shards, sb, k);
    var eh, sh := TwoHandles(codec, shards, sr, k);
    LeadsOn(codec, shards, Initial, ea, sa, eb, sb);
    LeadsOn(codec, shards, Initial, ea + eb, sb, er, sr);
    LeadsOn(codec, shards, Initial, ea + eb + er, sr, eh, sh);
    es, t := ea + eb + er + eh, sh;
  }
}
