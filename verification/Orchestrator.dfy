/** Run scheduling (internal/orchestrator/orchestrator.go): sharded streams with one consumer
    group each, and idempotency claims. A stream is an append-only sequence with a delivered
    index, a pending set and an acked set. */
module Orchestrator {
  import opened Wrappers
  import opened Text

  type UserId = seq<bv8>

  datatype Request = Request(
    runId: string, sessionId: string, agentRef: string, userId: UserId, orgId: string,
    priority: string, idemKey: string, enqueuedAt: int)

  /** JSON of a request. */
  datatype Codec = Codec(marshal: Request -> string, unmarshal: string -> Option<Request>)

  ghost predicate Lawful(c: Codec) {
    forall r :: c.unmarshal(c.marshal(r)) == Some(r)
  }

  // ----- shards and stream names

  function Mix(h: bv32, b: bv8): bv32 {
    (h ^ (b as bv32)) * 16777619
  }

  /** FNV-1a, 32 bits. */
  function Fnv32a(bytes: seq<bv8>): bv32 {
    if bytes == [] then 2166136261 else Mix(Fnv32a(bytes[..|bytes| - 1]), bytes[|bytes| - 1])
  }

  method HashUser(user: UserId) returns (h: bv32)
    ensures h == Fnv32a(user)
  {
    h := 2166136261;
    for i := 0 to |user|
      invariant h == Fnv32a(user[..i])
    {
      assert user[..i + 1][..i] == user[..i];
      h := Mix(h, user[i]);
    }
    assert user[..|user|] == user;
  }

  /** Published values of the hash: of the empty text, of "a" and of "foobar". */
  lemma FnvValues()
    ensures Fnv32a([]) == 0x811c9dc5
    ensures Fnv32a([0x61]) == 0xe40c292c
    ensures Fnv32a([0x66, 0x6f, 0x6f, 0x62, 0x61, 0x72]) == 0xbf9cf968
  {
    var text: seq<bv8> := [0x66, 0x6f, 0x6f, 0x62, 0x61, 0x72];
    assert [0x61 as bv8][..0] == [];
    for i := 0 to 6
      invariant Fnv32a(text[..i]) ==
        [0x811c9dc5, 0xe30c2799, 0x6222e842, 0xa9f37ed7, 0x3f5076ef, 0x39aaa18a, 0xbf9cf968][i]
    {
      assert text[..i + 1][..i] == text[..i];
    }
    assert text[..6] == text;
  }

  function Sum32(h: bv32): nat {
    h as nat
  }

  /** A user's shard depends on the user and the shard count only. */
  function ShardOf(user: UserId, shards: nat): (r: nat)
    requires 0 < shards
    ensures r < shards
  {
    var n := shards % LOW32;
    if n == 0 then 0 else Sum32(Fnv32a(user)) % n
  }

  /** Shard counts are narrowed to 32 bits before the division. */
  const LOW32 := 0x1_0000_0000

  /** User "a" is on shard 4 of 8, and on shard 1 of 3. */
  lemma ShardValues()
    ensures ShardOf([0x61], 8) == 4 && ShardOf([0x61], 3) == 1
  {
    FnvValues();
  }

  method ShardFor(user: UserId, shards: nat) returns (r: nat)
    requires 0 < shards && shards % LOW32 != 0
    ensures r == ShardOf(user, shards) && r < shards
  {
    var h := HashUser(user);
    r := Sum32(h) % (shards % LOW32);
  }

  datatype StreamKey = StreamKey(shard: nat, priority: string)

  const INTERACTIVE := "interactive"
  const BACKGROUND := "background"

  function StreamName(k: StreamKey): string {
    "orch:" + (Decimal(k.shard) + [':'] + k.priority)
  }

  /** Different queues have different names, whatever the priority text. */
  lemma StreamNamesDiffer(a: StreamKey, b: StreamKey)
    requires StreamName(a) == StreamName(b)
    ensures a == b
  {
    var x, y := Decimal(a.shard) + [':'] + a.priority, Decimal(b.shard) + [':'] + b.priority;
    assert x == StreamName(a)[5..] && y == StreamName(b)[5..];
    DecimalFree(a.shard, ':');
    DecimalFree(b.shard, ':');
    CutUnique(Decimal(a.shard), Decimal(b.shard), ':', a.priority, b.priority);
    DecimalInjective(a.shard, b.shard);
  }

  function KeyFor(r: Request, shards: nat): StreamKey
    requires 0 < shards
  {
    StreamKey(ShardOf(r.userId, shards), r.priority)
  }

  // ----- streams

  datatype Handled = Handled(index: nat, ok: bool)

  /** `handled` is the history of handler calls for entries of this stream. */
  datatype Stream = Stream(entries: seq<string>, delivered: nat, pending: set<nat>, acked: set<nat>, handled: seq<Handled>)

  const EmptyStream := Stream([], 0, {}, {}, [])

  type Streams = map<StreamKey, Stream>

  function StreamAt(ss: Streams, k: StreamKey): Stream {
    if k in ss then ss[k] else EmptyStream
  }

  function Appended(st: Stream, payload: string): Stream {
    st.(entries := st.entries + [payload])
  }

  /** XREADGROUP with ">": the next entry never delivered to the group. */
  function Delivered(st: Stream): Stream {
    st.(delivered := st.delivered + 1, pending := st.pending + {st.delivered})
  }

  function Recorded(st: Stream, i: nat, ok: bool): Stream {
    st.(handled := st.handled + [Handled(i, ok)])
  }

  function Acked(st: Stream, i: nat): Stream {
    st.(pending := st.pending - {i}, acked := st.acked + {i})
  }

  /** What a worker does with one delivered entry: an undecodable one is acked, a decodable one is
      handed to the handler and acked only if the handler succeeds. */
  function Processed(c: Codec, st: Stream, i: nat, handle: Request -> bool): Stream
    requires i < |st.entries|
  {
    var r := c.unmarshal(st.entries[i]);
    if r.None? then Acked(st, i)
    else if handle(r.value) then Acked(Recorded(st, i, true), i)
    else Recorded(st, i, false)
  }

  /** Delivery of the next entry and its processing. */
  function Turned(c: Codec, st: Stream, handle: Request -> bool): Stream
    requires st.delivered < |st.entries|
  {
    Processed(c, Delivered(st), st.delivered, handle)
  }

  /** A read on a shard may return the next entry of these streams. */
  ghost predicate Offers(streams: Streams, shard: nat, read: set<StreamKey>) {
    forall k :: k in read ==>
      && k.shard == shard && (k.priority == INTERACTIVE || k.priority == BACKGROUND)
      && StreamAt(streams, k).delivered < |StreamAt(streams, k).entries|
  }

  function TurnedIf(c: Codec, streams: Streams, k: StreamKey, turned: bool, handle: Request -> bool): Stream
    requires turned ==> StreamAt(streams, k).delivered < |StreamAt(streams, k).entries|
  {
    if turned then Turned(c, StreamAt(streams, k), handle) else StreamAt(streams, k)
  }

  /** A request without an enqueue time gets one. */
  function Stamped(req: Request, now: int): Request {
    if req.enqueuedAt == ZERO_TIME then req.(enqueuedAt := now) else req
  }

  const ZERO_TIME := 0

  /** What an undisturbed Enqueue does to streams and claims, and what it returns: nothing and an
      error over budget; the claimer's run id for a claimed key; otherwise a claim, and an append to
      the user's stream unless that fails. */
  ghost predicate Enqueued(codec: Codec, shards: nat, streams: Streams, claims: map<string, string>, req: Request,
                           now: int, budgetOk: bool, up: bool, streams': Streams, claims': map<string, string>, r: Option<string>)
    requires 0 < shards
  {
    if !budgetOk then r == None && streams' == streams && claims' == claims
    else if req.idemKey != "" && req.idemKey in claims then
      r == Some(claims[req.idemKey]) && streams' == streams && claims' == claims
    else
      var k := KeyFor(req, shards);
      && claims' == (if req.idemKey == "" then claims else claims[req.idemKey := req.runId])
      && r == (if up then Some(req.runId) else None)
      && streams' == if up then streams[k := Appended(StreamAt(streams, k), codec.marshal(Stamped(req, now)))] else streams
  }

  /** What a worker will find of a request that went through: at the end of its user's stream an entry
      that decodes to it, with the time of the call if it had none; all other entries are as they were. */
  lemma EnqueuedIsFound(codec: Codec, shards: nat, streams: Streams, claims: map<string, string>, req: Request, now: int,
                        streams': Streams, claims': map<string, string>, r: Option<string>)
    requires Lawful(codec) && 0 < shards && (req.idemKey == "" || req.idemKey !in claims)
    requires Enqueued(codec, shards, streams, claims, req, now, true, true, streams', claims', r)
    ensures var k := StreamKey(ShardOf(req.userId, shards), req.priority);
      var was, after := StreamAt(streams, k), StreamAt(streams', k);
      && |after.entries| == |was.entries| + 1 && was.entries <= after.entries
      && codec.unmarshal(after.entries[|was.entries|]) ==
           Some(req.(enqueuedAt := if req.enqueuedAt != 0 then req.enqueuedAt else now))
      && after.(entries := was.entries) == was
      && forall l :: l != k ==> StreamAt(streams', l) == StreamAt(streams, l)
  {}

  class Broker {
    const codec: Codec
    const shards: nat
    var streams: Streams
    var claims: map<string, string>

    constructor (codec: Codec, shards: int)
      ensures this.codec == codec && this.shards == (if shards <= 0 then 8 else shards)
      ensures streams == map[] && claims == map[]
    {
      this.codec, this.shards := codec, if shards <= 0 then 8 else shards;
      streams, claims := map[], map[];
    }

    /** Enqueue with nobody else at work; `up` tells whether the append goes through, which fails
        as well when the request has no JSON. */
    method Enqueue(req: Request, now: int, budgetOk: bool, up: bool) returns (r: Option<string>)
      requires 0 < shards && shards % LOW32 != 0
      modifies this
      ensures Enqueued(codec, shards, old(streams), old(claims), req, now, budgetOk, up, streams, claims, r)
    {
      if !budgetOk {
        return None;
      }
      if req.idemKey != "" {
        if req.idemKey in claims {
          return Some(claims[req.idemKey]);
        }
        claims := claims[req.idemKey := req.runId];
      }
      var stamped := Stamped(req, now);
      var shard := ShardFor(req.userId, shards);
      if !up {
        return None;
      }
      var k := StreamKey(shard, req.priority);
      streams := streams[k := Appended(StreamAt(streams, k), codec.marshal(stamped))];
      return Some(req.runId);
    }

    /** One turn of RunWorker on a shard, given the streams that the read returned an entry of. */
    method WorkerTurn(shard: nat, read: set<StreamKey>, handle: Request -> bool)
      requires Offers(streams, shard, read)
      modifies this`streams
      ensures forall k :: StreamAt(streams, k) == TurnedIf(codec, old(streams), k, k in read, handle)
    {
      var ks := [StreamKey(shard, INTERACTIVE), StreamKey(shard, BACKGROUND)];
      assert INTERACTIVE[0] != BACKGROUND[0];
      for j := 0 to 2
        invariant forall k :: StreamAt(streams, k) == TurnedIf(codec, old(streams), k, k in read && k in ks[..j], handle)
      {
        var k := ks[j];
        assert ks[..j + 1] == ks[..j] + [k] && k !in ks[..j];
        if k in read {
          var st := StreamAt(streams, k);
          streams := streams[k := Turned(codec, st, handle)];
        }
      }
      assert ks[..2] == ks;
    }
  }
}
