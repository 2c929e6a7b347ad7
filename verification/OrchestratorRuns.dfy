/** Every interleaving of Enqueue calls and workers. Each Redis command is one step; a command may
    fail, or take effect while its reply is lost. */
module OrchestratorRuns {
  import opened Wrappers
  import opened Orchestrator

  /** Where an Enqueue stands; `Returned(_, None)` is an error return. */
  datatype Call =
    | Checked(req: Request)     // budget passed, before SETNX
    | Owning(req: Request)      // has the claim, or needs none, before XADD
    | Losing(req: Request)      // somebody else has the claim, before GET
    | Returned(req: Request, runId: Option<string>)

  /** A worker and what it still has to do of its last read. `acking` tells that its current
      entry went through the handler, or is undecodable, and waits to be acked. */
  datatype Worker = Worker(shard: nat, interactive: Option<nat>, background: Option<nat>, acking: bool, stopped: bool)

  /** `enqueued` lists the requests appended by Enqueue and `granted` the keys claimed by SETNX,
      both in order. */
  datatype State = State(
    streams: Streams, claims: map<string, string>, calls: seq<Call>, workers: seq<Worker>,
    enqueued: seq<Request>, granted: seq<string>)

  datatype Reply = Up | Down | Lost // done; not done; done but the caller sees an error

  datatype EnqEvent =
    | Begin(req: Request, budgetOk: bool)
    | Claim(c: nat, reply: Reply)
    | ReadClaim(c: nat, up: bool)
    | Append(c: nat, reply: Reply)
    | Expire(key: string)

  datatype WorkEvent =
    | Foreign(k: StreamKey, payload: string) // an undecodable entry from elsewhere
    | StartWorker(shard: nat)
    | Read(w: nat, interactive: bool, background: bool)
    | Handle(w: nat, ok: bool)
    | Ack(w: nat, up: bool)
    | Stop(w: nat)

  datatype Event = Enq(enq: EnqEvent) | Work(work: WorkEvent)

  const Initial := State(map[], map[], [], [], [], [])

  ghost function Return(s: State, c: nat, runId: Option<string>): State
    requires c < |s.calls|
  {
    s.(calls := s.calls[c := Returned(s.calls[c].req, runId)])
  }

  ghost function EnqStep(codec: Codec, shards: nat, s: State, e: EnqEvent): Option<State>
    requires 0 < shards
  {
    match e
    case Begin(req, budgetOk) =>
      Some(s.(calls := s.calls + [
        if !budgetOk then Returned(req, None) else if req.idemKey == "" then Owning(req) else Checked(req)]))
    case Claim(c, reply) =>
      if c < |s.calls| && s.calls[c].Checked? then
        var req := s.calls[c].req;
        if reply == Down then Some(Return(s, c, None))
        else if req.idemKey in s.claims then
          Some(if reply == Up then s.(calls := s.calls[c := Losing(req)]) else Return(s, c, None))
        else
          var t := s.(claims := s.claims[req.idemKey := req.runId], granted := s.granted + [req.idemKey]);
          Some(if reply == Up then t.(calls := s.calls[c := Owning(req)]) else Return(t, c, None))
      else None
    case ReadClaim(c, up) =>
      if c < |s.calls| && s.calls[c].Losing? then
        var key := s.calls[c].req.idemKey;
        Some(Return(s, c, if up && key in s.claims then Some(s.claims[key]) else None))
      else None
    case Append(c, reply) =>
      if c < |s.calls| && s.calls[c].Owning? then
        var req := s.calls[c].req;
        if reply == Down then Some(Return(s, c, None))
        else
          var k := KeyFor(req, shards);
          var t := s.(streams := s.streams[k := Appended(StreamAt(s.streams, k), codec.marshal(req))],
                      enqueued := s.enqueued + [req]);
          Some(Return(t, c, if reply == Up then Some(req.runId) else None))
      else None
    case Expire(key) => Some(s.(claims := s.claims - {key}))
  }

  // ---------------------------------------------------------------------------------------------
  // Workers

  predicate Idle(w: Worker) {
    w.interactive.None? && w.background.None? && !w.acking
  }

  function CurrentKey(w: Worker): StreamKey {
    StreamKey(w.shard, if w.interactive.Some? then INTERACTIVE else BACKGROUND)
  }

  function CurrentIndex(w: Worker): Option<nat> {
    if w.interactive.Some? then w.interactive else w.background
  }

  function NextItem(w: Worker): Worker {
    if w.interactive.Some? then w.(interactive := None, acking := false)
    else w.(background := None, acking := false)
  }

  predicate HasNext(st: Stream) {
    st.delivered < |st.entries|
  }

  ghost function WorkStep(codec: Codec, s: State, e: WorkEvent): Option<State> {
    match e
    case Foreign(k, payload) =>
      if codec.unmarshal(payload).None? then
        Some(s.(streams := s.streams[k := Appended(StreamAt(s.streams, k), payload)]))
      else None
    case StartWorker(shard) => Some(s.(workers := s.workers + [Worker(shard, None, None, false, false)]))
    case Read(w, i, b) =>
      if w < |s.workers| && Idle(s.workers[w]) && !s.workers[w].stopped then
        var ki, kb := StreamKey(s.workers[w].shard, INTERACTIVE), StreamKey(s.workers[w].shard, BACKGROUND);
        var si, sb := StreamAt(s.streams, ki), StreamAt(s.streams, kb);
        if (i ==> HasNext(si)) && (b ==> HasNext(sb)) then
          var s1 := if i then s.streams[ki := Delivered(si)] else s.streams;
          var s2 := if b then s1[kb := Delivered(sb)] else s1;
          var got := s.workers[w].(interactive := if i then Some(si.delivered) else None,
                                   background := if b then Some(sb.delivered) else None);
          Some(s.(streams := s2, workers := s.workers[w := got]))
        else None
      else None
    case Handle(w, ok) =>
      if w < |s.workers| && !s.workers[w].acking && CurrentIndex(s.workers[w]).Some? then
        var worker := s.workers[w];
        var k, i := CurrentKey(worker), CurrentIndex(worker).value;
        var st := StreamAt(s.streams, k);
        if i >= |st.entries| then None
        else if codec.unmarshal(st.entries[i]).None? then
          Some(s.(workers := s.workers[w := worker.(acking := true)]))
        else
          Some(s.(streams := s.streams[k := Recorded(st, i, ok)],
                  workers := s.workers[w := if ok then worker.(acking := true) else NextItem(worker)]))
      else None
    case Ack(w, up) =>
      if w < |s.workers| && s.workers[w].acking && CurrentIndex(s.workers[w]).Some? then
        var worker := s.workers[w];
        var k, i := CurrentKey(worker), CurrentIndex(worker).value;
        Some(s.(streams := if up then s.streams[k := Acked(StreamAt(s.streams, k), i)] else s.streams,
                workers := s.workers[w := NextItem(worker)]))
      else None
    case Stop(w) =>
      if w < |s.workers| then
        Some(s.(workers := s.workers[w := Worker(s.workers[w].shard, None, None, false, true)]))
      else None
  }

  ghost function Step(codec: Codec, shards: nat, s: State, e: Event): Option<State>
    requires 0 < shards
  {
    match e
    case Enq(x) => EnqStep(codec, shards, s, x)
    case Work(x) => WorkStep(codec, s, x)
  }

  ghost predicate Run(codec: Codec, shards: nat, ss: seq<State>, es: seq<Event>)
    requires 0 < shards
  {
    |ss| == |es| + 1 && ss[0] == Initial && forall i :: 0 <= i < |es| ==> Linked(codec, shards, ss, es, i)
  }

  ghost predicate Linked(codec: Codec, shards: nat, ss: seq<State>, es: seq<Event>, i: nat)
    requires 0 < shards && i < |es| < |ss|
  {
    Step(codec, shards, ss[i], es[i]) == Some(ss[i + 1])
  }
}
