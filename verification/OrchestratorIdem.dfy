/** Idempotency under interleaving: at most one entry per claim, and one answer per window. */
module OrchestratorIdem {
  import opened Wrappers
  import opened Orchestrator
  import opened OrchestratorRuns

  predicate Owns(call: Call, key: string) {
    call.Owning? && call.req.idemKey == key
  }

  function Owners(calls: seq<Call>, key: string): nat {
    if calls == [] then 0
    else Owners(calls[..|calls| - 1], key) + if Owns(calls[|calls| - 1], key) then 1 else 0
  }

  function EntriesOf(reqs: seq<Request>, key: string): nat {
    if reqs == [] then 0
    else EntriesOf(reqs[..|reqs| - 1], key) + if reqs[|reqs| - 1].idemKey == key then 1 else 0
  }

  function Count(keys: seq<string>, key: string): nat {
    if keys == [] then 0 else Count(keys[..|keys| - 1], key) + if keys[|keys| - 1] == key then 1 else 0
  }

  lemma OwnersPush(calls: seq<Call>, call: Call, key: string)
    ensures Owners(calls + [call], key) == Owners(calls, key) + if Owns(call, key) then 1 else 0
  {
    assert (calls + [call])[..|calls|] == calls;
  }

  lemma {:induction false} OwnersSet(calls: seq<Call>, c: nat, call: Call, key: string)
    requires c < |calls|
    ensures Owners(calls[c := call], key) + (if Owns(calls[c], key) then 1 else 0)
         == Owners(calls, key) + (if Owns(call, key) then 1 else 0)
    decreases |calls|
  {
    var n := |calls| - 1;
    if c < n {
      OwnersSet(calls[..n], c, call, key);
      assert calls[c := call][..n] == calls[..n][c := call];
    } else {
      assert calls[c := call][..n] == calls[..n];
    }
  }

  lemma Pushes(reqs: seq<Request>, r: Request, keys: seq<string>, k: string, key: string)
    ensures EntriesOf(reqs + [r], key) == EntriesOf(reqs, key) + if r.idemKey == key then 1 else 0
    ensures Count(keys + [k], key) == Count(keys, key) + if k == key then 1 else 0
  {
    assert (reqs + [r])[..|reqs|] == reqs && (keys + [k])[..|keys|] == keys;
  }

  /** A claim is spent on at most one append. */
  ghost predicate SpentOnce(s: State, key: string) {
    Owners(s.calls, key) + EntriesOf(s.enqueued, key) <= Count(s.granted, key)
  }

  /** Workers touch streams and themselves only. */
  lemma WorkFrame(codec: Codec, s: State, e: WorkEvent, t: State)
    requires WorkStep(codec, s, e) == Some(t)
    ensures t.calls == s.calls && t.claims == s.claims && t.enqueued == s.enqueued && t.granted == s.granted
  {}

  /** The shape of an Enqueue step: one call changes or arrives, and what it did is recorded. */
  lemma EnqShape(codec: Codec, shards: nat, s: State, e: EnqEvent, t: State)
    requires 0 < shards && EnqStep(codec, shards, s, e) == Some(t)
    ensures e.Begin? ==> t.calls == s.calls + [t.calls[|s.calls|]]
    ensures e.Expire? ==> t.calls == s.calls
    ensures e.Claim? || e.ReadClaim? || e.Append? ==>
      e.c < |s.calls| && |t.calls| == |s.calls| && t.calls == s.calls[e.c := t.calls[e.c]]
    ensures e.Claim? ==> s.calls[e.c].Checked? && t.enqueued == s.enqueued && t.calls[e.c].req == s.calls[e.c].req
    ensures e.Claim? ==>
      || (t.granted == s.granted && t.claims == s.claims && !t.calls[e.c].Owning?)
      || (var req := s.calls[e.c].req;
          t.granted == s.granted + [req.idemKey] && req.idemKey !in s.claims && t.claims == s.claims[req.idemKey := req.runId])
    ensures e.Append? ==> s.calls[e.c].Owning? && t.calls[e.c].Returned? && t.calls[e.c].req == s.calls[e.c].req
    ensures e.Append? ==> t.enqueued == if e.reply == Down then s.enqueued else s.enqueued + [s.calls[e.c].req]
    ensures e.Append? && t.calls[e.c].runId.Some? ==> e.reply == Up
    ensures e.ReadClaim? ==> s.calls[e.c].Losing? && t.calls[e.c].Returned?
    ensures e.Begin? ==> !(t.calls[|s.calls|].Owning? && t.calls[|s.calls|].req.idemKey != "")
    ensures !e.Append? ==> t.enqueued == s.enqueued
    ensures !e.Claim? ==> t.granted == s.granted
    ensures !e.Claim? && !e.Expire? ==> t.claims == s.claims
  {}

  lemma SpentOnceStep(codec: Codec, shards: nat, s: State, e: Event, t: State, key: string)
    requires 0 < shards && key != "" && SpentOnce(s, key) && Step(codec, shards, s, e) == Some(t)
    ensures SpentOnce(t, key)
  {
    match e
    case Work(x) => WorkFrame(codec, s, x, t);
    case Enq(x) => SpentOnceEnq(codec, shards, s, x, t, key);
  }

  /** The three ways a call's move can count: as it is, with one more claim, or with one entry more. */
  lemma CallMoved(s: State, c: nat, call: Call, t: State, key: string)
    requires c < |s.calls| && t.calls == s.calls[c := call] && SpentOnce(s, key)
    requires t.enqueued == s.enqueued && t.granted == s.granted && !Owns(call, key)
    ensures SpentOnce(t, key)
  {
    OwnersSet(s.calls, c, call, key);
  }

  lemma CallClaimed(s: State, c: nat, call: Call, t: State, key: string)
    requires c < |s.calls| && t.calls == s.calls[c := call] && SpentOnce(s, key) && !s.calls[c].Owning?
    requires t.enqueued == s.enqueued && t.granted == s.granted + [call.req.idemKey]
    ensures SpentOnce(t, key)
  {
    OwnersSet(s.calls, c, call, key);
    Pushes(s.enqueued, call.req, s.granted, call.req.idemKey, key);
  }

  lemma CallAppended(s: State, c: nat, call: Call, t: State, key: string)
    requires c < |s.calls| && t.calls == s.calls[c := call] && SpentOnce(s, key)
    requires s.calls[c].Owning? && !call.Owning?
    requires t.enqueued == s.enqueued + [s.calls[c].req] && t.granted == s.granted
    ensures SpentOnce(t, key)
  {
    OwnersSet(s.calls, c, call, key);
    Pushes(s.enqueued, s.calls[c].req, s.granted, key, key);
  }

  lemma SpentOnceEnq(codec: Codec, shards: nat, s: State, e: EnqEvent, t: State, key: string)
    requires 0 < shards && key != "" && SpentOnce(s, key) && EnqStep(codec, shards, s, e) == Some(t)
    ensures SpentOnce(t, key)
  {
    EnqShape(codec, shards, s, e, t);
    match e
    case Begin(req, budgetOk) => OwnersPush(s.calls, t.calls[|s.calls|], key);
    case Expire(_) =>
    case ReadClaim(c, _) => CallMoved(s, c, t.calls[c], t, key);
    case Claim(c, _) =>
      if t.granted == s.granted {
        CallMoved(s, c, t.calls[c], t, key);
      } else {
        CallClaimed(s, c, t.calls[c], t, key);
      }
    case Append(c, reply) =>
      if reply == Down {
        CallMoved(s, c, t.calls[c], t, key);
      } else {
        CallAppended(s, c, t.calls[c], t, key);
      }
  }

  /** Over every run, a key has at most as many entries as it was claimed; and it is claimed once
      more only after its claim expired. */
  lemma {:induction false} EntriesWithinClaims(codec: Codec, shards: nat, ss: seq<State>, es: seq<Event>,
      key: string, n: nat)
    requires 0 < shards && Run(codec, shards, ss, es) && key != "" && n <= |es|
    ensures EntriesOf(ss[n].enqueued, key) <= Count(ss[n].granted, key)
    ensures SpentOnce(ss[n], key)
    ensures Count(ss[n].granted, key) + (if key in ss[n].claims then 0 else 1) <= 1 + Expiries(es[..n], key)
    decreases n
  {
    if n > 0 {
      EntriesWithinClaims(codec, shards, ss, es, key, n - 1);
      var s, e, t := ss[n - 1], es[n - 1], ss[n];
      assert Linked(codec, shards, ss, es, n - 1);
      SpentOnceStep(codec, shards, s, e, t, key);
      assert es[..n][..n - 1] == es[..n - 1];
      ClaimsStep(codec, shards, s, e, t, key);
    } else {
      assert es[..0] == [];
    }
  }

  function Expiries(es: seq<Event>, key: string): nat {
    if es == [] then 0
    else Expiries(es[..|es| - 1], key) + if es[|es| - 1] == Enq(Expire(key)) then 1 else 0
  }

  /** A claim made, while the key was free, counts one; an expiry frees the key. */
  lemma ClaimsStep(codec: Codec, shards: nat, s: State, e: Event, t: State, key: string)
    requires 0 < shards && Step(codec, shards, s, e) == Some(t)
    ensures Count(t.granted, key) + (if key in t.claims then 0 else 1)
         <= Count(s.granted, key) + (if key in s.claims then 0 else 1) + (if e == Enq(Expire(key)) then 1 else 0)
  {
    match e
    case Work(x) => WorkFrame(codec, s, x, t);
    case Enq(x) =>
      EnqShape(codec, shards, s, x, t);
      if x.Claim? {
        Pushes(s.enqueued, s.calls[x.c].req, s.granted, s.calls[x.c].req.idemKey, key);
      } else if x.Expire? {
        Expired(codec, shards, s, x.key, t);
      }
  }

  lemma Expired(codec: Codec, shards: nat, s: State, key: string, t: State)
    requires 0 < shards && EnqStep(codec, shards, s, Expire(key)) == Some(t)
    ensures t.granted == s.granted && t.claims == s.claims - {key}
  {}

  // ---------------------------------------------------------------------------------------------
  // One window

  /** What a call of `key` may look like while the claim stands. */
  ghost predicate Answers(call: Call, claims: map<string, string>, key: string) {
    call.req.idemKey == key ==>
      && (call.Owning? || call.Losing? || (call.Returned? && call.runId.Some?) ==> key in claims)
      && (call.Owning? ==> call.req.runId == claims[key])
      && (call.Returned? && call.runId.Some? ==> call.runId.value == claims[key])
  }

  /** While a key's claim does not expire there is one answer: the claimer's run id. */
  ghost predicate OneAnswer(s: State, key: string) {
    && (forall c :: 0 <= c < |s.calls| ==> Answers(s.calls[c], s.claims, key))
    && (forall i :: 0 <= i < |s.enqueued| && s.enqueued[i].idemKey == key ==>
          key in s.claims && s.enqueued[i].runId == s.claims[key])
  }

  lemma OneAnswerStep(codec: Codec, shards: nat, s: State, e: Event, t: State, key: string)
    requires 0 < shards && key != "" && OneAnswer(s, key) && Step(codec, shards, s, e) == Some(t)
    requires e != Enq(Expire(key))
    ensures OneAnswer(t, key) && (key in s.claims ==> key in t.claims && t.claims[key] == s.claims[key])
  {
    match e
    case Work(x) => WorkFrame(codec, s, x, t);
    case Enq(x) =>
      EnqShape(codec, shards, s, x, t);
      assert key in s.claims ==> key in t.claims && t.claims[key] == s.claims[key];
      if x.Begin? {
        assert forall c :: 0 <= c < |s.calls| ==> t.calls[c] == s.calls[c];
        assert Answers(t.calls[|s.calls|], t.claims, key);
      } else if !x.Expire? {
        AnswersOfMoved(codec, shards, s, x, t, key);
      }
      forall c | 0 <= c < |t.calls| ensures Answers(t.calls[c], t.claims, key) {
        if c < |s.calls| { assert Answers(s.calls[c], s.claims, key); }
      }
  }

  lemma AnswersOfMoved(codec: Codec, shards: nat, s: State, e: EnqEvent, t: State, key: string)
    requires 0 < shards && key != "" && EnqStep(codec, shards, s, e) == Some(t)
    requires (e.Claim? || e.ReadClaim? || e.Append?) && Answers(s.calls[e.c], s.claims, key)
    ensures Answers(t.calls[e.c], t.claims, key)
  {}

  /** Within one window (no expiry of the key in the run) at most one entry with the key is ever
      appended, and every Enqueue of the key that returns without error, by any interleaving,
      returns the run id of the single claimer. */
  lemma {:induction false} OneRunPerKey(codec: Codec, shards: nat, ss: seq<State>, es: seq<Event>, key: string)
    requires 0 < shards && Run(codec, shards, ss, es) && key != ""
    requires forall i :: 0 <= i < |es| ==> es[i] != Enq(Expire(key))
    ensures var s := ss[|es|];
      && EntriesOf(s.enqueued, key) <= 1
      && (forall c :: 0 <= c < |s.calls| && s.calls[c].Returned? && s.calls[c].req.idemKey == key && s.calls[c].runId.Some? ==>
            key in s.claims && s.calls[c].runId.value == s.claims[key])
      && (forall i :: 0 <= i < |s.enqueued| && s.enqueued[i].idemKey == key ==>
            key in s.claims && s.enqueued[i].runId == s.claims[key])
  {
    EntriesWithinClaims(codec, shards, ss, es, key, |es|);
    assert es[..|es|] == es;
    NoExpiries(es, key);
    var n := 0;
    while n < |es|
      invariant 0 <= n <= |es| && OneAnswer(ss[n], key)
    {
      assert Linked(codec, shards, ss, es, n);
      OneAnswerStep(codec, shards, ss[n], es[n], ss[n + 1], key);
      n := n + 1;
    }
  }

  lemma {:induction false} NoExpiries(es: seq<Event>, key: string)
    requires forall i :: 0 <= i < |es| ==> es[i] != Enq(Expire(key))
    ensures Expiries(es, key) == 0
    decreases |es|
  {
    if es != [] { NoExpiries(es[..|es| - 1], key); }
  }

  // ---------------------------------------------------------------------------------------------
  // When the returned run exists

  /** The event is an append by a call that owns the key's claim, and it takes effect. */
  ghost predicate Appends(s: State, e: Event, key: string) {
    e.Enq? && e.enq.Append? && e.enq.reply != Down && e.enq.c < |s.calls| && Owns(s.calls[e.enq.c], key)
  }

  ghost predicate Appeared(ss: seq<State>, es: seq<Event>, key: string, n: nat)
    requires n <= |es| < |ss|
  {
    exists m :: 0 <= m < n && Appends(ss[m], es[m], key)
  }

  ghost predicate HasEntry(s: State, key: string) {
    exists i :: 0 <= i < |s.enqueued| && s.enqueued[i].idemKey == key
  }

  lemma EntryStep(codec: Codec, shards: nat, s: State, e: Event, t: State, key: string)
    requires 0 < shards && Step(codec, shards, s, e) == Some(t)
    ensures HasEntry(t, key) <==> HasEntry(s, key) || Appends(s, e, key)
  {
    match e
    case Work(x) => WorkFrame(codec, s, x, t);
    case Enq(x) =>
      EnqShape(codec, shards, s, x, t);
      if x.Append? && x.reply != Down {
        var n := |s.enqueued|;
        assert t.enqueued[n] == s.calls[x.c].req;
        assert forall i :: 0 <= i < n ==> t.enqueued[i] == s.enqueued[i];
      }
  }

  lemma {:induction false} EntryIffAppended(codec: Codec, shards: nat, ss: seq<State>, es: seq<Event>, key: string,
      n: nat)
    requires 0 < shards && Run(codec, shards, ss, es) && n <= |es|
    ensures HasEntry(ss[n], key) <==> Appeared(ss, es, key, n)
    decreases n
  {
    if n > 0 {
      EntryIffAppended(codec, shards, ss, es, key, n - 1);
      assert Linked(codec, shards, ss, es, n - 1);
      EntryStep(codec, shards, ss[n - 1], es[n - 1], ss[n], key);
    }
  }

  /** In every interleaving within one window: a run id that an Enqueue of the key returns is the
      run of an entry appended with the key if and only if the claimer's append took effect, be
      its reply lost or not. */
  lemma ReturnedRunExistsIff(codec: Codec, shards: nat, ss: seq<State>, es: seq<Event>, key: string, c: nat)
    requires 0 < shards && Run(codec, shards, ss, es) && key != ""
    requires forall i :: 0 <= i < |es| ==> es[i] != Enq(Expire(key))
    requires c < |ss[|es|].calls| && ss[|es|].calls[c].Returned?
    requires ss[|es|].calls[c].req.idemKey == key && ss[|es|].calls[c].runId.Some?
    ensures var s := ss[|es|];
      (exists i :: 0 <= i < |s.enqueued| && s.enqueued[i].idemKey == key && s.enqueued[i].runId == s.calls[c].runId.value)
      <==> Appeared(ss, es, key, |es|)
  {
    OneRunPerKey(codec, shards, ss, es, key);
    EntryIffAppended(codec, shards, ss, es, key, |es|);
    var s := ss[|es|];
    if HasEntry(s, key) {
      var i :| 0 <= i < |s.enqueued| && s.enqueued[i].idemKey == key;
      assert s.enqueued[i].runId == s.calls[c].runId.value;
    }
  }

  /** Where a call that once owned the claim stands: still owning, failed, or with its append done. */
  ghost predicate Claimer(ss: seq<State>, es: seq<Event>, key: string, a: nat, n: nat)
    requires n <= |es| < |ss|
  {
    && a < |ss[n].calls|
    && (|| Owns(ss[n].calls[a], key)
        || (ss[n].calls[a].Returned? && (ss[n].calls[a].runId.None? || Appeared(ss, es, key, n))))
  }

  lemma ClaimerStep(codec: Codec, shards: nat, ss: seq<State>, es: seq<Event>, key: string, a: nat, n: nat)
    requires 0 < shards && Run(codec, shards, ss, es) && n < |es| && Claimer(ss, es, key, a, n)
    ensures Claimer(ss, es, key, a, n + 1)
  {
    var s, e, t := ss[n], es[n], ss[n + 1];
    assert Linked(codec, shards, ss, es, n);
    match e
    case Work(x) => WorkFrame(codec, s, x, t);
    case Enq(x) =>
      EnqShape(codec, shards, s, x, t);
      if x.Append? && x.c == a {
        assert Appends(s, e, key) || x.reply == Down;
      }
  }

  /** In particular it exists whenever the claimer's own Enqueue returned without error. */
  lemma ClaimerReturned(codec: Codec, shards: nat, ss: seq<State>, es: seq<Event>, key: string, a: nat, m: nat)
    requires 0 < shards && Run(codec, shards, ss, es) && m <= |es|
    requires a < |ss[m].calls| && Owns(ss[m].calls[a], key)
    ensures a < |ss[|es|].calls|
    ensures ss[|es|].calls[a].Returned? && ss[|es|].calls[a].runId.Some? ==> Appeared(ss, es, key, |es|)
  {
    var n := m;
    while n < |es|
      invariant m <= n <= |es| && Claimer(ss, es, key, a, n)
    {
      ClaimerStep(codec, shards, ss, es, key, a, n);
      n := n + 1;
    }
  }

  /** The claim outlives a failed append: after it, another Enqueue of the key succeeds with the
      run id of a run that no stream holds. */
  lemma ClaimWithoutRun(codec: Codec, shards: nat, first: Request, second: Request)
    returns (ss: seq<State>, es: seq<Event>)
    requires 0 < shards && first.idemKey == second.idemKey != ""
    ensures Run(codec, shards, ss, es)
    ensures var s := ss[|es|];
      s.enqueued == [] && s.streams == map[] && |s.calls| == 2 && s.calls[1] == Returned(second, Some(first.runId))
  {
    var key := first.idemKey;
    es := [Enq(Begin(first, true)), Enq(Claim(0, Up)), Enq(Append(0, Down)),
           Enq(Begin(second, true)), Enq(Claim(1, Up)), Enq(ReadClaim(1, true))];
    var held := map[key := first.runId];
    ss := [Initial,
           State(map[], map[], [Checked(first)], [], [], []),
           State(map[], held, [Owning(first)], [], [], [key]),
           State(map[], held, [Returned(first, None)], [], [], [key]),
           State(map[], held, [Returned(first, None), Checked(second)], [], [], [key]),
           State(map[], held, [Returned(first, None), Losing(second)], [], [], [key]),
           State(map[], held, [Returned(first, None), Returned(second, Some(first.runId))], [], [], [key])];
    assert [] + [Checked(first)] == [Checked(first)] && [] + [key] == [key];
    assert [Checked(first)][0 := Owning(first)] == [Owning(first)];
    assert [Owning(first)][0 := Returned(first, None)] == [Returned(first, None)];
    assert ss[4].calls == ss[3].calls + [Checked(second)];
    assert ss[5].calls == ss[4].calls[1 := Losing(second)];
    assert ss[6].calls == ss[5].calls[1 := Returned(second, Some(first.runId))];
    forall i | 0 <= i < |es| ensures Linked(codec, shards, ss, es, i) {
      assert i == 0 || i == 1 || i == 2 || i == 3 || i == 4 || i == 5;
    }
  }
}
