/** The per-(organisation, user, server) connection cache of the MCP proxy, whose calls dial
    outside the lock and may race (internal/mcpproxy/proxy.go). */
module McpCache {
  import opened Wrappers
  import opened Enumeration

  datatype ConnKey = ConnKey(org: string, user: string, server: string)

  type SessionId = nat

  function SessionsOf(conns: map<ConnKey, SessionId>, order: seq<ConnKey>): seq<SessionId>
    requires forall k :: k in order ==> k in conns
  {
    seq(|order|, i requires 0 <= i < |order| => assert order[i] in order; conns[order[i]])
  }

  /** The cache and the sessions closed so far, in order. */
  class Cache {
    var conns: map<ConnKey, SessionId>
    var closed: seq<SessionId>

    constructor ()
      ensures conns == map[] && closed == []
    {
      conns, closed := map[], [];
    }

    /** First critical section of sessionFor. */
    method Lookup(key: ConnKey) returns (s: Option<SessionId>)
      ensures s == if key in conns then Some(conns[key]) else None
    {
      s := if key in conns then Some(conns[key]) else None;
    }

    /** Second critical section: a session dialled meanwhile wins and the new one is closed. */
    method Install(key: ConnKey, s: SessionId) returns (winner: SessionId)
      modifies this
      ensures key in old(conns) ==>
        winner == old(conns)[key] && conns == old(conns) && closed == old(closed) + [s]
      ensures key !in old(conns) ==>
        winner == s && conns == old(conns)[key := s] && closed == old(closed)
    {
      if key in conns {
        closed := closed + [s];
        return conns[key];
      }
      conns := conns[key := s];
      return s;
    }

    /** CloseAll: closes and removes every entry, in an order Go leaves open. */
    method CloseAll() returns (ghost order: seq<ConnKey>)
      modifies this
      ensures conns == map[] && Enumerates(order, old(conns).Keys)
      ensures closed == old(closed) + SessionsOf(old(conns), order)
    {
      var was := conns;
      order := [];
      while conns != map[]
        invariant forall k :: k in conns ==> k in was && conns[k] == was[k]
        invariant Enumerates(order, was.Keys - conns.Keys)
        invariant closed == old(closed) + SessionsOf(was, order)
        decreases conns.Keys
      {
        assert conns.Keys != {};
        var k :| k in conns;
        ghost var done := was.Keys - conns.Keys;
        closed := closed + [conns[k]];
        EnumeratesGrows(order, done, k);
        conns := conns - {k};
        assert was.Keys - conns.Keys == done + {k};
        order := order + [k];
      }
    }
  }

  // ---------------------------------------------------------------------------------------------
  // Interleavings

  datatype Call =
    | Dialing(key: ConnKey)                   // missed the cache, dials without the lock
    | Holding(key: ConnKey, s: SessionId)     // dialled, not yet installed
    | Returned(key: ConnKey, s: SessionId)
    | Failed

  /** `dialled` maps every session ever dialled to the key it was dialled for. */
  datatype State = State(
    conns: map<ConnKey, SessionId>, calls: seq<Call>,
    dialled: map<SessionId, ConnKey>, closed: seq<SessionId>)

  datatype Event =
    | Begin(key: ConnKey)
    | Dialled(c: nat, s: SessionId)
    | DialFails(c: nat)
    | Installed(c: nat)
    | ClosedAll(order: seq<ConnKey>)

  const Initial := State(map[], [], map[], [])

  ghost function Step(s: State, e: Event): Option<State> {
    match e
    case Begin(key) =>
      Some(s.(calls := s.calls + [if key in s.conns then Returned(key, s.conns[key]) else Dialing(key)]))
    case Dialled(c, id) =>
      if c < |s.calls| && s.calls[c].Dialing? && id !in s.dialled then
        var key := s.calls[c].key;
        Some(s.(calls := s.calls[c := Holding(key, id)], dialled := s.dialled[id := key]))
      else None
    case DialFails(c) =>
      if c < |s.calls| && s.calls[c].Dialing? then Some(s.(calls := s.calls[c := Failed])) else None
    case Installed(c) =>
      if c < |s.calls| && s.calls[c].Holding? then
        var key, id := s.calls[c].key, s.calls[c].s;
        Some(if key in s.conns
             then s.(calls := s.calls[c := Returned(key, s.conns[key])], closed := s.closed + [id])
             else s.(calls := s.calls[c := Returned(key, id)], conns := s.conns[key := id]))
      else None
    case ClosedAll(order) =>
      if Enumerates(order, s.conns.Keys) then
        Some(s.(conns := map[], closed := s.closed + SessionsOf(s.conns, order)))
      else None
  }

  ghost predicate Run(ss: seq<State>, es: seq<Event>) {
    && |ss| == |es| + 1
    && ss[0] == Initial
    && forall i :: 0 <= i < |es| ==> Step(ss[i], es[i]) == Some(ss[i + 1])
  }

  datatype Place = HeldBy(c: nat) | CachedFor(key: ConnKey) | IsClosed

  ghost predicate At(s: State, id: SessionId, p: Place) {
    match p
    case HeldBy(c) => c < |s.calls| && s.calls[c].Holding? && s.calls[c].s == id
    case CachedFor(k) => k in s.conns && s.conns[k] == id
    case IsClosed => id in s.closed
  }

  ghost predicate Distinct(ids: seq<SessionId>) {
    forall i, j :: 0 <= i < j < |ids| ==> ids[i] != ids[j]
  }

  /** A call only ever holds, finds or returns sessions of its own key, and so does the cache. */
  ghost predicate OwnSessions(s: State) {
    && (forall k :: k in s.conns ==> s.conns[k] in s.dialled && s.dialled[s.conns[k]] == k)
    && (forall c :: 0 <= c < |s.calls| && (s.calls[c].Holding? || s.calls[c].Returned?) ==>
          s.calls[c].s in s.dialled && s.dialled[s.calls[c].s] == s.calls[c].key)
  }

  /** Every dialled session is exactly one of held by one call, cached for its key, or closed,
      and none is closed twice. */
  ghost predicate OnePlaceEach(s: State) {
    && (forall id :: id in s.dialled <==> exists p :: At(s, id, p))
    && (forall id, p, q :: At(s, id, p) && At(s, id, q) ==> p == q)
    && Distinct(s.closed)
    && OwnSessions(s)
  }

  ghost predicate Inv(s: State, loc: map<SessionId, Place>) {
    && loc.Keys == s.dialled.Keys
    && (forall p, id :: At(s, id, p) <==> id in loc && loc[id] == p)
    && Distinct(s.closed)
    && OwnSessions(s)
  }

  lemma InvIsOnePlaceEach(s: State, loc: map<SessionId, Place>)
    requires Inv(s, loc)
    ensures OnePlaceEach(s)
  {
    forall id ensures id in s.dialled <==> exists p :: At(s, id, p) {
      if id in loc { assert At(s, id, loc[id]); }
    }
  }

  lemma CallMoves(s: State, e: Event, t: State, loc: map<SessionId, Place>) returns (loc': map<SessionId, Place>)
    requires Inv(s, loc) && Step(s, e) == Some(t) && (e.Begin? || e.DialFails? || e.Dialled?)
    ensures Inv(t, loc')
  {
    loc' := if e.Dialled? then loc[e.s := HeldBy(e.c)] else loc;
    forall p, id ensures At(t, id, p) <==> id in loc' && loc'[id] == p {
      assert At(s, id, p) <==> id in loc && loc[id] == p;
    }
  }

  lemma InstallMoves(s: State, c: nat, t: State, loc: map<SessionId, Place>) returns (loc': map<SessionId, Place>)
    requires Inv(s, loc) && Step(s, Installed(c)) == Some(t)
    ensures Inv(t, loc')
  {
    var key, id := s.calls[c].key, s.calls[c].s;
    assert At(s, id, HeldBy(c)) && !At(s, id, IsClosed);
    loc' := loc[id := if key in s.conns then IsClosed else CachedFor(key)];
    forall p, x ensures At(t, x, p) <==> x in loc' && loc'[x] == p {
      assert At(s, x, p) <==> x in loc && loc[x] == p;
      assert At(s, id, p) <==> id in loc && loc[id] == p;
    }
  }

  lemma CloseMoves(s: State, order: seq<ConnKey>, t: State, loc: map<SessionId, Place>)
    returns (loc': map<SessionId, Place>)
    requires Inv(s, loc) && Step(s, ClosedAll(order)) == Some(t)
    ensures Inv(t, loc')
  {
    var dropped := SessionsOf(s.conns, order);
    CloseDistinct(s, order, loc);
    loc' := map id | id in loc :: if loc[id].CachedFor? then IsClosed else loc[id];
    forall id | id in dropped ensures id in loc && loc[id].CachedFor? {
      var i :| 0 <= i < |order| && dropped[i] == id;
      assert order[i] in order;
      assert At(s, id, CachedFor(order[i]));
    }
    forall id | id in loc && loc[id].CachedFor? ensures id in dropped {
      assert At(s, id, loc[id]);
      var i :| 0 <= i < |order| && order[i] == loc[id].key;
      assert dropped[i] == id;
    }
    forall p, id ensures At(t, id, p) <==> id in loc' && loc'[id] == p {
      assert At(s, id, p) <==> id in loc && loc[id] == p;
      assert At(s, id, IsClosed) <==> id in loc && loc[id] == IsClosed;
    }
  }

  lemma CloseDistinct(s: State, order: seq<ConnKey>, loc: map<SessionId, Place>)
    requires Inv(s, loc) && Enumerates(order, s.conns.Keys)
    ensures Distinct(s.closed + SessionsOf(s.conns, order))
  {
    var dropped := SessionsOf(s.conns, order);
    forall i | 0 <= i < |order| ensures At(s, dropped[i], CachedFor(order[i])) {
      assert order[i] in order;
    }
    forall i | 0 <= i < |s.closed| ensures At(s, s.closed[i], IsClosed) {}
  }

  /** In every state of every interleaving, each dialled session is in exactly one place and no
      call returns a session dialled for somebody else. */
  lemma {:induction false} OnePlace(ss: seq<State>, es: seq<Event>)
    requires Run(ss, es)
    ensures forall i :: 0 <= i < |ss| ==> OnePlaceEach(ss[i])
  {
    var n, loc: map<SessionId, Place> := 0, map[];
    InvIsOnePlaceEach(ss[0], loc);
    while n < |es|
      invariant 0 <= n <= |es| && Inv(ss[n], loc)
      invariant forall i :: 0 <= i <= n ==> OnePlaceEach(ss[i])
      decreases |es| - n
    {
      var s, e, t := ss[n], es[n], ss[n + 1];
      match e {
        case Installed(c) => loc := InstallMoves(s, c, t, loc);
        case ClosedAll(order) => loc := CloseMoves(s, order, t, loc);
        case _ => loc := CallMoves(s, e, t, loc);
      }
      n := n + 1;
      InvIsOnePlaceEach(ss[n], loc);
    }
  }
}
