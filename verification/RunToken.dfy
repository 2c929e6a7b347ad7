/** Run tokens (internal/runtoken): minting and renewal with expiry cut to whole seconds and to
    the session deadline, the compact three-part token form of section 7.1 of RFC 7515, and the
    self-expiring revocation list. Instants and durations are nanoseconds. */
module RunToken {
  import opened Wrappers
  import opened Text

  const SECOND := 1_000_000_000
  const MINUTE := 60 * SECOND
  const TTL := 15 * MINUTE

  datatype Request = Request(
    runId: string, sessionId: string, agent: string, userId: string, orgId: string,
    grants: seq<string>, mcpServers: seq<string>)

  datatype Claims = Claims(req: Request, jti: string, issuedAt: int, expiresAt: int)

  datatype Error = Malformed | BadSignature | Expired | Revoked | SessionEnded | SessionExpired | NoSession | StoreFailed

  /** time.Time.Unix: whole seconds, rounded down. */
  function Unix(t: int): int {
    t / SECOND
  }

  /** An earlier second is an earlier instant. */
  lemma UnixStrict(a: int, b: int)
    requires Unix(a) < Unix(b)
    ensures a < b
  {}

  // ----- sessions (internal/sessionstore/checker.go)

  datatype Session = Session(status: string, createdAt: int, ttl: Option<int>)

  datatype SessionInfo = SessionInfo(alive: bool, deadline: Option<int>)

  predicate Alive(sess: Session) {
    sess.status != "Terminated"
  }

  function Deadline(sess: Session, maxLifetime: int): int {
    var hard := sess.createdAt + maxLifetime;
    if sess.ttl.Some? && sess.ttl.value < hard then sess.ttl.value else hard
  }

  /** GetSession over one read of the sessions table. */
  function GetSession(sessions: map<string, Session>, id: string, maxLifetime: int): Result<SessionInfo, Error> {
    if id !in sessions then Err(NoSession)
    else Ok(SessionInfo(Alive(sessions[id]), Some(Deadline(sessions[id], maxLifetime))))
  }

  // ----- the compact form

  /** Base64url, JSON and HMAC are foreign; `Lawful` states what the code relies on. */
  datatype Codec = Codec(
    b64: string -> string, unb64: string -> Option<string>,
    marshal: Claims -> string, unmarshal: string -> Option<Claims>,
    mac: string -> string)

  ghost predicate Lawful(c: Codec) {
    && (forall s :: c.unb64(c.b64(s)) == Some(s) && Free(c.b64(s), '.'))
    && (forall x :: c.unmarshal(c.marshal(x)) == Some(x))
  }

  const HEADER := "{\"alg\":\"HS256\",\"typ\":\"JWT\"}"

  function Encode(c: Codec, claims: Claims): string {
    var signed := c.b64(HEADER) + ['.'] + c.b64(c.marshal(claims));
    signed + ['.'] + c.b64(c.mac(signed))
  }

  function Decode(c: Codec, token: string): Result<Claims, Error> {
    var parts := Split(token, '.');
    if |parts| != 3 then Err(Malformed)
    else if c.unb64(parts[2]) != Some(c.mac(parts[0] + ['.'] + parts[1])) then Err(BadSignature)
    else
      var raw := c.unb64(parts[1]);
      if raw.None? || c.unmarshal(raw.value).None? then Err(Malformed)
      else Ok(c.unmarshal(raw.value).value)
  }

  lemma DecodeUndoesEncode(c: Codec, claims: Claims)
    requires Lawful(c)
    ensures Decode(c, Encode(c, claims)) == Ok(claims)
  {
    var h, b := c.b64(HEADER), c.b64(c.marshal(claims));
    var g := c.b64(c.mac(h + ['.'] + b));
    var token := h + ['.'] + b + ['.'] + g;
    assert Free(h, '.') && Free(b, '.') && Free(g, '.');
    SplitCons(h, '.', b + ['.'] + g, "");
    SplitCons(b, '.', g, "");
    SplitFree(g, '.', "");
    assert token == h + ['.'] + (b + ['.'] + g);
    assert "" + h == h && "" + b == b && "" + g == g;
    assert Split(token, '.') == [h, b, g];
  }

  /** A token is accepted exactly when it is two dot-free parts signed by a third. */
  lemma DecodeAccepts(c: Codec, token: string, claims: Claims)
    ensures Decode(c, token) == Ok(claims) <==>
      exists h, b, g ::
        && Free(h, '.') && Free(b, '.') && Free(g, '.') && token == h + ['.'] + b + ['.'] + g
        && c.unb64(g) == Some(c.mac(h + ['.'] + b))
        && c.unb64(b).Some? && c.unmarshal(c.unb64(b).value) == Some(claims)
  {
    if Decode(c, token) == Ok(claims) {
      var p := Split(token, '.');
      JoinUndoesSplit(token, '.', "");
      assert "" + token == token;
      assert p[1..][1..] == [p[2]];
      assert Join(p[1..], '.') == p[1] + ['.'] + Join(p[1..][1..], '.');
      assert token == p[0] + ['.'] + (p[1] + ['.'] + p[2]);
      assert token == p[0] + ['.'] + p[1] + ['.'] + p[2];
      assert Free(p[0], '.') && Free(p[1], '.') && Free(p[2], '.');
    }
    forall h, b, g | Free(h, '.') && Free(b, '.') && Free(g, '.') && token == h + ['.'] + b + ['.'] + g
      ensures Split(token, '.') == [h, b, g]
    {
      SplitCons(h, '.', b + ['.'] + g, "");
      SplitCons(b, '.', g, "");
      SplitFree(g, '.', "");
      assert token == h + ['.'] + (b + ['.'] + g);
      assert "" + h == h && "" + b == b && "" + g == g;
    }
  }

  // ----- the service

  /** encodeToken without the encoding: the claims of a token issued at `now`. */
  function Issue(req: Request, deadline: Option<int>, jti: string, now: int): Result<Claims, Error> {
    var full := now + TTL;
    var exp := if deadline.Some? && full > deadline.value then deadline.value else full;
    if exp <= now then Err(SessionExpired)
    else Ok(Claims(req, jti, Unix(now), Unix(exp)))
  }

  /** A token is issued exactly if the deadline, if any, is ahead. It carries the request and the id
      it was asked for, and expires 15 minutes from now or at the deadline, whichever is sooner. */
  lemma IssueBounds(req: Request, deadline: Option<int>, jti: string, now: int)
    ensures Issue(req, deadline, jti, now).Ok? <==> (deadline.Some? ==> now < deadline.value)
    ensures Issue(req, deadline, jti, now).Ok? ==>
      var c := Issue(req, deadline, jti, now).value;
      && c.req == req && c.jti == jti && c.issuedAt == Unix(now)
      && c.expiresAt <= Unix(now + TTL) && (deadline.Some? ==> c.expiresAt <= Unix(deadline.value))
      && (c.expiresAt == Unix(now) + 900 || (deadline.Some? && c.expiresAt == Unix(deadline.value)))
      && c.issuedAt <= c.expiresAt
  {
    assert Unix(now + TTL) == Unix(now) + 900;
  }

  /** Revoked ids, each with the instant at which Redis drops it. */
  type Entries = map<string, int>

  predicate IsRevoked(entries: Entries, jti: string, now: int) {
    jti in entries && now < entries[jti]
  }

  predicate Valid(entries: Entries, claims: Claims, now: int) {
    Unix(now) < claims.expiresAt && !IsRevoked(entries, claims.jti, now)
  }

  function ValidateToken(c: Codec, entries: Entries, token: string, now: int): Result<Claims, Error> {
    var d := Decode(c, token);
    if d.Err? then d
    else if Unix(now) >= d.value.expiresAt then Err(Expired)
    else if IsRevoked(entries, d.value.jti, now) then Err(Revoked)
    else d
  }

  function RenewToken(c: Codec, entries: Entries, sessions: map<string, Session>, maxLifetime: int,
                      token: string, now: int): Result<Claims, Error>
  {
    var d := ValidateToken(c, entries, token, now);
    if d.Err? then d
    else
      var info := GetSession(sessions, d.value.req.sessionId, maxLifetime);
      if info.Err? then Err(info.error)
      else if !info.value.alive then Err(SessionEnded)
      else Issue(d.value.req, info.value.deadline, d.value.jti, now)
  }

  function MintToken(sessions: map<string, Session>, maxLifetime: int, req: Request, jti: string,
                     now: int): Result<Claims, Error> {
    var info := GetSession(sessions, req.sessionId, maxLifetime);
    if info.Err? then Err(info.error)
    else if !info.value.alive then Err(SessionEnded)
    else Issue(req, info.value.deadline, jti, now)
  }

  /** The remaining whole seconds of a token, as a duration. */
  function RemainingTtl(claims: Claims, now: int): int {
    (claims.expiresAt - Unix(now)) * SECOND
  }

  /** What Revoke leaves in the store: a second Set replaces the entry and its lifetime. */
  function AfterRevoke(entries: Entries, claims: Claims, now: int): Entries {
    var ttl := RemainingTtl(claims, now);
    if ttl <= 0 then entries else entries[claims.jti := now + ttl]
  }

  /** The revocation list as a keyed store with lifetimes (internal/runtoken/revocations.go). */
  class Revocations {
    var entries: Entries

    constructor ()
      ensures entries == map[]
    {
      entries := map[];
    }

    method Revoke(jti: string, ttl: int, now: int)
      modifies this
      ensures entries == old(entries)[jti := now + ttl]
    {
      entries := entries[jti := now + ttl];
    }

    method Contains(jti: string, now: int) returns (revoked: bool)
      ensures revoked == IsRevoked(entries, jti, now)
    {
      revoked := jti in entries && now < entries[jti];
    }
  }

  /** Validation against a store that may be missing, or down when it is asked. */
  function Validated(c: Codec, store: Option<Entries>, up: bool, token: string, now: int): Result<Claims, Error> {
    var bare := ValidateToken(c, map[], token, now);
    if store.None? || bare.Err? then bare
    else if !up then Err(StoreFailed)
    else ValidateToken(c, store.value, token, now)
  }

  /** What Validate answers: the claims exactly for a token that decodes, has not expired and, if
      there is a store, is not on record there; otherwise the first of these that fails. */
  lemma ValidateAnswers(c: Codec, store: Option<Entries>, up: bool, token: string, now: int)
    ensures var r, d := Validated(c, store, up, token, now), Decode(c, token);
      && (forall claims :: r == Ok(claims) <==>
            && d == Ok(claims) && Unix(now) < claims.expiresAt
            && (store.Some? ==> up && !IsRevoked(store.value, claims.jti, now)))
      && (forall claims :: store.Some? && up ==>
            (r == Ok(claims) <==> d == Ok(claims) && Valid(store.value, claims, now)))
      && (r == Err(StoreFailed) <==>
            || d == Err(StoreFailed) || (d.Ok? && Unix(now) < d.value.expiresAt && store.Some? && !up))
      && (d.Err? ==> r == d)
      && (d.Ok? ==> (r == Err(Expired) <==> d.value.expiresAt <= Unix(now)))
      && (d.Ok? ==> (r == Err(Revoked) <==>
            Unix(now) < d.value.expiresAt && store.Some? && up && IsRevoked(store.value, d.value.jti, now)))
  {}

  /** A session hands out tokens exactly while it exists, is alive and has its deadline ahead. */
  lemma MintsIff(sessions: map<string, Session>, maxLifetime: int, req: Request, jti: string, now: int)
    ensures var id := req.sessionId; var r := MintToken(sessions, maxLifetime, req, jti, now);
      && (r.Ok? <==> && id in sessions && sessions[id].status != "Terminated"
                     && now < sessions[id].createdAt + maxLifetime
                     && (sessions[id].ttl.Some? ==> now < sessions[id].ttl.value))
      && (r == Err(NoSession) <==> id !in sessions)
      && (r == Err(SessionEnded) <==> id in sessions && sessions[id].status == "Terminated")
  {
    if req.sessionId in sessions {
      IssueBounds(req, Some(Deadline(sessions[req.sessionId], maxLifetime)), jti, now);
    }
  }

  class Service {
    const codec: Codec
    const revocations: Revocations?

    constructor (codec: Codec, revocations: Revocations?)
      ensures this.codec == codec && this.revocations == revocations
    {
      this.codec, this.revocations := codec, revocations;
    }

    ghost function Store(): Option<Entries>
      reads revocations
    {
      if revocations == null then None else Some(revocations.entries)
    }

    /** `up` tells whether the revocation store answers. */
    method Validate(token: string, now: int, up: bool) returns (r: Result<Claims, Error>)
      ensures r == Validated(codec, Store(), up, token, now)
    {
      r := Decode(codec, token);
      if r.Ok? {
        if Unix(now) >= r.value.expiresAt {
          return Err(Expired);
        }
        if revocations != null {
          if !up {
            return Err(StoreFailed);
          }
          var revoked := revocations.Contains(r.value.jti, now);
          if revoked {
            return Err(Revoked);
          }
        }
      }
    }

    /** `up` tells whether the revocation store takes the entry. */
    method Revoke(token: string, now: int, up: bool) returns (e: Option<Error>)
      requires revocations != null
      modifies revocations
      ensures match Decode(codec, token)
        case Err(x) => e == Some(x) && revocations.entries == old(revocations.entries)
        case Ok(claims) =>
          && e == (if up || RemainingTtl(claims, now) <= 0 then None else Some(StoreFailed))
          && revocations.entries == if up then AfterRevoke(old(revocations.entries), claims, now) else old(revocations.entries)
    {
      var d := Decode(codec, token);
      if d.Err? {
        return Some(d.error);
      }
      var ttl := (d.value.expiresAt - Unix(now)) * SECOND;
      if ttl <= 0 {
        return None;
      }
      if !up {
        return Some(StoreFailed);
      }
      revocations.Revoke(d.value.jti, ttl, now);
      return None;
    }
  }
}
