/** Runs of mint, renew and revoke calls under a clock that never goes back, with sessions that
    come, change and go in between. A presented token that decodes was issued by the service. */
module RunTokenRuns {
  import opened Wrappers
  import opened RunToken

  /** `renewing` holds the renewals under way: claims that passed their check, until they are issued
      anew. `issued` and `minted` are histories: every token ever encoded, and the request behind
      each id. */
  datatype State = State(
    now: int, sessions: map<string, Session>, entries: Entries, renewing: seq<Option<Claims>>,
    issued: set<Claims>, minted: map<string, Request>)

  datatype Event =
    | Tick(t: int)
    | PutSession(id: string, sess: Session)
    | DropSession(id: string)
    | Mint(req: Request, jti: string)
    | RenewCheck(token: string) // validates
    | RenewIssue(r: nat)        // reads the session and issues
    | Revoke(token: string)

  ghost predicate Genuine(c: Codec, s: State, token: string) {
    Decode(c, token).Ok? ==> Decode(c, token).value in s.issued
  }

  /** One call, or None when the event cannot happen: the clock goes forward, new token ids are
      fresh and presented tokens genuine. A call that fails changes nothing. */
  ghost function Step(c: Codec, maxLifetime: int, s: State, e: Event): Option<State> {
    match e
    case Tick(t) => if s.now <= t then Some(s.(now := t)) else None
    case PutSession(id, sess) => Some(s.(sessions := s.sessions[id := sess]))
    case DropSession(id) => Some(s.(sessions := s.sessions - {id}))
    case Mint(req, jti) =>
      var r := MintToken(s.sessions, maxLifetime, req, jti, s.now);
      if jti in s.minted then None
      else if r.Err? then Some(s)
      else Some(s.(issued := s.issued + {r.value}, minted := s.minted[jti := req]))
    case RenewCheck(token) =>
      var d := ValidateToken(c, s.entries, token, s.now);
      if !Genuine(c, s, token) then None
      else if d.Err? then Some(s)
      else Some(s.(renewing := s.renewing + [Some(d.value)]))
    case RenewIssue(r) =>
      if r < |s.renewing| && s.renewing[r].Some? then
        var issued := Reissue(s, maxLifetime, s.renewing[r].value);
        var t := s.(renewing := s.renewing[r := None]);
        Some(if issued.Err? then t else t.(issued := s.issued + {issued.value}))
      else None
    case Revoke(token) =>
      var d := Decode(c, token);
      if !Genuine(c, s, token) then None
      else if d.Err? then Some(s)
      else Some(s.(entries := AfterRevoke(s.entries, d.value, s.now)))
  }

  /** The second half of a renewal. */
  ghost function Reissue(s: State, maxLifetime: int, claims: Claims): Result<Claims, Error> {
    MintToken(s.sessions, maxLifetime, claims.req, claims.jti, s.now)
  }

  /** The two halves in a row are Renew. */
  lemma RenewIsBoth(c: Codec, maxLifetime: int, s: State, token: string)
    requires ValidateToken(c, s.entries, token, s.now).Ok?
    ensures RenewToken(c, s.entries, s.sessions, maxLifetime, token, s.now)
         == Reissue(s, maxLifetime, ValidateToken(c, s.entries, token, s.now).value)
  {}

  ghost predicate Run(c: Codec, maxLifetime: int, ss: seq<State>, es: seq<Event>) {
    && |ss| == |es| + 1
    && ss[0].entries == map[] && ss[0].renewing == [] && ss[0].issued == {} && ss[0].minted == map[]
    && forall i :: 0 <= i < |es| ==> Linked(c, maxLifetime, ss, es, i)
  }

  ghost predicate Linked(c: Codec, maxLifetime: int, ss: seq<State>, es: seq<Event>, i: nat)
    requires i < |es| < |ss|
  {
    Step(c, maxLifetime, ss[i], es[i]) == Some(ss[i + 1])
  }

  // ---------------------------------------------------------------------------------------------
  // Identity and lifetime

  /** In state `s` the token's session was alive and long enough ahead of the token's expiry. */
  ghost predicate Vouches(s: State, maxLifetime: int, claims: Claims) {
    var id := claims.req.sessionId;
    && id in s.sessions && Alive(s.sessions[id])
    && claims.expiresAt <= Unix(s.now + TTL)
    && claims.expiresAt <= Unix(Deadline(s.sessions[id], maxLifetime))
  }

  ghost predicate Rooted(s: State, claims: Claims) {
    claims.jti in s.minted && s.minted[claims.jti] == claims.req
  }

  /** A token that was not there before the step was issued in a live session, and is rooted. */
  lemma NewToken(c: Codec, maxLifetime: int, s: State, e: Event, t: State, claims: Claims)
    requires Step(c, maxLifetime, s, e) == Some(t) && claims in t.issued && claims !in s.issued
    requires (forall x :: x in s.issued ==> Rooted(s, x)) && RenewingIssued(s)
    ensures Vouches(s, maxLifetime, claims) && Rooted(t, claims)
  {
    var id := claims.req.sessionId;
    match e
    case Mint(req, jti) => IssueBounds(req, Some(Deadline(s.sessions[id], maxLifetime)), jti, s.now);
    case RenewIssue(r) =>
      var d := s.renewing[r].value;
      IssueBounds(d.req, Some(Deadline(s.sessions[id], maxLifetime)), d.jti, s.now);
      assert Rooted(s, d);
  }

  /** Only issued tokens are renewed. */
  ghost predicate RenewingIssued(s: State) {
    forall r :: 0 <= r < |s.renewing| && s.renewing[r].Some? ==> s.renewing[r].value in s.issued
  }

  lemma RenewingStep(c: Codec, maxLifetime: int, s: State, e: Event, t: State)
    requires Step(c, maxLifetime, s, e) == Some(t) && RenewingIssued(s)
    ensures RenewingIssued(t)
  {}

  /** Every token of every run keeps the run, session, agent, user, organisation, grants and
      servers of the one mint that introduced its id, however often it was renewed; and some
      earlier state of the run vouches for it. */
  lemma {:induction false} TokensKeepIdentity(c: Codec, maxLifetime: int, ss: seq<State>, es: seq<Event>, j: nat)
    requires Run(c, maxLifetime, ss, es) && j <= |es|
    ensures RenewingIssued(ss[j])
    ensures forall x :: x in ss[j].issued ==>
      Rooted(ss[j], x) && exists i :: 0 <= i <= j && Vouches(ss[i], maxLifetime, x)
    decreases j
  {
    if j > 0 {
      TokensKeepIdentity(c, maxLifetime, ss, es, j - 1);
      var s, t := ss[j - 1], ss[j];
      assert Linked(c, maxLifetime, ss, es, j - 1);
      RenewingStep(c, maxLifetime, s, es[j - 1], t);
      forall x | x in t.issued
        ensures Rooted(t, x) && exists i :: 0 <= i <= j && Vouches(ss[i], maxLifetime, x)
      {
        if x !in s.issued {
          NewToken(c, maxLifetime, s, es[j - 1], t, x);
          assert Vouches(ss[j - 1], maxLifetime, x);
        } else {
          assert Rooted(s, x);
          var i :| 0 <= i <= j - 1 && Vouches(ss[i], maxLifetime, x);
        }
      }
    }
  }

  /** A token that Validate accepts, whatever its store holds, belongs to a session that was alive
      less than 15 minutes ago, and is accepted before the deadline the session then had. */
  lemma NoTokenOutlivesSession(c: Codec, maxLifetime: int, ss: seq<State>, es: seq<Event>, j: nat,
                               store: Option<Entries>, up: bool, token: string)
    requires Run(c, maxLifetime, ss, es) && j <= |es|
    requires Genuine(c, ss[j], token) && Validated(c, store, up, token, ss[j].now).Ok?
    ensures exists i :: 0 <= i <= j && Covers(ss[i], maxLifetime, Decode(c, token).value.req.sessionId, ss[j].now)
  {
    ValidateAnswers(c, store, up, token, ss[j].now);
    var claims := Decode(c, token).value;
    TokensKeepIdentity(c, maxLifetime, ss, es, j);
    var i :| 0 <= i <= j && Vouches(ss[i], maxLifetime, claims);
    var s := ss[i];
    var deadline := Deadline(s.sessions[claims.req.sessionId], maxLifetime);
    UnixStrict(ss[j].now, s.now + TTL);
    UnixStrict(ss[j].now, deadline);
    assert Covers(ss[i], maxLifetime, claims.req.sessionId, ss[j].now);
  }

  ghost predicate Covers(s: State, maxLifetime: int, session: string, now: int) {
    && session in s.sessions && Alive(s.sessions[session])
    && now < s.now + TTL
    && now < Deadline(s.sessions[session], maxLifetime)
  }

  /** With a session whose deadline never changes, Validate accepts no token of it at or after the
      deadline, whatever its store holds. */
  lemma DeadlineIsHard(c: Codec, maxLifetime: int, ss: seq<State>, es: seq<Event>, j: nat,
                       store: Option<Entries>, up: bool, token: string, deadline: int)
    requires Run(c, maxLifetime, ss, es) && j <= |es| && Genuine(c, ss[j], token)
    requires Decode(c, token).Ok?
    requires forall i :: 0 <= i <= j && Decode(c, token).value.req.sessionId in ss[i].sessions ==>
      Deadline(ss[i].sessions[Decode(c, token).value.req.sessionId], maxLifetime) == deadline
    ensures ss[j].now >= deadline ==> Validated(c, store, up, token, ss[j].now).Err?
  {
    if Validated(c, store, up, token, ss[j].now).Ok? {
      NoTokenOutlivesSession(c, maxLifetime, ss, es, j, store, up, token);
    }
  }

  // ---------------------------------------------------------------------------------------------
  // Revocation

  /** The floor arithmetic: the entry's lifetime counts whole seconds from a rounded-down instant,
      so it ends at or after the token's expiry second, and less than a second after it. */
  lemma EntryOutlivesExpiry(claims: Claims, now: int)
    ensures claims.expiresAt * SECOND <= now + RemainingTtl(claims, now) < (claims.expiresAt + 1) * SECOND
  {
    assert now == Unix(now) * SECOND + now % SECOND;
    assert now + (claims.expiresAt - Unix(now)) * SECOND == claims.expiresAt * SECOND + now % SECOND;
  }

  lemma ExpiredByInstant(now: int, last: int)
    ensures now >= last * SECOND <==> Unix(now) >= last
  {}

  /** The revocation entry of `jti`, if still needed, outlives second `last`. */
  ghost predicate Covered(s: State, jti: string, last: int) {
    jti in s.minted && (s.now >= last * SECOND || (jti in s.entries && s.entries[jti] >= last * SECOND))
  }

  /** A covered token that expires by then never validates. */
  lemma CoveredNeverValid(s: State, jti: string, last: int, claims: Claims)
    requires Covered(s, jti, last) && claims.jti == jti && claims.expiresAt <= last
    ensures !Valid(s.entries, claims, s.now)
  {
    ExpiredByInstant(s.now, last);
  }

  /** Later revocations of the same id are of tokens that expire no earlier. */
  ghost predicate NoOlderRevocation(c: Codec, e: Event, jti: string, last: int) {
    e.Revoke? && Decode(c, e.token).Ok? && Decode(c, e.token).value.jti == jti ==>
      Decode(c, e.token).value.expiresAt >= last
  }

  lemma CoveredStep(c: Codec, maxLifetime: int, s: State, e: Event, t: State, jti: string, last: int)
    requires Covered(s, jti, last) && Step(c, maxLifetime, s, e) == Some(t) && NoOlderRevocation(c, e, jti, last)
    ensures Covered(t, jti, last)
  {
    if e.Revoke? && Decode(c, e.token).Ok? { EntryOutlivesExpiry(Decode(c, e.token).value, s.now); }
  }

  /** Revoking a token covers its id up to its expiry. */
  lemma RevokeCovers(c: Codec, maxLifetime: int, s: State, token: string, t: State)
    requires Step(c, maxLifetime, s, Revoke(token)) == Some(t) && Decode(c, token).Ok?
    requires Rooted(s, Decode(c, token).value)
    ensures Covered(t, Decode(c, token).value.jti, Decode(c, token).value.expiresAt)
  {
    var d := Decode(c, token).value;
    EntryOutlivesExpiry(d, s.now);
    ExpiredByInstant(s.now, d.expiresAt);
  }

  /** No renewal of the id is between its check and its issue. */
  ghost predicate NoneRenewing(s: State, jti: string) {
    forall r :: 0 <= r < |s.renewing| && s.renewing[r].Some? ==> s.renewing[r].value.jti != jti
  }

  /** All tokens of `jti` expire by second `last`, none is being renewed, and the entry covers them. */
  ghost predicate Dead(s: State, jti: string, last: int) {
    && (forall x :: x in s.issued && x.jti == jti ==> x.expiresAt <= last)
    && NoneRenewing(s, jti) && Covered(s, jti, last)
  }

  /** A dead id stays dead, and gets no new token. */
  lemma DeadStep(c: Codec, maxLifetime: int, s: State, e: Event, t: State, jti: string, last: int)
    requires Dead(s, jti, last) && Step(c, maxLifetime, s, e) == Some(t) && NoOlderRevocation(c, e, jti, last)
    ensures Dead(t, jti, last)
    ensures forall x :: x in t.issued && x.jti == jti ==> x in s.issued
  {
    CoveredStep(c, maxLifetime, s, e, t, jti, last);
    if e.RenewCheck? && Decode(c, e.token).Ok? && Decode(c, e.token).value.jti == jti {
      CoveredNeverValid(s, jti, last, Decode(c, e.token).value);
    }
  }

  /** The newest token of the id at this point of a run is revoked, and no older one after it. */
  ghost predicate RevokesNewest(c: Codec, maxLifetime: int, ss: seq<State>, es: seq<Event>, i: nat, d: Claims) {
    && Run(c, maxLifetime, ss, es) && i < |es| && es[i].Revoke? && Decode(c, es[i].token) == Ok(d)
    && (forall x :: x in ss[i].issued && x.jti == d.jti ==> x.expiresAt <= d.expiresAt)
    && (forall k :: i < k < |es| ==> NoOlderRevocation(c, es[k], d.jti, d.expiresAt))
  }

  /** Whatever is under way, no token of the id that expires by then validates again. */
  lemma {:induction false} StaysCovered(c: Codec, maxLifetime: int, ss: seq<State>, es: seq<Event>, i: nat, d: Claims, j: nat)
    requires RevokesNewest(c, maxLifetime, ss, es, i, d) && i < j <= |es|
    ensures Covered(ss[j], d.jti, d.expiresAt)
    decreases j
  {
    assert Linked(c, maxLifetime, ss, es, j - 1);
    if j == i + 1 {
      TokensKeepIdentity(c, maxLifetime, ss, es, i);
      RevokeCovers(c, maxLifetime, ss[i], es[i].token, ss[j]);
    } else {
      StaysCovered(c, maxLifetime, ss, es, i, d, j - 1);
      CoveredStep(c, maxLifetime, ss[j - 1], es[j - 1], ss[j], d.jti, d.expiresAt);
    }
  }

  /** Once the newest token of an id is revoked, with no renewal of it under way, no token with that
      id validates or is issued again, as long as no older token of the id is revoked afterwards. */
  lemma {:induction false} RevokedForGood(c: Codec, maxLifetime: int, ss: seq<State>, es: seq<Event>, i: nat, d: Claims, j: nat)
    requires RevokesNewest(c, maxLifetime, ss, es, i, d) && NoneRenewing(ss[i], d.jti) && i < j <= |es|
    ensures Dead(ss[j], d.jti, d.expiresAt)
    ensures forall x :: x in ss[j].issued && x.jti == d.jti ==> x in ss[i].issued && !Valid(ss[j].entries, x, ss[j].now)
    decreases j
  {
    StaysCovered(c, maxLifetime, ss, es, i, d, j);
    assert Linked(c, maxLifetime, ss, es, j - 1);
    if j > i + 1 {
      RevokedForGood(c, maxLifetime, ss, es, i, d, j - 1);
      DeadStep(c, maxLifetime, ss[j - 1], es[j - 1], ss[j], d.jti, d.expiresAt);
    } else {
      RevokeFrame(c, maxLifetime, ss[i], es[i], ss[j]);
    }
    AllDead(ss[j], d.jti, d.expiresAt);
  }

  lemma RevokeFrame(c: Codec, maxLifetime: int, s: State, e: Event, t: State)
    requires Step(c, maxLifetime, s, e) == Some(t) && e.Revoke?
    ensures t.issued == s.issued && t.renewing == s.renewing
  {}

  lemma AllDead(s: State, jti: string, last: int)
    requires Dead(s, jti, last)
    ensures forall x :: x in s.issued && x.jti == jti ==> !Valid(s.entries, x, s.now)
  {
    forall x | x in s.issued && x.jti == jti ensures !Valid(s.entries, x, s.now) {
      CoveredNeverValid(s, jti, last, x);
    }
  }

  /** So Validate refuses every token of the id from then on. */
  lemma RefusedForGood(c: Codec, maxLifetime: int, ss: seq<State>, es: seq<Event>, i: nat, d: Claims, j: nat,
                       token: string, up: bool)
    requires RevokesNewest(c, maxLifetime, ss, es, i, d) && NoneRenewing(ss[i], d.jti) && i < j <= |es|
    requires Genuine(c, ss[j], token) && Decode(c, token).Ok? && Decode(c, token).value.jti == d.jti
    ensures Validated(c, Some(ss[j].entries), up, token, ss[j].now).Err?
  {
    RevokedForGood(c, maxLifetime, ss, es, i, d, j);
    ValidateAnswers(c, Some(ss[j].entries), up, token, ss[j].now);
  }

  /** A revoked token is refused at every later instant for as long as its entry is let be, the
      answers for tokens of other ids stay as they were, and an expired token is not entered at all. */
  lemma RevokedIsRefused(c: Codec, entries: Entries, revoked: Claims, now: int, token: string, later: int, up: bool)
    requires now <= later && Decode(c, token).Ok?
    ensures var claims := Decode(c, token).value; var after := AfterRevoke(entries, revoked, now);
      && (claims == revoked ==> Validated(c, Some(after), up, token, later).Err?)
      && (claims.jti != revoked.jti ==>
            Validated(c, Some(after), up, token, later) == Validated(c, Some(entries), up, token, later))
      && (revoked.expiresAt <= Unix(now) ==> after == entries)
  {
    var after := AfterRevoke(entries, revoked, now);
    EntryOutlivesExpiry(revoked, now);
    ExpiredByInstant(later, revoked.expiresAt);
    ExpiredByInstant(now, revoked.expiresAt);
    ValidateAnswers(c, Some(after), up, token, later);
    ValidateAnswers(c, Some(entries), up, token, later);
  }

  /** When an entry that lasts to second `last` and no further leaves room for a token. */
  lemma ValidLaterIff(entries: Entries, now: int, x: Claims, last: int)
    requires x.jti in entries && last * SECOND <= entries[x.jti] < (last + 1) * SECOND && now <= entries[x.jti]
    ensures (exists u :: u >= now && Valid(entries, x, u)) <==> last < x.expiresAt
  {
    var dropped := entries[x.jti];
    if last < x.expiresAt {
      ExpiredByInstant(dropped, x.expiresAt);
      assert dropped >= now && Valid(entries, x, dropped);
    } else {
      forall u | u >= now && Valid(entries, x, u) ensures false {
        ExpiredByInstant(u, x.expiresAt);
      }
    }
  }

  /** The proviso on renewals is exact: a token issued while the entry of the revoked one stands can
      validate at some later instant if and only if it expires later than the revoked one. */
  lemma RenewalEscapesIff(s: State, revoked: Claims, at: int, x: Claims)
    requires x.jti == revoked.jti && x.jti in s.entries && s.entries[x.jti] == at + RemainingTtl(revoked, at)
    requires s.now <= s.entries[x.jti]
    ensures (exists u :: u >= s.now && Valid(s.entries, x, u)) <==> revoked.expiresAt < x.expiresAt
  {
    EntryOutlivesExpiry(revoked, at);
    ValidLaterIff(s.entries, s.now, x, revoked.expiresAt);
  }

  /** The proviso on revocations is exact: after a live token of the id is revoked, a sibling token
      can validate at some later instant if and only if it expires later than the one revoked last. */
  lemma OlderRevocationRevives(entries: Entries, now: int, sibling: Claims, revoked: Claims)
    requires sibling.jti == revoked.jti && Unix(now) < revoked.expiresAt
    ensures (exists u :: u >= now && Valid(AfterRevoke(entries, revoked, now), sibling, u))
       <==> revoked.expiresAt < sibling.expiresAt
  {
    EntryOutlivesExpiry(revoked, now);
    ValidLaterIff(AfterRevoke(entries, revoked, now), now, sibling, revoked.expiresAt);
  }

  // ---------------------------------------------------------------------------------------------
  // Runs that reach such states

  const HOUR := 60 * MINUTE

  /** A session, and the tokens of one id issued at second 0 and at second 60. */
  function Sessions(req: Request): map<string, Session> {
    map[req.sessionId := Session("Running", 0, None)]
  }

  function First(req: Request, jti: string): Claims {
    Claims(req, jti, 0, 900)
  }

  function Second(req: Request, jti: string): Claims {
    Claims(req, jti, 60, 960)
  }

  lemma IssuedThen(req: Request, jti: string)
    ensures MintToken(Sessions(req), HOUR, req, jti, 0) == Ok(First(req, jti))
    ensures MintToken(Sessions(req), HOUR, req, jti, MINUTE) == Ok(Second(req, jti))
  {}

  /** Mint, renew, revoke the newest token, revoke the older one: at second 900 the newest is valid. */
  lemma OlderRevocationRun(c: Codec, req: Request, jti: string) returns (ss: seq<State>, es: seq<Event>)
    requires Lawful(c)
    ensures Run(c, HOUR, ss, es) && |es| == 7
    ensures es[4] == Revoke(Encode(c, Second(req, jti))) && es[5] == Revoke(Encode(c, First(req, jti)))
    ensures var s := ss[|es|]; Second(req, jti) in s.issued && Valid(s.entries, Second(req, jti), s.now)
  {
    var a, b := First(req, jti), Second(req, jti);
    DecodeUndoesEncode(c, a);
    DecodeUndoesEncode(c, b);
    IssuedThen(req, jti);
    var m := map[jti := req];
    var ses := Sessions(req);
    es := [Mint(req, jti), Tick(MINUTE), RenewCheck(Encode(c, a)), RenewIssue(0),
           Revoke(Encode(c, b)), Revoke(Encode(c, a)), Tick(15 * MINUTE)];
    ss := [State(0, ses, map[], [], {}, map[]),
           State(0, ses, map[], [], {a}, m),
           State(MINUTE, ses, map[], [], {a}, m),
           State(MINUTE, ses, map[], [Some(a)], {a}, m),
           State(MINUTE, ses, map[], [None], {a, b}, m),
           State(MINUTE, ses, map[jti := 960 * SECOND], [None], {a, b}, m),
           State(MINUTE, ses, map[jti := 900 * SECOND], [None], {a, b}, m),
           State(15 * MINUTE, ses, map[jti := 900 * SECOND], [None], {a, b}, m)];
    RenewSteps(c, ss[2], a, b, ss[3], ss[4]);
    assert {} + {a} == {a} && map[][jti := req] == m;
    assert Step(c, HOUR, ss[0], es[0]) == Some(ss[1]) && Step(c, HOUR, ss[1], es[1]) == Some(ss[2]);
    assert map[jti := 960 * SECOND][jti := 900 * SECOND] == map[jti := 900 * SECOND];
    assert Step(c, HOUR, ss[4], es[4]) == Some(ss[5]) && Step(c, HOUR, ss[5], es[5]) == Some(ss[6]);
    assert Step(c, HOUR, ss[6], es[6]) == Some(ss[7]);
    forall n | 0 <= n < |es| ensures Linked(c, HOUR, ss, es, n) {
      assert n == 0 || n == 1 || n == 2 || n == 3 || n == 4 || n == 5 || n == 6;
    }
  }

  /** A renewal at second 60, both halves. */
  lemma RenewSteps(c: Codec, s: State, a: Claims, b: Claims, m: State, t: State)
    requires Decode(c, Encode(c, a)) == Ok(a) && a in s.issued && s.now == MINUTE && s.renewing == []
    requires a == First(a.req, a.jti) && b == Second(a.req, a.jti) && s.sessions == Sessions(a.req) && a.jti !in s.entries
    requires m == s.(renewing := [Some(a)]) && t == s.(renewing := [None], issued := s.issued + {b})
    ensures Step(c, HOUR, s, RenewCheck(Encode(c, a))) == Some(m) && Step(c, HOUR, m, RenewIssue(0)) == Some(t)
  {
    IssuedThen(a.req, a.jti);
    assert [] + [Some(a)] == [Some(a)] && [Some(a)][0 := None] == [None];
  }

  /** Mint, begin to renew, revoke the only token, finish the renewal: at second 900 the renewed token
      is valid. */
  lemma RenewalEscapeRun(c: Codec, req: Request, jti: string) returns (ss: seq<State>, es: seq<Event>)
    requires Lawful(c)
    ensures Run(c, HOUR, ss, es) && |es| == 6 && es[2] == Revoke(Encode(c, First(req, jti)))
    ensures ss[2].issued == {First(req, jti)} && !NoneRenewing(ss[2], jti)
    ensures var s := ss[|es|]; Second(req, jti) in s.issued && Valid(s.entries, Second(req, jti), s.now)
  {
    var a, b := First(req, jti), Second(req, jti);
    DecodeUndoesEncode(c, a);
    IssuedThen(req, jti);
    var m, ses := map[jti := req], Sessions(req);
    var entry := map[jti := 900 * SECOND];
    es := [Mint(req, jti), RenewCheck(Encode(c, a)), Revoke(Encode(c, a)), Tick(MINUTE), RenewIssue(0), Tick(15 * MINUTE)];
    ss := [State(0, ses, map[], [], {}, map[]),
           State(0, ses, map[], [], {a}, m),
           State(0, ses, map[], [Some(a)], {a}, m),
           State(0, ses, entry, [Some(a)], {a}, m),
           State(MINUTE, ses, entry, [Some(a)], {a}, m),
           State(MINUTE, ses, entry, [None], {a, b}, m),
           State(15 * MINUTE, ses, entry, [None], {a, b}, m)];
    assert {} + {a} == {a} && map[][jti := req] == m && map[][jti := 900 * SECOND] == entry;
    assert [] + [Some(a)] == [Some(a)] && [Some(a)][0 := None] == [None];
    assert Step(c, HOUR, ss[0], es[0]) == Some(ss[1]) && Step(c, HOUR, ss[1], es[1]) == Some(ss[2]);
    assert Step(c, HOUR, ss[2], es[2]) == Some(ss[3]) && Step(c, HOUR, ss[3], es[3]) == Some(ss[4]);
    assert {a} + {b} == {a, b};
    assert Step(c, HOUR, ss[4], es[4]) == Some(ss[5]) && Step(c, HOUR, ss[5], es[5]) == Some(ss[6]);
    forall n | 0 <= n < |es| ensures Linked(c, HOUR, ss, es, n) {
      assert n == 0 || n == 1 || n == 2 || n == 3 || n == 4 || n == 5;
    }
    assert ss[2].renewing[0] == Some(a);
  }
}
