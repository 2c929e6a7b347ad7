/** Interleavings of Put, Get, Delete and RotateOrgDEK. A transaction is one step; Put's version
    query and Get's two queries are steps of their own, so a rotation may commit between them.
    The encrypted store refines a plain map from id to (organisation, user, plaintext). */
module SecretsRuns {
  import opened Wrappers
  import opened Secrets

  datatype Entry = Entry(org: Bytes, user: Bytes, plaintext: Bytes)

  datatype Call =
    | Finished
    | Putting(org: Bytes, user: Bytes, plaintext: Bytes, seen: int) // its version query answered `seen`
    | Getting(user: Bytes, id: SecretId, row: Row)                  // it read `row` and may open it

  datatype Reply = Got(user: Bytes, id: SecretId, org: Bytes, plaintext: Bytes) | Refused(error: Error)

  /** `written` records what every committed Put stored; `replies` what every Get returned. */
  datatype State = State(t: Tables, calls: seq<Call>, written: map<SecretId, Entry>, replies: seq<Reply>)

  /** `up` is false when the database fails the step, which rolls a transaction back. */
  datatype Event =
    | BeginPut(org: Bytes, user: Bytes, plaintext: Bytes, seen: int)
    | CommitPut(c: nat, id: SecretId, newDek: Bytes, wrapNonce: Bytes, nonce: Bytes, up: bool)
    | ReadRow(org: Bytes, user: Bytes, id: SecretId, up: bool)
    | FinishGet(c: nat, up: bool)
    | DeleteRow(org: Bytes, user: Bytes, id: SecretId, up: bool)
    | Rotate(org: Bytes, actor: Bytes, current: int, newDek: Bytes, wrapNonce: Bytes, nonces: SecretId -> Bytes, up: bool)

  const Initial := State(Tables(map[], map[], []), [], map[], [])

  /** Keys and nonces have the sizes the code draws. */
  ghost predicate WellDrawn(e: Event) {
    match e
    case CommitPut(_, _, dek, wn, n, _) => |dek| == 32 && |wn| == NONCE && |n| == NONCE
    case Rotate(_, _, _, dek, wn, ns, _) => |dek| == 32 && |wn| == NONCE && forall id :: |ns(id)| == NONCE
    case _ => true
  }

  ghost function PutOf(keys: Keys, s: State, e: Event): Result<Tables, Error>
    requires e.CommitPut? && e.c < |s.calls| && s.calls[e.c].Putting?
  {
    var call := s.calls[e.c];
    if e.up then PutTx(keys, s.t, call.org, call.user, call.plaintext, call.seen, e.id, e.newDek, e.wrapNonce, e.nonce)
    else Err(Unavailable)
  }

  ghost function RotateOf(keys: Keys, s: State, e: Event): Result<Tables, Error>
    requires e.Rotate?
  {
    if e.up then RotateTx(keys, s.t, e.org, e.actor, e.current, e.newDek, e.wrapNonce, e.nonces) else Err(Unavailable)
  }

  ghost function Logged(t: Tables, row: AuditRow): Tables {
    t.(audit := t.audit + [row])
  }

  ghost function Step(keys: Keys, s: State, e: Event): Option<State> {
    match e
    case BeginPut(org, user, plaintext, seen) =>
      if IsCurrent(s.t.deks, org, seen) then Some(s.(calls := s.calls + [Putting(org, user, plaintext, seen)])) else None
    case CommitPut(c, id, _, _, _, _) =>
      if c < |s.calls| && s.calls[c].Putting? && id !in s.written then
        var call, tx, done := s.calls[c], PutOf(keys, s, e), s.calls[c := Finished];
        Some(if tx.Err? then s.(calls := done)
             else s.(t := tx.value, calls := done,
                     written := s.written[id := Entry(call.org, call.user, call.plaintext)]))
      else None
    case ReadRow(org, user, id, up) =>
      var row := Readable(s.t, org, user, id);
      Some(if row.Ok? then s.(calls := s.calls + [Getting(user, id, row.value)])
           else if up then s.(t := Logged(s.t, AuditRow(user, "secret.get", id, false)),
                              replies := s.replies + [Refused(row.error)])
           else s.(replies := s.replies + [Refused(Unavailable)]))
    case FinishGet(c, up) =>
      if c < |s.calls| && s.calls[c].Getting? then
        var call, done := s.calls[c], s.calls[c := Finished];
        var plaintext := Decrypt(keys, s.t.deks, call.row);
        Some(if plaintext.Err? then s.(calls := done, replies := s.replies + [Refused(plaintext.error)])
             else if !up then s.(calls := done, replies := s.replies + [Refused(Unavailable)])
             else s.(t := Logged(s.t, AuditRow(call.user, "secret.get", call.id, true)), calls := done,
                     replies := s.replies + [Got(call.user, call.id, call.row.org, plaintext.value)]))
      else None
    case DeleteRow(org, user, id, up) =>
      Some(if Readable(s.t, org, user, id).Err? then s
           else
             var t := s.t.(secrets := s.t.secrets - {id});
             s.(t := if up then Logged(t, AuditRow(user, "secret.delete", id, true)) else t))
    case Rotate(org, _, current, _, _, _, _) =>
      if IsCurrent(s.t.deks, org, current) then
        var tx := RotateOf(keys, s, e);
        Some(if tx.Err? then s else s.(t := tx.value))
      else None
  }

  ghost predicate Run(keys: Keys, ss: seq<State>, es: seq<Event>) {
    && |ss| == |es| + 1
    && ss[0] == Initial
    && (forall i :: 0 <= i < |es| ==> WellDrawn(es[i]))
    && forall i :: 0 <= i < |es| ==> Step(keys, ss[i], es[i]) == Some(ss[i + 1])
  }

  // ---------------------------------------------------------------------------------------------
  // The plain map

  ghost function Abs(keys: Keys, t: Tables): map<SecretId, Entry> {
    map id | id in t.secrets && Decrypt(keys, t.deks, t.secrets[id]).Ok? ::
      Entry(t.secrets[id].org, t.secrets[id].user, Decrypt(keys, t.deks, t.secrets[id]).value)
  }

  /** What each step does to the plain map: a committed Put adds one entry, Delete removes the
      caller's own entry, everything else changes nothing. */
  ghost predicate PlainStep(keys: Keys, s: State, e: Event, m: map<SecretId, Entry>, m': map<SecretId, Entry>) {
    match e
    case CommitPut(c, id, _, _, _, _) =>
      && c < |s.calls| && s.calls[c].Putting?
      && m' == if PutOf(keys, s, e).Ok?
               then m[id := Entry(s.calls[c].org, s.calls[c].user, s.calls[c].plaintext)] else m
    case DeleteRow(org, user, id, _) =>
      m' == if id in m && m[id].org == org && m[id].user == user then m - {id} else m
    case _ => m' == m
  }

  // ---------------------------------------------------------------------------------------------
  // Invariant

  /** Every stored data key unwraps to a full-size key, and versions are positive. */
  ghost predicate DeksOk(keys: Keys, deks: map<(Bytes, int), Bytes>) {
    forall org, v :: (org, v) in deks ==>
      v > 0 && KekFor(keys, deks, org, v).Ok? && |KekFor(keys, deks, org, v).value| == 32
  }

  ghost predicate RowIs(keys: Keys, deks: map<(Bytes, int), Bytes>, row: Row, entry: Entry) {
    row.org == entry.org && row.user == entry.user && Decrypt(keys, deks, row) == Ok(entry.plaintext)
  }

  ghost predicate RowsOk(keys: Keys, t: Tables, written: map<SecretId, Entry>) {
    forall id :: id in t.secrets ==> id in written && RowIs(keys, t.deks, t.secrets[id], written[id])
  }

  ghost predicate CallsOk(keys: Keys, s: State) {
    forall c :: 0 <= c < |s.calls| ==>
      match s.calls[c]
      case Finished => true
      case Putting(org, _, _, seen) => seen >= 0 && (seen > 0 ==> (org, seen) in s.t.deks)
      case Getting(user, id, row) =>
        row.user == user && id in s.written && RowIs(keys, s.t.deks, row, s.written[id])
  }

  ghost predicate RepliesOk(s: State) {
    forall i :: 0 <= i < |s.replies| && s.replies[i].Got? ==>
      var g := s.replies[i];
      && g.id in s.written && s.written[g.id] == Entry(g.org, g.user, g.plaintext)
      && AuditRow(g.user, "secret.get", g.id, true) in s.t.audit
  }

  ghost predicate PutsLogged(s: State) {
    forall id :: id in s.written ==> AuditRow(s.written[id].user, "secret.put", id, true) in s.t.audit
  }

  ghost predicate Inv(keys: Keys, s: State) {
    && DeksOk(keys, s.t.deks)
    && RowsOk(keys, s.t, s.written)
    && CallsOk(keys, s)
    && RepliesOk(s)
    && PutsLogged(s)
  }

  /** The data keys only grow. */
  ghost predicate Extends(deks: map<(Bytes, int), Bytes>, deks': map<(Bytes, int), Bytes>) {
    forall k :: k in deks ==> k in deks' && deks'[k] == deks[k]
  }

  lemma ExtendedRow(keys: Keys, deks: map<(Bytes, int), Bytes>, deks': map<(Bytes, int), Bytes>, row: Row)
    requires Extends(deks, deks') && Decrypt(keys, deks, row).Ok?
    ensures Decrypt(keys, deks', row) == Decrypt(keys, deks, row)
  {}

  /** Steps that leave the data keys and every row alone, up to removing rows. */
  lemma Framed(keys: Keys, s: State, t: State)
    requires Inv(keys, s)
    requires t.t.deks == s.t.deks && t.written == s.written && s.t.audit <= t.t.audit
    requires forall id :: id in t.t.secrets ==> id in s.t.secrets && t.t.secrets[id] == s.t.secrets[id]
    requires CallsOk(keys, t) && RepliesOk(t)
    ensures Inv(keys, t)
  {
    assert forall r :: r in s.t.audit ==> r in t.t.audit;
  }

  lemma AddedDek(keys: Keys, deks: map<(Bytes, int), Bytes>, dek: Bytes, nonce: Bytes, org: Bytes, v: int)
    requires Lawful(keys.crypto) && DeksOk(keys, deks) && |dek| == 32 && |nonce| == NONCE
    requires Kek(keys).Ok? && (org, v) !in deks && v > 0
    ensures Wrap(keys, dek, nonce, org, v).Ok?
    ensures var deks' := deks[(org, v) := Wrap(keys, dek, nonce, org, v).value];
      DeksOk(keys, deks') && Extends(deks, deks') && KekFor(keys, deks', org, v) == Ok(dek)
  {
    WrapUnwraps(keys, deks, dek, nonce, org, v);
    var deks' := deks[(org, v) := Wrap(keys, dek, nonce, org, v).value];
    forall o, w | (o, w) in deks'
      ensures w > 0 && KekFor(keys, deks', o, w).Ok? && |KekFor(keys, deks', o, w).value| == 32
    {
      if (o, w) != (org, v) { assert KekFor(keys, deks', o, w) == KekFor(keys, deks, o, w); }
    }
  }

  // ---------------------------------------------------------------------------------------------
  // Put

  lemma PutFacts(keys: Keys, t: Tables, org: Bytes, user: Bytes, plaintext: Bytes, seen: int,
                 id: SecretId, dek: Bytes, wn: Bytes, n: Bytes)
    requires Lawful(keys.crypto) && DeksOk(keys, t.deks)
    requires |dek| == 32 && |wn| == NONCE && |n| == NONCE
    requires seen >= 0 && (seen > 0 ==> (org, seen) in t.deks)
    requires PutTx(keys, t, org, user, plaintext, seen, id, dek, wn, n).Ok?
    ensures var t' := PutTx(keys, t, org, user, plaintext, seen, id, dek, wn, n).value;
      && DeksOk(keys, t'.deks) && Extends(t.deks, t'.deks)
      && id !in t.secrets && t'.secrets.Keys == t.secrets.Keys + {id}
      && (forall i :: i in t.secrets ==> t'.secrets[i] == t.secrets[i])
      && RowIs(keys, t'.deks, t'.secrets[id], Entry(org, user, plaintext))
      && t'.audit == t.audit + [AuditRow(user, "secret.put", id, true)]
  {
    var t' := PutTx(keys, t, org, user, plaintext, seen, id, dek, wn, n).value;
    var v := if seen > 0 then seen else 1;
    if seen == 0 { AddedDek(keys, t.deks, dek, wn, org, 1); }
    OpenUndoesSeal(keys.crypto, KekFor(keys, t'.deks, org, v).value, n, plaintext, user);
  }

  /** When a Put succeeds: its id is new, and it has a data key: of the version its query saw,
      whatever rotated since, or else one it makes, if there is a root key and nobody else made one.
      The row is sealed under that version. */
  lemma PutWorksIff(keys: Keys, t: Tables, org: Bytes, user: Bytes, plaintext: Bytes, seen: int,
                    id: SecretId, dek: Bytes, wn: Bytes, n: Bytes)
    requires Lawful(keys.crypto) && DeksOk(keys, t.deks)
    requires |dek| == 32 && |wn| == NONCE && |n| == NONCE
    requires seen >= 0 && (seen > 0 ==> (org, seen) in t.deks)
    ensures var tx := PutTx(keys, t, org, user, plaintext, seen, id, dek, wn, n);
      && (tx.Ok? <==> id !in t.secrets && (seen > 0 || (Kek(keys).Ok? && (org, 1) !in t.deks)))
      && (tx.Ok? ==> tx.value.secrets[id].dekVersion == if seen > 0 then seen else 1)
  {
    if seen > 0 {
      assert KekFor(keys, t.deks, org, seen).Ok?;
    } else if Kek(keys).Ok? && (org, 1) !in t.deks {
      AddedDek(keys, t.deks, dek, wn, org, 1);
    }
  }

  lemma PutInv(keys: Keys, s: State, e: Event, t: State)
    requires Lawful(keys.crypto) && Inv(keys, s) && WellDrawn(e) && e.CommitPut?
    requires Step(keys, s, e) == Some(t) && PutOf(keys, s, e).Ok?
    ensures Inv(keys, t)
    ensures forall id :: id in s.t.secrets ==> t.t.secrets[id] == s.t.secrets[id]
    ensures Extends(s.t.deks, t.t.deks)
    ensures t.t.secrets.Keys == s.t.secrets.Keys + {e.id}
    ensures RowIs(keys, t.t.deks, t.t.secrets[e.id], t.written[e.id])
  {
    var call := s.calls[e.c];
    PutFacts(keys, s.t, call.org, call.user, call.plaintext, call.seen, e.id, e.newDek, e.wrapNonce, e.nonce);
    forall id | id in t.t.secrets ensures id in t.written && RowIs(keys, t.t.deks, t.t.secrets[id], t.written[id]) {
      if id != e.id { ExtendedRow(keys, s.t.deks, t.t.deks, s.t.secrets[id]); }
    }
    GrownInv(keys, s, t);
  }

  /** Calls and histories survive a step that extends the data keys and the record of writes. */
  lemma GrownInv(keys: Keys, s: State, t: State)
    requires Inv(keys, s)
    requires DeksOk(keys, t.t.deks) && RowsOk(keys, t.t, t.written) && Extends(s.t.deks, t.t.deks)
    requires forall id :: id in s.written ==> id in t.written && t.written[id] == s.written[id]
    requires s.t.audit <= t.t.audit && t.replies == s.replies
    requires |t.calls| == |s.calls|
    requires forall c :: 0 <= c < |s.calls| ==> t.calls[c] == s.calls[c] || t.calls[c] == Finished
    requires forall id :: id in t.written && id !in s.written ==>
      AuditRow(t.written[id].user, "secret.put", id, true) in t.t.audit
    ensures Inv(keys, t)
  {
    assert forall r :: r in s.t.audit ==> r in t.t.audit;
    forall c | 0 <= c < |t.calls| && t.calls[c].Getting?
      ensures RowIs(keys, t.t.deks, t.calls[c].row, t.written[t.calls[c].id])
    {
      assert t.calls[c] == s.calls[c];
      ExtendedRow(keys, s.t.deks, t.t.deks, s.calls[c].row);
    }
  }

  // ---------------------------------------------------------------------------------------------
  // Rotation

  lemma ResealKeeps(keys: Keys, deks: map<(Bytes, int), Bytes>, row: Row, dek: Bytes, nonce: Bytes, next: int)
    requires Lawful(keys.crypto) && AesKey(dek) && |nonce| == NONCE
    requires Decrypt(keys, deks, row).Ok? && KekFor(keys, deks, row.org, next) == Ok(dek)
    ensures Reseal(keys, deks, row, dek, nonce).Ok?
    ensures var row' := ResealedRow(keys, deks, row, dek, nonce, next);
      Decrypt(keys, deks, row') == Decrypt(keys, deks, row)
  {
    OpenUndoesSeal(keys.crypto, dek, nonce, Decrypt(keys, deks, row).value, row.user);
  }

  /** A rotation of an organisation whose rows all decrypt never fails on a row; it moves every
      row of the organisation to the new version, changes no plaintext and no other row. */
  lemma RotationKeepsPlaintexts(keys: Keys, t: Tables, org: Bytes, actor: Bytes, current: int,
                                dek: Bytes, wn: Bytes, ns: SecretId -> Bytes)
    requires Lawful(keys.crypto) && DeksOk(keys, t.deks) && IsCurrent(t.deks, org, current)
    requires forall id :: id in t.secrets ==> Decrypt(keys, t.deks, t.secrets[id]).Ok?
    requires |dek| == 32 && |wn| == NONCE && forall id :: |ns(id)| == NONCE
    ensures RotateTx(keys, t, org, actor, current, dek, wn, ns).Ok? <==> Kek(keys).Ok? && current < MAX_VERSION
    ensures RotateTx(keys, t, org, actor, current, dek, wn, ns).Ok? ==>
      var t' := RotateTx(keys, t, org, actor, current, dek, wn, ns).value;
      && DeksOk(keys, t'.deks) && Extends(t.deks, t'.deks) && IsCurrent(t'.deks, org, current + 1)
      && t'.secrets.Keys == t.secrets.Keys
      && t'.audit == t.audit + [AuditRow(actor, "secret.rotate_dek", org, true)]
      && forall id :: id in t.secrets ==>
           && t'.secrets[id].org == t.secrets[id].org && t'.secrets[id].user == t.secrets[id].user
           && Decrypt(keys, t'.deks, t'.secrets[id]) == Decrypt(keys, t.deks, t.secrets[id])
           && (t.secrets[id].org == org ==> t'.secrets[id].dekVersion == current + 1)
           && (t.secrets[id].org != org ==> t'.secrets[id] == t.secrets[id])
  {
    var next := current + 1;
    if Kek(keys).Ok? && current < MAX_VERSION {
      assert (org, next) !in t.deks;
      assert next > 0;
      AddedDek(keys, t.deks, dek, wn, org, next);
      var deks := t.deks[(org, next) := Wrap(keys, dek, wn, org, next).value];
      forall id | id in t.secrets ensures
        && Decrypt(keys, deks, t.secrets[id]) == Decrypt(keys, t.deks, t.secrets[id])
        && (t.secrets[id].org == org ==>
              && Reseal(keys, deks, t.secrets[id], dek, ns(id)).Ok?
              && Decrypt(keys, deks, ResealedRow(keys, deks, t.secrets[id], dek, ns(id), next))
                 == Decrypt(keys, deks, t.secrets[id]))
      {
        ExtendedRow(keys, t.deks, deks, t.secrets[id]);
        if t.secrets[id].org == org { ResealKeeps(keys, deks, t.secrets[id], dek, ns(id), next); }
      }
    }
  }

  // ---------------------------------------------------------------------------------------------
  // Refinement over runs

  /** The live part of the record of writes. */
  ghost function Live(s: State): map<SecretId, Entry> {
    map id | id in s.t.secrets && id in s.written :: s.written[id]
  }

  lemma AbsIsLive(keys: Keys, s: State)
    requires Inv(keys, s)
    ensures Abs(keys, s.t) == Live(s) && Live(s).Keys == s.t.secrets.Keys
  {
    assert forall id :: id in s.t.secrets ==> RowIs(keys, s.t.deks, s.t.secrets[id], s.written[id]);
  }

  lemma RotateInv(keys: Keys, s: State, e: Event, t: State)
    requires Lawful(keys.crypto) && Inv(keys, s) && WellDrawn(e) && e.Rotate? && Step(keys, s, e) == Some(t)
    ensures Inv(keys, t)
    ensures t.t.secrets.Keys == s.t.secrets.Keys && t.written == s.written
  {
    RotationKeepsPlaintexts(keys, s.t, e.org, e.actor, e.current, e.newDek, e.wrapNonce, e.nonces);
    if RotateOf(keys, s, e).Ok? { GrownInv(keys, s, t); }
  }

  lemma BeginInv(keys: Keys, s: State, e: Event, t: State)
    requires Inv(keys, s) && (e.BeginPut? || (e.ReadRow? && Readable(s.t, e.org, e.user, e.id).Ok?))
    requires Step(keys, s, e) == Some(t)
    ensures Inv(keys, t)
  {
    assert forall c :: 0 <= c < |s.calls| ==> t.calls[c] == s.calls[c];
    if e.BeginPut? {
      assert e.seen > 0 ==> (e.org, e.seen) in s.t.deks;
      assert e.seen != 0 ==> e.seen > 0;
    } else {
      assert RowIs(keys, s.t.deks, s.t.secrets[e.id], s.written[e.id]);
    }
    assert CallsOk(keys, t);
  }

  lemma RefuseInv(keys: Keys, s: State, e: Event, t: State)
    requires Inv(keys, s) && Step(keys, s, e) == Some(t)
    requires e.DeleteRow? || (e.ReadRow? && Readable(s.t, e.org, e.user, e.id).Err?)
    ensures Inv(keys, t)
  {
    RefuseShape(keys, s, e, t);
    RepliesKept(s, t);
    assert CallsOk(keys, t);
    Framed(keys, s, t);
  }

  /** At most a refusal is added to the replies. */
  ghost predicate AnswersNobody(s: State, t: State) {
    || t.replies == s.replies
    || (|t.replies| == |s.replies| + 1 && s.replies <= t.replies && t.replies[|s.replies|].Refused?)
  }

  lemma RefuseShape(keys: Keys, s: State, e: Event, t: State)
    requires Step(keys, s, e) == Some(t)
    requires e.DeleteRow? || (e.ReadRow? && Readable(s.t, e.org, e.user, e.id).Err?)
    ensures t.t.deks == s.t.deks && t.written == s.written && t.calls == s.calls && s.t.audit <= t.t.audit
    ensures forall id :: id in t.t.secrets ==> id in s.t.secrets && t.t.secrets[id] == s.t.secrets[id]
    ensures AnswersNobody(s, t)
  {}

  lemma RepliesKept(s: State, t: State)
    requires RepliesOk(s) && t.written == s.written && s.t.audit <= t.t.audit
    requires AnswersNobody(s, t)
    ensures RepliesOk(t)
  {
    assert forall r :: r in s.t.audit ==> r in t.t.audit;
  }

  /** A Get that read its row opens it, whatever rotated or was deleted since, and logs it. */
  lemma FinishInv(keys: Keys, s: State, e: Event, t: State)
    requires Inv(keys, s) && e.FinishGet? && Step(keys, s, e) == Some(t)
    ensures Inv(keys, t)
    ensures e.up ==>
      var call := s.calls[e.c]; var entry := s.written[call.id];
      t.replies == s.replies + [Got(call.user, call.id, entry.org, entry.plaintext)]
  {
    var call := s.calls[e.c];
    assert RowIs(keys, s.t.deks, call.row, s.written[call.id]);
    assert forall r :: r in s.t.audit ==> r in t.t.audit;
    if e.up { assert t.t.audit[|s.t.audit|] == AuditRow(call.user, "secret.get", call.id, true); }
    Framed(keys, s, t);
  }

  lemma StepInv(keys: Keys, s: State, e: Event, t: State)
    requires Lawful(keys.crypto) && Inv(keys, s) && WellDrawn(e) && Step(keys, s, e) == Some(t)
    ensures Inv(keys, t)
  {
    match e
    case CommitPut(c, _, _, _, _, _) =>
      if PutOf(keys, s, e).Ok? { PutInv(keys, s, e, t); } else { GrownInv(keys, s, t); }
    case Rotate(_, _, _, _, _, _, _) => RotateInv(keys, s, e, t);
    case FinishGet(_, _) => FinishInv(keys, s, e, t);
    case BeginPut(_, _, _, _) => BeginInv(keys, s, e, t);
    case ReadRow(org, user, id, _) =>
      if Readable(s.t, org, user, id).Ok? { BeginInv(keys, s, e, t); } else { RefuseInv(keys, s, e, t); }
    case DeleteRow(_, _, _, _) => RefuseInv(keys, s, e, t);
  }

  /** Every step of the encrypted store is the matching step of the plain map. */
  lemma Refines(keys: Keys, s: State, e: Event, t: State)
    requires Lawful(keys.crypto) && Inv(keys, s) && WellDrawn(e) && Step(keys, s, e) == Some(t)
    ensures PlainStep(keys, s, e, Abs(keys, s.t), Abs(keys, t.t))
  {
    StepInv(keys, s, e, t);
    AbsIsLive(keys, s);
    AbsIsLive(keys, t);
    if e.CommitPut? && PutOf(keys, s, e).Ok? {
      PutInv(keys, s, e, t);
      LivePut(s, t, e.id);
    } else if e.DeleteRow? {
      LiveDelete(keys, s, e, t);
    } else {
      if e.Rotate? { RotateInv(keys, s, e, t); }
      LiveSame(keys, s, e, t);
    }
  }

  lemma LivePut(s: State, t: State, id: SecretId)
    requires t.t.secrets.Keys == s.t.secrets.Keys + {id} && id in t.written && id !in s.t.secrets
    requires s.t.secrets.Keys <= s.written.Keys && t.written == s.written[id := t.written[id]]
    ensures Live(t) == Live(s)[id := t.written[id]]
  {}

  lemma LiveDelete(keys: Keys, s: State, e: Event, t: State)
    requires Inv(keys, s) && e.DeleteRow? && Step(keys, s, e) == Some(t)
    ensures PlainStep(keys, s, e, Live(s), Live(t))
  {
    AbsIsLive(keys, s);
    if e.id in s.t.secrets { assert RowIs(keys, s.t.deks, s.t.secrets[e.id], s.written[e.id]); }
  }

  lemma LiveSame(keys: Keys, s: State, e: Event, t: State)
    requires Step(keys, s, e) == Some(t) && !e.DeleteRow? && (e.CommitPut? ==> PutOf(keys, s, e).Err?)
    requires e.Rotate? ==> t.t.secrets.Keys == s.t.secrets.Keys && t.written == s.written
    ensures Live(t) == Live(s)
  {
    assert t.t.secrets.Keys == s.t.secrets.Keys && t.written == s.written;
  }

  lemma {:induction false} Invariant(keys: Keys, ss: seq<State>, es: seq<Event>)
    requires Lawful(keys.crypto) && Run(keys, ss, es)
    ensures forall i :: 0 <= i < |ss| ==> Inv(keys, ss[i])
  {
    var n := 0;
    while n < |es|
      invariant 0 <= n <= |es|
      invariant forall i :: 0 <= i <= n ==> Inv(keys, ss[i])
    {
      StepInv(keys, ss[n], es[n], ss[n + 1]);
      n := n + 1;
    }
  }

  /** Over every run, the encrypted store is the plain map. */
  lemma RefinesPlainMap(keys: Keys, ss: seq<State>, es: seq<Event>)
    requires Lawful(keys.crypto) && Run(keys, ss, es)
    ensures Abs(keys, ss[0].t) == map[]
    ensures forall i :: 0 <= i < |es| ==> PlainStep(keys, ss[i], es[i], Abs(keys, ss[i].t), Abs(keys, ss[i + 1].t))
    ensures forall i :: 0 <= i < |ss| ==> Abs(keys, ss[i].t).Keys == ss[i].t.secrets.Keys
  {
    Invariant(keys, ss, es);
    forall i | 0 <= i < |es|
      ensures PlainStep(keys, ss[i], es[i], Abs(keys, ss[i].t), Abs(keys, ss[i + 1].t))
    {
      Refines(keys, ss[i], es[i], ss[i + 1]);
    }
    forall i | 0 <= i < |ss| ensures Abs(keys, ss[i].t).Keys == ss[i].t.secrets.Keys {
      AbsIsLive(keys, ss[i]);
    }
  }

  /** A Get is admitted exactly when the plain map holds the id for that organisation and user. */
  lemma ReadableIsPlain(keys: Keys, s: State, org: Bytes, user: Bytes, id: SecretId)
    requires Inv(keys, s)
    ensures var m := Abs(keys, s.t);
      Readable(s.t, org, user, id).Ok? <==> id in m && m[id].org == org && m[id].user == user
  {
    AbsIsLive(keys, s);
  }

  /** What Get answers and logs, told by the plain map alone: the plaintext exactly to the owner,
      NotFound exactly if the organisation has no such id, WrongTenant exactly if it is another
      user's; one audit row says which it was, and without that row there is no answer. */
  lemma GetAnswers(keys: Keys, s: State, org: Bytes, user: Bytes, id: SecretId)
    requires Inv(keys, s)
    ensures var m, r := Abs(keys, s.t), GetReply(keys, s.t, org, user, id, true);
      && (forall p :: r == Ok(p) <==> id in m && m[id] == Entry(org, user, p))
      && (r == Err(NotFound) <==> id !in m || m[id].org != org)
      && (r == Err(WrongTenant) <==> id in m && m[id].org == org && m[id].user != user)
      && GetAudit(keys, s.t, org, user, id, true) == [AuditRow(user, "secret.get", id, r.Ok?)]
    ensures GetReply(keys, s.t, org, user, id, false) == Err(Unavailable)
    ensures GetAudit(keys, s.t, org, user, id, false) == []
  {
    AbsIsLive(keys, s);
    if id in s.t.secrets { assert RowIs(keys, s.t.deks, s.t.secrets[id], s.written[id]); }
  }

  ghost function ReplyOf(org: Bytes, user: Bytes, id: SecretId, r: Result<Bytes, Error>): Reply {
    match r
    case Ok(p) => Got(user, id, org, p)
    case Err(e) => Refused(e)
  }

  /** Get with nobody else at work is its two steps in a row: the same answer, the same tables. */
  lemma GetAlone(keys: Keys, s: State, org: Bytes, user: Bytes, id: SecretId, up: bool) returns (m: State, t: State)
    ensures Step(keys, s, ReadRow(org, user, id, up)) == Some(m)
    ensures if Readable(s.t, org, user, id).Ok? then Step(keys, m, FinishGet(|s.calls|, up)) == Some(t) else t == m
    ensures t.t == s.t.(audit := s.t.audit + GetAudit(keys, s.t, org, user, id, up))
    ensures t.replies == s.replies + [ReplyOf(org, user, id, GetReply(keys, s.t, org, user, id, up))]
    ensures t.written == s.written
  {
    m := Step(keys, s, ReadRow(org, user, id, up)).value;
    t := if Readable(s.t, org, user, id).Ok? then Step(keys, m, FinishGet(|s.calls|, up)).value else m;
  }

  /** An admitted Get returns the plaintext the map held when it read its row, even if rotations
      and deletions commit before it opens the row. */
  lemma {:induction false} GetReturnsWhatItRead(keys: Keys, ss: seq<State>, es: seq<Event>, i: nat, j: nat)
    requires Lawful(keys.crypto) && Run(keys, ss, es) && i < j < |es|
    requires es[i].ReadRow? && Readable(ss[i].t, es[i].org, es[i].user, es[i].id).Ok?
    requires es[j] == FinishGet(|ss[i].calls|, true)
    ensures var m := Abs(keys, ss[i].t);
      && es[i].id in m
      && ss[j + 1].replies == ss[j].replies + [Got(es[i].user, es[i].id, es[i].org, m[es[i].id].plaintext)]
  {
    Invariant(keys, ss, es);
    AbsIsLive(keys, ss[i]);
    assert Step(keys, ss[i], es[i]) == Some(ss[i + 1]) && Step(keys, ss[j], es[j]) == Some(ss[j + 1]);
    CallKept(keys, ss, es, |ss[i].calls|, i + 1, j);
    FinishInv(keys, ss[j], es[j], ss[j + 1]);
  }

  /** Between two points of a run a call stays as it is or finishes, and what was written stays. */
  lemma CallKept(keys: Keys, ss: seq<State>, es: seq<Event>, c: nat, i: nat, j: nat)
    requires Run(keys, ss, es) && i <= j <= |es| && c < |ss[i].calls|
    ensures c < |ss[j].calls| && (ss[j].calls[c] == ss[i].calls[c] || ss[j].calls[c] == Finished)
    ensures forall id :: id in ss[i].written ==> id in ss[j].written && ss[j].written[id] == ss[i].written[id]
  {
    var n := i;
    while n < j
      invariant i <= n <= j && c < |ss[n].calls|
      invariant ss[n].calls[c] == ss[i].calls[c] || ss[n].calls[c] == Finished
      invariant forall id :: id in ss[i].written ==> id in ss[n].written && ss[n].written[id] == ss[i].written[id]
    {
      CallFixed(keys, ss[n], es[n], ss[n + 1], c);
      n := n + 1;
    }
  }

  lemma CallFixed(keys: Keys, s: State, e: Event, t: State, c: nat)
    requires Step(keys, s, e) == Some(t) && c < |s.calls|
    ensures c < |t.calls| && (t.calls[c] == s.calls[c] || t.calls[c] == Finished)
    ensures forall id :: id in s.written ==> id in t.written && t.written[id] == s.written[id]
  {}

  // ---------------------------------------------------------------------------------------------
  // The key version is used to unwrap, too

  /** A box opens under one key only. */
  ghost predicate KeyBound(c: Crypto) {
    forall k, k', n, p, a, a' :: c.gcmOpen(k', n, c.gcmSeal(k, n, p, a), a').Some? ==> k' == k && a' == a
  }

  /** A data key wrapped under one key version is readable by a manager set to another version
      exactly when both versions derive the same key: raising KEKVersion hides every older key. */
  lemma KekVersionIsFixed(keys: Keys, version: int, deks: map<(Bytes, int), Bytes>, dek: Bytes, nonce: Bytes,
                          org: Bytes, v: int)
    requires Lawful(keys.crypto) && KeyBound(keys.crypto) && |nonce| == NONCE && Kek(keys).Ok?
    requires (org, v) in deks && Wrap(keys, dek, nonce, org, v) == Ok(deks[(org, v)])
    ensures var other := keys.(kekVersion := version);
      KekFor(other, deks, org, v).Ok? <==> Kek(other) == Kek(keys)
  {
    var other := keys.(kekVersion := version);
    WrapUnwraps(keys, deks, dek, nonce, org, v);
    assert deks[(org, v) := deks[(org, v)]] == deks;
    if Kek(other).Ok? {
      var box := keys.crypto.gcmSeal(Kek(keys).value, nonce, dek, DekAad(org, v));
      assert deks[(org, v)][..NONCE] == nonce && deks[(org, v)][NONCE..] == box;
    }
  }
}
