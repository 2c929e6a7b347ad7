/** Envelope encryption (internal/secrets/manager.go): a root key wraps one data key per
    organisation and version, data keys seal rows. AES-GCM and SHA-256 are parameters with the
    laws stated in `Lawful`; nonces, data keys and row ids are drawn by the environment. */
module Secrets {
  import opened Wrappers

  type Byte = b: int | 0 <= b < 256
  type Bytes = seq<Byte>
  type SecretId = Bytes

  datatype Crypto = Crypto(
    gcmSeal: (Bytes, Bytes, Bytes, Bytes) -> Bytes,          // key, nonce, plaintext, additional data
    gcmOpen: (Bytes, Bytes, Bytes, Bytes) -> Option<Bytes>,  // key, nonce, box, additional data
    sha256: Bytes -> Bytes)

  /** The manager's configuration: the root keys it can reach and the version it uses. */
  datatype Keys = Keys(crypto: Crypto, rootKeys: map<int, Bytes>, kekVersion: int)

  ghost predicate Lawful(c: Crypto) {
    && (forall k, n, p, a :: c.gcmOpen(k, n, c.gcmSeal(k, n, p, a), a) == Some(p))
    && (forall r :: |c.sha256(r)| == 32)
  }

  datatype Row = Row(user: Bytes, org: Bytes, ct: Bytes, dekVersion: int)

  datatype AuditRow = AuditRow(actor: Bytes, action: string, resource: Bytes, allowed: bool)

  /** The tables org_deks, secrets and audit_events. */
  datatype Tables = Tables(deks: map<(Bytes, int), Bytes>, secrets: map<SecretId, Row>, audit: seq<AuditRow>)

  datatype Error = NotFound | WrongTenant | NoRootKey | NoDek | Unreadable | Conflict | Unavailable

  const NONCE := 12
  const MAX_VERSION := 0x7fff_ffff // org_deks.version is a 32-bit column

  predicate AesKey(k: Bytes) {
    |k| == 16 || |k| == 24 || |k| == 32
  }

  /** The box is stored behind its nonce. */
  function Seal(c: Crypto, key: Bytes, nonce: Bytes, plaintext: Bytes, aad: Bytes): Option<Bytes> {
    if AesKey(key) then Some(nonce + c.gcmSeal(key, nonce, plaintext, aad)) else None
  }

  function Open(c: Crypto, key: Bytes, ct: Bytes, aad: Bytes): Option<Bytes> {
    if !AesKey(key) || |ct| < NONCE then None else c.gcmOpen(key, ct[..NONCE], ct[NONCE..], aad)
  }

  lemma OpenUndoesSeal(c: Crypto, key: Bytes, nonce: Bytes, plaintext: Bytes, aad: Bytes)
    requires Lawful(c) && AesKey(key) && |nonce| == NONCE
    ensures Seal(c, key, nonce, plaintext, aad).Some?
    ensures Open(c, key, Seal(c, key, nonce, plaintext, aad).value, aad) == Some(plaintext)
  {
    var box := c.gcmSeal(key, nonce, plaintext, aad);
    assert (nonce + box)[..NONCE] == nonce && (nonce + box)[NONCE..] == box;
  }

  /** Four big-endian bytes of uint32(v). */
  function VersionBytes(v: int): Bytes {
    var u := v % 0x1_0000_0000;
    [u / 0x100 / 0x100 / 0x100, u / 0x100 / 0x100 % 0x100, u / 0x100 % 0x100, u % 0x100]
  }

  function DekAad(org: Bytes, version: int): Bytes {
    org + VersionBytes(version)
  }

  /** The additional data of a wrapped data key names one organisation and one version. */
  lemma DekAadInjective(org: Bytes, v: int, org': Bytes, v': int)
    requires 0 <= v <= MAX_VERSION && 0 <= v' <= MAX_VERSION
    requires DekAad(org, v) == DekAad(org', v')
    ensures org == org' && v == v'
  {
    var x, y := VersionBytes(v), VersionBytes(v');
    var n := |org|;
    assert |org'| == n;
    assert org == DekAad(org, v)[..n] == DekAad(org', v')[..n] == org';
    assert x == DekAad(org, v)[n..] == DekAad(org', v')[n..] == y;
    VersionBytesValue(v);
    VersionBytesValue(v');
  }

  /** It is the organisation, and then the version in four bytes. */
  lemma DekAadLayout(org: Bytes, v: int)
    requires 0 <= v <= MAX_VERSION
    ensures |DekAad(org, v)| == |org| + 4
    ensures DekAad(org, v)[..|org|] == org && Word(DekAad(org, v)[|org|..]) == v
  {
    VersionBytesValue(v);
    assert DekAad(org, v)[|org|..] == VersionBytes(v);
  }

  lemma VersionBytesValue(v: int)
    requires 0 <= v <= MAX_VERSION
    ensures Word(VersionBytes(v)) == v
  {
    var a, b := v / 0x100, v / 0x100 / 0x100;
    assert v == a * 0x100 + v % 0x100 && a == b * 0x100 + a % 0x100 && b == b / 0x100 * 0x100 + b % 0x100;
  }

  /** The number four big-endian bytes stand for. */
  function Word(b: Bytes): int
    requires |b| == 4
  {
    (((b[0] as int) * 0x100 + b[1] as int) * 0x100 + b[2] as int) * 0x100 + b[3] as int
  }

  function Kek(keys: Keys): Result<Bytes, Error> {
    if keys.kekVersion in keys.rootKeys then Ok(keys.crypto.sha256(keys.rootKeys[keys.kekVersion]))
    else Err(NoRootKey)
  }

  /** kekFor: the data key of one version, unwrapped with the manager's own key version. */
  function KekFor(keys: Keys, deks: map<(Bytes, int), Bytes>, org: Bytes, v: int): Result<Bytes, Error> {
    if (org, v) !in deks then Err(NoDek)
    else if Kek(keys).Err? then Err(NoRootKey)
    else match Open(keys.crypto, Kek(keys).value, deks[(org, v)], DekAad(org, v))
      case Some(dek) => Ok(dek)
      case None => Err(Unreadable)
  }

  function Wrap(keys: Keys, dek: Bytes, nonce: Bytes, org: Bytes, v: int): Result<Bytes, Error> {
    if Kek(keys).Err? then Err(NoRootKey)
    else match Seal(keys.crypto, Kek(keys).value, nonce, dek, DekAad(org, v))
      case Some(w) => Ok(w)
      case None => Err(Unreadable)
  }

  lemma WrapUnwraps(keys: Keys, deks: map<(Bytes, int), Bytes>, dek: Bytes, nonce: Bytes, org: Bytes, v: int)
    requires Lawful(keys.crypto) && |nonce| == NONCE && Kek(keys).Ok?
    ensures Wrap(keys, dek, nonce, org, v).Ok?
    ensures KekFor(keys, deks[(org, v) := Wrap(keys, dek, nonce, org, v).value], org, v) == Ok(dek)
  {
    OpenUndoesSeal(keys.crypto, Kek(keys).value, nonce, dek, DekAad(org, v));
  }

  /** COALESCE(MAX(version), 0) over the organisation's data keys. */
  ghost predicate IsCurrent(deks: map<(Bytes, int), Bytes>, org: Bytes, v: int) {
    && (forall w :: (org, w) in deks ==> w <= v)
    && ((org, v) in deks || (v == 0 && forall w :: (org, w) !in deks))
  }

  /** The whole Put transaction, given the version its first query saw. */
  function PutTx(keys: Keys, t: Tables, org: Bytes, user: Bytes, plaintext: Bytes, seen: int,
                 id: SecretId, newDek: Bytes, wrapNonce: Bytes, nonce: Bytes): Result<Tables, Error>
  {
    var wrapped := Wrap(keys, newDek, wrapNonce, org, 1);
    if seen <= 0 && wrapped.Err? then Err(wrapped.error)
    else if seen <= 0 && (org, 1) in t.deks then Err(Conflict)
    else
      var v := if seen > 0 then seen else 1;
      var deks := if seen > 0 then t.deks else t.deks[(org, 1) := wrapped.value];
      var dek := KekFor(keys, deks, org, v);
      if dek.Err? then Err(dek.error)
      else
        var ct := Seal(keys.crypto, dek.value, nonce, plaintext, user);
        if ct.None? then Err(Unreadable)
        else if id in t.secrets then Err(Conflict)
        else Ok(Tables(deks, t.secrets[id := Row(user, org, ct.value, v)],
                       t.audit + [AuditRow(user, "secret.put", id, true)]))
  }

  /** One row of a rotation: open under its own version, seal under the new key. */
  function Reseal(keys: Keys, deks: map<(Bytes, int), Bytes>, row: Row, newDek: Bytes, nonce: Bytes): Result<Bytes,
                  Error> {
    var dek := KekFor(keys, deks, row.org, row.dekVersion);
    if dek.Err? then Err(dek.error)
    else
      var plaintext := Open(keys.crypto, dek.value, row.ct, row.user);
      if plaintext.None? then Err(Unreadable)
      else match Seal(keys.crypto, newDek, nonce, plaintext.value, row.user)
        case Some(ct) => Ok(ct)
        case None => Err(Unreadable)
  }

  predicate Reseals(keys: Keys, t: Tables, deks: map<(Bytes, int), Bytes>, org: Bytes, newDek: Bytes,
                    nonces: SecretId -> Bytes) {
    forall id | id in t.secrets :: t.secrets[id].org == org ==>
      Reseal(keys, deks, t.secrets[id], newDek, nonces(id)).Ok?
  }

  function ResealedRow(keys: Keys, deks: map<(Bytes, int), Bytes>, row: Row, newDek: Bytes, nonce: Bytes,
                       next: int): Row
    requires Reseal(keys, deks, row, newDek, nonce).Ok?
  {
    row.(ct := Reseal(keys, deks, row, newDek, nonce).value, dekVersion := next)
  }

  function ResealedRows(keys: Keys, t: Tables, deks: map<(Bytes, int), Bytes>, org: Bytes,
                        newDek: Bytes, nonces: SecretId -> Bytes, next: int): map<SecretId, Row>
    requires Reseals(keys, t, deks, org, newDek, nonces)
  {
    map id | id in t.secrets ::
      if t.secrets[id].org == org
      then ResealedRow(keys, deks, t.secrets[id], newDek, nonces(id), next)
      else t.secrets[id]
  }

  /** The organisation's rows outside `batch` can be resealed. */
  predicate ResealsBut(keys: Keys, was: map<SecretId, Row>, deks: map<(Bytes, int), Bytes>, org: Bytes,
                       newDek: Bytes, nonces: SecretId -> Bytes, batch: set<SecretId>) {
    forall id | id in was :: was[id].org == org && id !in batch ==> Reseal(keys, deks, was[id], newDek, nonces(id)).Ok?
  }

  /** The rows in the middle of the batch loop, with the ids in `batch` still to reseal. */
  function ResealedPart(keys: Keys, was: map<SecretId, Row>, deks: map<(Bytes, int), Bytes>, org: Bytes,
                        newDek: Bytes, nonces: SecretId -> Bytes, next: int, batch: set<SecretId>): map<SecretId, Row>
    requires ResealsBut(keys, was, deks, org, newDek, nonces, batch)
  {
    map id | id in was ::
      if was[id].org == org && id !in batch
      then ResealedRow(keys, deks, was[id], newDek, nonces(id), next)
      else was[id]
  }

  lemma ResealedNext(keys: Keys, was: map<SecretId, Row>, deks: map<(Bytes, int), Bytes>, org: Bytes,
                     newDek: Bytes, nonces: SecretId -> Bytes, next: int, batch: set<SecretId>, id: SecretId)
    requires ResealsBut(keys, was, deks, org, newDek, nonces, batch)
    requires id in batch && id in was && was[id].org == org && Reseal(keys, deks, was[id], newDek, nonces(id)).Ok?
    ensures ResealsBut(keys, was, deks, org, newDek, nonces, batch - {id})
    ensures ResealedPart(keys, was, deks, org, newDek, nonces, next, batch - {id})
         == ResealedPart(keys, was, deks, org, newDek, nonces, next, batch)
            [id := ResealedRow(keys, deks, was[id], newDek, nonces(id), next)]
  {}

  /** A transaction took effect as a whole or not at all. */
  ghost predicate Committed(tx: Result<Tables, Error>, before: Tables, after: Tables, ok: bool) {
    match tx
    case Ok(t) => ok && after == t
    case Err(_) => !ok && after == before
  }

  /** Nothing of a rotation is visible unless every row of the organisation was resealed. */
  function RotateTx(keys: Keys, t: Tables, org: Bytes, actor: Bytes, current: int,
                    newDek: Bytes, wrapNonce: Bytes, nonces: SecretId -> Bytes): Result<Tables, Error>
  {
    var next := current + 1;
    var wrapped := Wrap(keys, newDek, wrapNonce, org, next);
    if wrapped.Err? then Err(wrapped.error)
    else if next > MAX_VERSION || (org, next) in t.deks then Err(Conflict)
    else
      var deks := t.deks[(org, next) := wrapped.value];
      if !Reseals(keys, t, deks, org, newDek, nonces) then Err(Unreadable)
      else Ok(Tables(deks,
        ResealedRows(keys, t, deks, org, newDek, nonces, next),
        t.audit + [AuditRow(actor, "secret.rotate_dek", org, true)]))
  }

  /** The query of Get: which row the caller may read. */
  function Readable(t: Tables, org: Bytes, user: Bytes, id: SecretId): Result<Row, Error> {
    if id !in t.secrets || t.secrets[id].org != org then Err(NotFound)
    else if t.secrets[id].user != user then Err(WrongTenant)
    else Ok(t.secrets[id])
  }

  function Decrypt(keys: Keys, deks: map<(Bytes, int), Bytes>, row: Row): Result<Bytes, Error> {
    var dek := KekFor(keys, deks, row.org, row.dekVersion);
    if dek.Err? then Err(dek.error)
    else match Open(keys.crypto, dek.value, row.ct, row.user)
      case Some(plaintext) => Ok(plaintext)
      case None => Err(Unreadable)
  }

  /** What a Get answers: the plaintext exactly for the owner of a row that decrypts, if the access
      can be logged; otherwise the first thing that went wrong. */
  function GetReply(keys: Keys, t: Tables, org: Bytes, user: Bytes, id: SecretId, up: bool): Result<Bytes, Error> {
    var row := Readable(t, org, user, id);
    if row.Err? then Err(if up then row.error else Unavailable)
    else
      var plaintext := Decrypt(keys, t.deks, row.value);
      if plaintext.Ok? && !up then Err(Unavailable) else plaintext
  }

  /** What a Get leaves in the audit table: a refusal and a success are logged, a row that does not
      decrypt is not. */
  function GetAudit(keys: Keys, t: Tables, org: Bytes, user: Bytes, id: SecretId, up: bool): seq<AuditRow> {
    var row := Readable(t, org, user, id);
    if !up || (row.Ok? && Decrypt(keys, t.deks, row.value).Err?) then []
    else [AuditRow(user, "secret.get", id, row.Ok?)]
  }

  class Manager {
    const keys: Keys
    var tables: Tables

    constructor (keys: Keys)
      ensures this.keys == keys && tables == Tables(map[], map[], [])
    {
      this.keys, tables := keys, Tables(map[], map[], []);
    }

    method CurrentVersion(org: Bytes) returns (v: int)
      requires forall k :: k in tables.deks ==> k.1 > 0
      ensures IsCurrent(tables.deks, org, v)
    {
      v := 0;
      var todo := tables.deks.Keys;
      while todo != {}
        invariant todo <= tables.deks.Keys
        invariant v >= 0 && forall w :: (org, w) in tables.deks.Keys - todo ==> w <= v
        invariant (org, v) in tables.deks || (v == 0 && forall w :: (org, w) !in tables.deks.Keys - todo)
        decreases todo
      {
        var k :| k in todo;
        todo := todo - {k};
        if k.0 == org && k.1 > v {
          v := k.1;
        }
      }
    }

    /** Put with nobody else at work. */
    method Put(org: Bytes, user: Bytes, plaintext: Bytes, id: SecretId, newDek: Bytes, wrapNonce: Bytes, nonce: Bytes)
      returns (r: Result<SecretId, Error>)
      requires forall k :: k in tables.deks ==> k.1 > 0
      modifies this`tables
      ensures r.Ok? ==> r.value == id
      ensures exists seen ::
        && IsCurrent(old(tables).deks, org, seen)
        && Committed(PutTx(keys, old(tables), org, user, plaintext, seen, id, newDek, wrapNonce, nonce),
                     old(tables), tables, r.Ok?)
    {
      var seen := CurrentVersion(org);
      var tx := PutTx(keys, tables, org, user, plaintext, seen, id, newDek, wrapNonce, nonce);
      if tx.Err? {
        return Err(tx.error);
      }
      tables := tx.value;
      return Ok(id);
    }

    /** Get with nobody else at work; `up` tells whether the audit insert goes through, and a
        secret whose access cannot be logged is not returned. */
    method Get(org: Bytes, user: Bytes, id: SecretId, up: bool) returns (r: Result<Bytes, Error>)
      modifies this`tables
      ensures r == GetReply(keys, old(tables), org, user, id, up)
      ensures tables == old(tables).(audit := old(tables).audit + GetAudit(keys, old(tables), org, user, id, up))
    {
      var row := Readable(tables, org, user, id);
      if row.Err? {
        if !up {
          return Err(Unavailable);
        }
        tables := tables.(audit := tables.audit + [AuditRow(user, "secret.get", id, false)]);
        return Err(row.error);
      }
      var plaintext := Decrypt(keys, tables.deks, row.value);
      if plaintext.Err? {
        return plaintext;
      }
      if !up {
        return Err(Unavailable);
      }
      tables := tables.(audit := tables.audit + [AuditRow(user, "secret.get", id, true)]);
      return plaintext;
    }

    /** Delete: the row goes first, the audit insert follows outside any transaction. */
    method Delete(org: Bytes, user: Bytes, id: SecretId, up: bool) returns (e: Option<Error>)
      modifies this`tables
      ensures tables.deks == old(tables).deks
      ensures Readable(old(tables), org, user, id).Err? ==> e == Some(NotFound) && tables == old(tables)
      ensures Readable(old(tables), org, user, id).Ok? ==>
        && tables.secrets == old(tables).secrets - {id}
        && e == (if up then None else Some(Unavailable))
        && tables.audit == old(tables).audit + if up then [AuditRow(user, "secret.delete", id, true)] else []
    {
      if Readable(tables, org, user, id).Err? {
        return Some(NotFound);
      }
      tables := tables.(secrets := tables.secrets - {id});
      if !up {
        return Some(Unavailable);
      }
      tables := tables.(audit := tables.audit + [AuditRow(user, "secret.delete", id, true)]);
      return None;
    }

    /** RotateOrgDEK: collects the organisation's rows, then reseals and updates them one by one
        inside the transaction; any failure rolls everything back. */
    method RotateOrgDEK(org: Bytes, actor: Bytes, newDek: Bytes, wrapNonce: Bytes, nonces: SecretId -> Bytes)
      returns (r: Result<int, Error>)
      requires forall k :: k in tables.deks ==> k.1 > 0
      modifies this`tables
      ensures exists current ::
        && IsCurrent(old(tables).deks, org, current)
        && (r.Ok? ==> r.value == current + 1)
        && Committed(RotateTx(keys, old(tables), org, actor, current, newDek, wrapNonce, nonces),
                     old(tables), tables, r.Ok?)
    {
      var current := CurrentVersion(org);
      var next := current + 1;
      var wrapped := Wrap(keys, newDek, wrapNonce, org, next);
      if wrapped.Err? {
        return Err(wrapped.error);
      }
      if next > MAX_VERSION || (org, next) in tables.deks {
        return Err(Conflict);
      }
      var deks := tables.deks[(org, next) := wrapped.value];
      var ok, secrets := ResealAll(deks, org, newDek, nonces, next);
      if !ok {
        return Err(Unreadable);
      }
      tables := Tables(deks, secrets, tables.audit + [AuditRow(actor, "secret.rotate_dek", org, true)]);
      return Ok(next);
    }

    /** The batch loop of a rotation over a working copy of the table. */
    method ResealAll(deks: map<(Bytes, int), Bytes>, org: Bytes, newDek: Bytes, nonces: SecretId -> Bytes, next: int)
      returns (ok: bool, secrets: map<SecretId, Row>)
      ensures ok == Reseals(keys, tables, deks, org, newDek, nonces)
      ensures ok ==> secrets == ResealedRows(keys, tables, deks, org, newDek, nonces, next)
    {
      var was := tables.secrets;
      secrets := was;
      var batch := set id | id in was && was[id].org == org;
      while batch != {}
        invariant forall id :: id in batch ==> id in was && was[id].org == org
        invariant ResealsBut(keys, was, deks, org, newDek, nonces, batch)
        invariant secrets == ResealedPart(keys, was, deks, org, newDek, nonces, next, batch)
        decreases batch
      {
        var id :| id in batch;
        var ct := Reseal(keys, deks, was[id], newDek, nonces(id));
        if ct.Err? {
          return false, secrets;
        }
        ResealedNext(keys, was, deks, org, newDek, nonces, next, batch, id);
        secrets := secrets[id := was[id].(ct := ct.value, dekVersion := next)];
        batch := batch - {id};
      }
      return true, secrets;
    }
  }
}
