/** The hash-chained audit log: the insert trigger that builds it
    (internal/db/migrations/006_audit_chain.up.sql) and the walk that checks it
    (internal/auditlog/store.go). The hash is a parameter; results that rest on its strength
    say "or two of the preimages in the log collide". */
module AuditChain {
  import opened Wrappers
  import opened Text

  /** The columns of audit_events that VerifyChain reads; a log is listed in id order. */
  datatype Row = Row(
    id: int, actor: string, action: string, resource: string, decision: string, reason: string,
    prevHash: string, entryHash: string)

  /** An insert before the trigger fills in the two hashes. */
  datatype Entry = Entry(id: int, actor: string, action: string, resource: string, decision: string, reason: string)

  type Hash = string -> string

  /** Digests are hexadecimal: not empty and without the separator. */
  ghost predicate Hex(h: Hash) {
    forall x :: h(x) != "" && Free(h(x), '|')
  }

  function Body(e: Entry): string {
    Decimal(e.id) + ['|'] + (e.actor + ['|'] + (e.action + ['|'] + (e.resource + ['|'] + (e.decision + ['|'] + e.reason))))
  }

  function Preimage(prev: string, e: Entry): string {
    prev + ['|'] + Body(e)
  }

  /** The order of the columns, by an instance. */
  lemma PreimageExample()
    ensures Preimage("h", Entry(7, "ann", "read", "doc", "allow", "ok")) == "h|7|ann|read|doc|allow|ok"
  {
    assert Decimal(7) == "7";
  }

  function EntryOf(r: Row): Entry {
    Entry(r.id, r.actor, r.action, r.resource, r.decision, r.reason)
  }

  /** The digest of an entry chained to a previous hash. */
  type Digest = (string, Entry) -> string

  function DigestOf(h: Hash): Digest {
    (prev: string, e: Entry) => h(Preimage(prev, e))
  }

  /** audit_chain_fn: the row as the trigger completes it after reading the hash `prev`. */
  function Chained(d: Digest, e: Entry, prev: string): Row {
    Row(e.id, e.actor, e.action, e.resource, e.decision, e.reason, prev, d(prev, e))
  }

  /** The hash an entry at position i has to commit to. */
  function Prev(rows: seq<Row>, i: nat): string
    requires i <= |rows|
  {
    if i == 0 then "" else rows[i - 1].entryHash
  }

  predicate LinkOk(d: Digest, rows: seq<Row>, i: nat)
    requires i < |rows|
  {
    rows[i] == Chained(d, EntryOf(rows[i]), Prev(rows, i))
  }

  ghost predicate Verified(d: Digest, rows: seq<Row>) {
    forall i :: 0 <= i < |rows| ==> LinkOk(d, rows, i)
  }

  /** The walk accepts the entries before n and stops at n. */
  ghost predicate StopsAt(d: Digest, rows: seq<Row>, n: nat) {
    && n < |rows| && !LinkOk(d, rows, n)
    && forall i :: 0 <= i < n ==> LinkOk(d, rows, i)
  }

  ghost predicate IdsAscend(rows: seq<Row>) {
    forall i, j :: 0 <= i < j < |rows| ==> rows[i].id < rows[j].id
  }

  /** A chained row keeps the log verified and its ids ascending. */
  lemma InsertKeeps(d: Digest, rows: seq<Row>, e: Entry)
    requires forall r :: r in rows ==> r.id < e.id
    ensures var longer := rows + [Chained(d, e, Prev(rows, |rows|))];
      (Verified(d, rows) ==> Verified(d, longer)) && (IdsAscend(rows) ==> IdsAscend(longer))
  {
    var n := |rows|;
    var longer := rows + [Chained(d, e, Prev(rows, n))];
    assert forall i :: 0 <= i < n ==> longer[i] == rows[i] && rows[i] in rows;
    assert forall i :: 0 <= i <= n ==> Prev(longer, i) == Prev(rows, i);
    if Verified(d, rows) {
      forall i | 0 <= i < |longer| ensures LinkOk(d, longer, i) {
        if i < n { assert LinkOk(d, rows, i); }
      }
    }
  }

  class Store {
    const d: Digest
    var rows: seq<Row>

    constructor (h: Hash)
      ensures d == DigestOf(h) && rows == []
    {
      d, rows := DigestOf(h), [];
    }

    /** One insert, committed before the next begins; identity ids ascend. */
    method Insert(e: Entry)
      requires forall r :: r in rows ==> r.id < e.id
      modifies this`rows
      ensures rows == old(rows) + [Chained(d, e, Prev(old(rows), |old(rows)|))]
      ensures Verified(d, old(rows)) ==> Verified(d, rows)
      ensures IdsAscend(old(rows)) ==> IdsAscend(rows)
    {
      var ph := "";
      if |rows| > 0 {
        ph := rows[|rows| - 1].entryHash;
      }
      rows := rows + [Chained(d, e, ph)];
      InsertKeeps(d, old(rows), e);
    }

    /** VerifyChain: how many entries hold, and the id of the first that does not. */
    method VerifyChain() returns (n: nat, broken: Option<int>)
      ensures broken.None? ==> n == |rows| && Verified(d, rows)
      ensures broken.Some? ==> StopsAt(d, rows, n) && broken.value == rows[n].id
    {
      var prev := "";
      n := 0;
      for i := 0 to |rows|
        invariant n == i && prev == Prev(rows, i)
        invariant forall j :: 0 <= j < i ==> LinkOk(d, rows, j)
      {
        var e := rows[i];
        if e.prevHash != prev || e.entryHash != d(prev, EntryOf(e)) {
          return n, Some(e.id);
        }
        prev := e.entryHash;
        n := n + 1;
      }
      return n, None;
    }

    /** Tamper: rewrites the decision of the entry with this id behind the trigger's back. */
    method Tamper(id: int, newDecision: string)
      modifies this`rows
      ensures |rows| == |old(rows)|
      ensures forall i :: 0 <= i < |rows| ==>
        rows[i] == if old(rows)[i].id == id then old(rows)[i].(decision := newDecision) else old(rows)[i]
    {
      var was := rows;
      for i := 0 to |was|
        invariant |rows| == |was|
        invariant forall j :: 0 <= j < |was| ==>
          rows[j] == if j < i && was[j].id == id then was[j].(decision := newDecision) else was[j]
      {
        if was[i].id == id {
          rows := rows[i := was[i].(decision := newDecision)];
        }
      }
    }
  }

  // ---------------------------------------------------------------------------------------------
  // Logs the trigger builds

  /** The log, in id order, after inserts in which the trigger of the i-th row took the hash before
      position `seen[i]`: serialized inserts see their predecessor, overlapping ones may see a row
      further back, and one that drew its id early may see a row further on. */
  ghost predicate Built(d: Digest, es: seq<Entry>, seen: seq<nat>, rows: seq<Row>) {
    && |rows| == |es| == |seen|
    && forall i :: 0 <= i < |es| ==> seen[i] <= |es| && rows[i] == Chained(d, es[i], Prev(rows, seen[i]))
  }

  /** Such logs exist, for any positions that do not look ahead. */
  function Build(d: Digest, es: seq<Entry>, seen: seq<nat>): (rows: seq<Row>)
    requires |seen| == |es| && forall i :: 0 <= i < |es| ==> seen[i] <= i
    ensures |rows| == |es|
  {
    if es == [] then []
    else
      var n := |es| - 1;
      var rest := Build(d, es[..n], seen[..n]);
      rest + [Chained(d, es[n], Prev(rest, seen[n]))]
  }

  lemma {:induction false} BuiltRow(d: Digest, es: seq<Entry>, seen: seq<nat>, i: nat)
    requires |seen| == |es| && (forall j :: 0 <= j < |es| ==> seen[j] <= j) && i < |es|
    ensures Build(d, es, seen)[i] == Chained(d, es[i], Prev(Build(d, es, seen), seen[i]))
    decreases |es|
  {
    var n := |es| - 1;
    var rest, rows := Build(d, es[..n], seen[..n]), Build(d, es, seen);
    assert rows[..n] == rest;
    assert Prev(rows, seen[i]) == Prev(rest, seen[i]);
    if i < n { BuiltRow(d, es[..n], seen[..n], i); }
  }

  lemma BuildBuilds(d: Digest, es: seq<Entry>, seen: seq<nat>)
    requires |seen| == |es| && forall i :: 0 <= i < |es| ==> seen[i] <= i
    ensures Built(d, es, seen, Build(d, es, seen))
  {
    forall i | 0 <= i < |es| ensures Build(d, es, seen)[i] == Chained(d, es[i], Prev(Build(d, es, seen), seen[i])) {
      BuiltRow(d, es, seen, i);
    }
  }

  ghost predicate Serial(seen: seq<nat>) {
    forall i :: 0 <= i < |seen| ==> seen[i] == i
  }

  ghost predicate EntryIdsAscend(es: seq<Entry>) {
    forall i, j :: 0 <= i < j < |es| ==> es[i].id < es[j].id
  }

  function PreimageAt(rows: seq<Row>, i: nat): string
    requires i < |rows|
  {
    Preimage(rows[i].prevHash, EntryOf(rows[i]))
  }

  /** Two different preimages, one of each log, with one digest. */
  ghost predicate Collide(h: Hash, a: seq<Row>, b: seq<Row>) {
    exists i, j :: 0 <= i < |a| && 0 <= j < |b| && PreimageAt(a, i) != PreimageAt(b, j)
                   && h(PreimageAt(a, i)) == h(PreimageAt(b, j))
  }

  /** The separator after the hash and the one after the id are found again, whatever the texts. */
  lemma PreimageHead(p: string, d: Entry, q: string, e: Entry)
    requires Free(p, '|') && Free(q, '|') && Preimage(p, d) == Preimage(q, e)
    ensures p == q && d.id == e.id && Body(d) == Body(e)
  {
    CutUnique(p, q, '|', Body(d), Body(e));
    DecimalFree(d.id, '|');
    DecimalFree(e.id, '|');
    var r := d.actor + ['|'] + (d.action + ['|'] + (d.resource + ['|'] + (d.decision + ['|'] + d.reason)));
    var t := e.actor + ['|'] + (e.action + ['|'] + (e.resource + ['|'] + (e.decision + ['|'] + e.reason)));
    CutUnique(Decimal(d.id), Decimal(e.id), '|', r, t);
    DecimalInjective(d.id, e.id);
  }

  /** Rows with different ids have different digests. */
  lemma HashesDiffer(h: Hash, rows: seq<Row>, i: nat, j: nat)
    requires i < |rows| && j < |rows| && rows[i].id != rows[j].id
    requires rows[i].entryHash == h(PreimageAt(rows, i)) && rows[j].entryHash == h(PreimageAt(rows, j))
    requires Free(rows[i].prevHash, '|') && Free(rows[j].prevHash, '|')
    ensures rows[i].entryHash != rows[j].entryHash || Collide(h, rows, rows)
  {
    if PreimageAt(rows, i) == PreimageAt(rows, j) {
      PreimageHead(rows[i].prevHash, EntryOf(rows[i]), rows[j].prevHash, EntryOf(rows[j]));
    }
  }

  lemma VerifiedRow(h: Hash, rows: seq<Row>, i: nat)
    requires Hex(h) && Verified(DigestOf(h), rows) && i < |rows|
    ensures rows[i].prevHash == Prev(rows, i) && Free(rows[i].prevHash, '|')
    ensures rows[i].entryHash == h(PreimageAt(rows, i)) && rows[i].entryHash != ""
  {
    assert LinkOk(DigestOf(h), rows, i);
    if i > 0 {
      assert LinkOk(DigestOf(h), rows, i - 1);
      assert rows[i - 1].entryHash == h(PreimageAt(rows, i - 1));
    }
  }

  /** In a verified log no two positions have the same hash to commit to. */
  lemma PrevsDiffer(h: Hash, rows: seq<Row>, i: nat, j: nat)
    requires Hex(h) && Verified(DigestOf(h), rows) && IdsAscend(rows) && i < j <= |rows|
    ensures Prev(rows, i) != Prev(rows, j) || Collide(h, rows, rows)
  {
    VerifiedRow(h, rows, j - 1);
    if i > 0 {
      VerifiedRow(h, rows, i - 1);
      HashesDiffer(h, rows, i - 1, j - 1);
    }
  }

  /** Serialized inserts always give a log that verifies with its full length. */
  lemma SerialVerifies(d: Digest, es: seq<Entry>, seen: seq<nat>, rows: seq<Row>)
    requires Built(d, es, seen, rows) && Serial(seen)
    ensures Verified(d, rows)
  {
    forall i | 0 <= i < |rows| ensures LinkOk(d, rows, i) {
      assert rows[i] == Chained(d, es[i], Prev(rows, seen[i]));
    }
  }

  /** A log built from an empty table verifies, with its full length, exactly when every insert
      saw its immediate predecessor: an insert that saw any other row, earlier or later, breaks
      the chain. */
  lemma BuiltVerifiesIffSerial(h: Hash, es: seq<Entry>, seen: seq<nat>, rows: seq<Row>)
    requires Hex(h) && Built(DigestOf(h), es, seen, rows) && EntryIdsAscend(es)
    ensures Serial(seen) ==> Verified(DigestOf(h), rows)
    ensures Verified(DigestOf(h), rows) ==> Serial(seen) || Collide(h, rows, rows)
  {
    var d := DigestOf(h);
    if Serial(seen) { SerialVerifies(d, es, seen, rows); }
    if Verified(d, rows) && !Collide(h, rows, rows) {
      assert forall i :: 0 <= i < |rows| ==> rows[i].id == es[i].id;
      forall i | 0 <= i < |seen| ensures seen[i] == i {
        assert LinkOk(d, rows, i);
        if seen[i] < i { PrevsDiffer(h, rows, seen[i], i); }
        if i < seen[i] { PrevsDiffer(h, rows, i, seen[i]); }
      }
    }
  }

  /** Cutting entries off the end leaves a verified log. */
  lemma PrefixVerified(d: Digest, rows: seq<Row>, n: nat)
    requires Verified(d, rows) && n <= |rows|
    ensures Verified(d, rows[..n]) && Prev(rows[..n], n) == Prev(rows, n)
  {
    forall i | 0 <= i < n ensures LinkOk(d, rows[..n], i) {
      assert LinkOk(d, rows, i);
    }
  }
}
