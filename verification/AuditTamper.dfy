/** What the hash chain pins down, and exactly which changes to a verified log go unnoticed. */
module AuditTamper {
  import opened Text
  import opened AuditChain

  // ---------------------------------------------------------------------------------------------
  // When an entry can be read back from its text

  /** The separator occurs in no text field but the last. */
  ghost predicate PipeFree(e: Entry) {
    Free(e.actor, '|') && Free(e.action, '|') && Free(e.resource, '|') && Free(e.decision, '|')
  }

  /** The separator occurs in no text field at all. */
  ghost predicate AllFree(e: Entry) {
    PipeFree(e) && Free(e.reason, '|')
  }

  function Pipes(s: string): nat {
    if s == "" then 0 else Pipes(s[..|s| - 1]) + if s[|s| - 1] == '|' then 1 else 0
  }

  lemma {:induction false} PipesAdd(a: string, b: string)
    ensures Pipes(a + ['|'] + b) == Pipes(a) + 1 + Pipes(b)
    decreases |b|
  {
    var s := a + ['|'] + b;
    if b == "" {
      assert s[..|s| - 1] == a;
    } else {
      PipesAdd(a, b[..|b| - 1]);
      assert s[..|s| - 1] == a + ['|'] + b[..|b| - 1];
    }
  }

  lemma {:induction false} PipesFree(s: string)
    ensures Pipes(s) == 0 <==> Free(s, '|')
  {
    if s != "" {
      PipesFree(s[..|s| - 1]);
      assert s == s[..|s| - 1] + [s[|s| - 1]];
    }
  }

  lemma BodyPipes(e: Entry)
    ensures Pipes(Body(e)) >= 5 && (Pipes(Body(e)) == 5 <==> AllFree(e))
  {
    var e4 := e.decision + ['|'] + e.reason;
    var e3 := e.resource + ['|'] + e4;
    var e2 := e.action + ['|'] + e3;
    var e1 := e.actor + ['|'] + e2;
    PipesAdd(e.decision, e.reason);
    PipesAdd(e.resource, e4);
    PipesAdd(e.action, e3);
    PipesAdd(e.actor, e2);
    PipesAdd(Decimal(e.id), e1);
    DecimalFree(e.id, '|');
    PipesFree(Decimal(e.id));
    PipesFree(e.actor);
    PipesFree(e.action);
    PipesFree(e.resource);
    PipesFree(e.decision);
    PipesFree(e.reason);
  }

  lemma BodyInjective(d: Entry, e: Entry)
    requires PipeFree(d) && PipeFree(e) && d.id == e.id && Body(d) == Body(e)
    ensures d == e
  {
    var d4, e4 := d.decision + ['|'] + d.reason, e.decision + ['|'] + e.reason;
    var d3, e3 := d.resource + ['|'] + d4, e.resource + ['|'] + e4;
    var d2, e2 := d.action + ['|'] + d3, e.action + ['|'] + e3;
    var d1, e1 := d.actor + ['|'] + d2, e.actor + ['|'] + e2;
    DecimalFree(d.id, '|');
    CutUnique(Decimal(d.id), Decimal(e.id), '|', d1, e1);
    CutUnique(d.actor, e.actor, '|', d2, e2);
    CutUnique(d.action, e.action, '|', d3, e3);
    CutUnique(d.resource, e.resource, '|', d4, e4);
    CutUnique(d.decision, e.decision, '|', d.reason, e.reason);
  }

  /** The text of an entry tells the entry if one of the two holds no separator at all, or both
      hold none outside the reason. */
  ghost predicate Legible(d: Entry, e: Entry) {
    AllFree(d) || AllFree(e) || (PipeFree(d) && PipeFree(e))
  }

  lemma LegibleBody(d: Entry, e: Entry)
    requires Legible(d, e) && d.id == e.id && Body(d) == Body(e)
    ensures d == e
  {
    BodyPipes(d);
    BodyPipes(e);
    BodyInjective(d, e);
  }

  // ---------------------------------------------------------------------------------------------
  // The last hash

  function Head(rows: seq<Row>): string {
    Prev(rows, |rows|)
  }

  ghost predicate EachFree(rows: seq<Row>) {
    forall i :: 0 <= i < |rows| ==> AllFree(EntryOf(rows[i]))
  }

  ghost predicate EachPipeFree(rows: seq<Row>) {
    forall i :: 0 <= i < |rows| ==> PipeFree(EntryOf(rows[i]))
  }

  /** Rows with one digest are one row, or their preimages collide. */
  lemma SameHashSameRow(h: Hash, a: seq<Row>, i: nat, b: seq<Row>, j: nat)
    requires Hex(h) && Verified(DigestOf(h), a) && Verified(DigestOf(h), b) && i < |a| && j < |b|
    requires Legible(EntryOf(a[i]), EntryOf(b[j])) && a[i].entryHash == b[j].entryHash
    ensures a[i] == b[j] || Collide(h, a, b)
  {
    VerifiedRow(h, a, i);
    VerifiedRow(h, b, j);
    if PreimageAt(a, i) == PreimageAt(b, j) {
      PreimageHead(a[i].prevHash, EntryOf(a[i]), b[j].prevHash, EntryOf(b[j]));
      LegibleBody(EntryOf(a[i]), EntryOf(b[j]));
    }
  }

  /** The last hash determines the whole log: a log without separators in its texts is the only
      verified log with its head, or two of the preimages collide. The same holds of two logs
      whose separators are in reasons only. */
  lemma {:induction false} HeadDeterminesLog(h: Hash, a: seq<Row>, b: seq<Row>)
    requires Hex(h) && Verified(DigestOf(h), a) && Verified(DigestOf(h), b) && Head(a) == Head(b)
    requires EachFree(a) || (EachPipeFree(a) && EachPipeFree(b))
    ensures a == b || Collide(h, a, b)
    decreases |a|
  {
    if a == [] || b == [] {
      if a != [] { VerifiedRow(h, a, |a| - 1); }
      if b != [] { VerifiedRow(h, b, |b| - 1); }
    } else {
      var m, n := |a| - 1, |b| - 1;
      SameHashSameRow(h, a, m, b, n);
      if a[m] == b[n] {
        VerifiedRow(h, a, m);
        VerifiedRow(h, b, n);
        PrefixVerified(DigestOf(h), a, m);
        PrefixVerified(DigestOf(h), b, n);
        assert a[..m] == b[..n] || Collide(h, a[..m], b[..n]) by { HeadDeterminesLog(h, a[..m], b[..n]); }
        if a[..m] == b[..n] {
          assert a == a[..m] + [a[m]] && b == b[..n] + [b[n]];
        } else {
          CollideGrows(h, a, m, b, n);
        }
      }
    }
  }

  lemma CollideGrows(h: Hash, a: seq<Row>, m: nat, b: seq<Row>, n: nat)
    requires m <= |a| && n <= |b| && Collide(h, a[..m], b[..n])
    ensures Collide(h, a, b)
  {
    var i, j :| 0 <= i < m && 0 <= j < n && PreimageAt(a[..m], i) != PreimageAt(b[..n], j)
                && h(PreimageAt(a[..m], i)) == h(PreimageAt(b[..n], j));
    assert PreimageAt(a, i) != PreimageAt(b, j) && h(PreimageAt(a, i)) == h(PreimageAt(b, j));
  }

  // ---------------------------------------------------------------------------------------------
  // Replacing an entry

  /** A replacement goes unnoticed exactly if it is chained to the row before and, unless it is the
      last, has the hash that the row after commits to. */
  lemma ReplacedIff(d: Digest, rows: seq<Row>, i: nat, r: Row)
    requires Verified(d, rows) && i < |rows|
    ensures Verified(d, rows[i := r]) <==>
      r == Chained(d, EntryOf(r), Prev(rows, i)) && (i < |rows| - 1 ==> r.entryHash == rows[i].entryHash)
  {
    var edited := rows[i := r];
    assert forall j :: 0 <= j <= |rows| && j != i + 1 ==> Prev(edited, j) == Prev(rows, j);
    assert Prev(edited, i + 1) == r.entryHash && Prev(rows, i + 1) == rows[i].entryHash;
    if Verified(d, edited) {
      assert LinkOk(d, edited, i);
      if i < |rows| - 1 { assert LinkOk(d, edited, i + 1) && LinkOk(d, rows, i + 1); }
    }
    if r == Chained(d, EntryOf(r), Prev(rows, i)) && (i < |rows| - 1 ==> r.entryHash == rows[i].entryHash) {
      forall j | 0 <= j < |edited| ensures LinkOk(d, edited, j) { assert LinkOk(d, rows, j); }
    }
  }

  /** The last entry can be replaced unnoticed by exactly the rows chained to the one before: any
      entry will do, once its hash is recomputed. */
  lemma LastReplacedIff(d: Digest, rows: seq<Row>, r: Row)
    requires Verified(d, rows) && rows != []
    ensures Verified(d, rows[|rows| - 1 := r]) <==> r == Chained(d, EntryOf(r), Prev(rows, |rows| - 1))
  {
    ReplacedIff(d, rows, |rows| - 1, r);
  }

  /** A row with the same text and the same hashes. */
  function Reworded(r: Row, e: Entry): Row {
    Row(e.id, e.actor, e.action, e.resource, e.decision, e.reason, r.prevHash, r.entryHash)
  }

  lemma SameBodyUnnoticed(h: Hash, rows: seq<Row>, i: nat, e: Entry)
    requires Verified(DigestOf(h), rows) && i < |rows| && Body(e) == Body(EntryOf(rows[i]))
    ensures Verified(DigestOf(h), rows[i := Reworded(rows[i], e)])
    ensures Head(rows[i := Reworded(rows[i], e)]) == Head(rows)
  {
    var d, r := DigestOf(h), Reworded(rows[i], e);
    assert LinkOk(d, rows, i);
    assert EntryOf(r) == e;
    var p := Prev(rows, i);
    assert Preimage(p, e) == Preimage(p, EntryOf(rows[i]));
    assert d(p, e) == d(p, EntryOf(rows[i]));
    ReplacedIff(d, rows, i, r);
  }

  /** Where a field holds the separator, text can move across a border of two fields. */
  lemma Cut(s: string) returns (x: string, y: string)
    requires !Free(s, '|')
    ensures s == x + ['|'] + y
  {
    var i :| 0 <= i < |s| && s[i] == '|';
    x, y := s[..i], s[i + 1..];
  }

  lemma Shift(x: string, y: string, q: string)
    ensures x + ['|'] + y + ['|'] + q == x + ['|'] + (y + ['|'] + q)
    ensures x != x + ['|'] + y
  {
    assert |x + ['|'] + y| > |x|;
  }

  /** An entry with a separator in a text has a twin: another entry with the same text. */
  lemma Twin(e: Entry) returns (t: Entry)
    requires !AllFree(e)
    ensures t != e && Body(t) == Body(e)
  {
    var e4 := e.decision + ['|'] + e.reason;
    var e3 := e.resource + ['|'] + e4;
    var e2 := e.action + ['|'] + e3;
    if !Free(e.actor, '|') {
      var x, y := Cut(e.actor);
      t := e.(actor := x, action := y + ['|'] + e.action);
      Shift(x, y, e.action);
      Shift(y, e.action, e3);
      Shift(x, y, e2);
    } else if !Free(e.action, '|') {
      var x, y := Cut(e.action);
      t := e.(action := x, resource := y + ['|'] + e.resource);
      Shift(y, e.resource, e4);
      Shift(x, y, e3);
    } else if !Free(e.resource, '|') {
      var x, y := Cut(e.resource);
      t := e.(resource := x, decision := y + ['|'] + e.decision);
      Shift(y, e.decision, e.reason);
      Shift(x, y, e4);
    } else if !Free(e.decision, '|') {
      var x, y := Cut(e.decision);
      t := e.(decision := x, reason := y + ['|'] + e.reason);
      Shift(x, y, e.reason);
    } else {
      var x, y := Cut(e.reason);
      t := e.(decision := e.decision + ['|'] + x, reason := y);
      Shift(e.decision, x, y);
    }
  }

  /** Another row in this place, and the walk still accepts the whole log. */
  ghost predicate Unnoticed(h: Hash, rows: seq<Row>, i: nat, r: Row)
    requires i < |rows|
  {
    r != rows[i] && Verified(DigestOf(h), rows[i := r])
  }

  /** An entry before the last can be replaced unnoticed, by whatever row, if and only if one of its
      five texts holds the separator; or preimages collide. */
  lemma ReplaceableIff(h: Hash, rows: seq<Row>, i: nat)
    requires Hex(h) && Verified(DigestOf(h), rows) && i < |rows| - 1
    ensures !AllFree(EntryOf(rows[i])) ==> exists r :: Unnoticed(h, rows, i, r)
    ensures AllFree(EntryOf(rows[i])) ==>
      forall r :: Unnoticed(h, rows, i, r) ==> Collide(h, rows, rows[i := r])
  {
    if !AllFree(EntryOf(rows[i])) {
      var e := Twin(EntryOf(rows[i]));
      SameBodyUnnoticed(h, rows, i, e);
      assert EntryOf(Reworded(rows[i], e)) == e;
      assert Unnoticed(h, rows, i, Reworded(rows[i], e));
    } else {
      forall r | Unnoticed(h, rows, i, r) ensures Collide(h, rows, rows[i := r]) {
        ReplacedIff(DigestOf(h), rows, i, r);
        assert rows[i := r][i] == r;
        SameHashSameRow(h, rows, i, rows[i := r], i);
      }
    }
  }

  /** The head determines a verified log among all verified logs if and only if none of its texts
      holds the separator; or preimages collide. */
  lemma HeadDeterminesLogIff(h: Hash, a: seq<Row>)
    requires Hex(h) && Verified(DigestOf(h), a)
    ensures EachFree(a) ==> forall b :: Verified(DigestOf(h), b) && Head(b) == Head(a) ==> b == a || Collide(h, a, b)
    ensures !EachFree(a) ==> exists b :: b != a && Verified(DigestOf(h), b) && Head(b) == Head(a)
  {
    if EachFree(a) {
      forall b | Verified(DigestOf(h), b) && Head(b) == Head(a) ensures b == a || Collide(h, a, b) {
        HeadDeterminesLog(h, a, b);
      }
    } else {
      var i :| 0 <= i < |a| && !AllFree(EntryOf(a[i]));
      var e := Twin(EntryOf(a[i]));
      SameBodyUnnoticed(h, a, i, e);
      var b := a[i := Reworded(a[i], e)];
      assert EntryOf(b[i]) == e;
      assert b != a;
    }
  }

  // ----- edits

  datatype Field = Actor | Action | Resource | Decision | Reason | PrevHash | EntryHash

  function Get(r: Row, f: Field): string {
    match f
    case Actor => r.actor
    case Action => r.action
    case Resource => r.resource
    case Decision => r.decision
    case Reason => r.reason
    case PrevHash => r.prevHash
    case EntryHash => r.entryHash
  }

  function Set(r: Row, f: Field, v: string): Row {
    match f
    case Actor => r.(actor := v)
    case Action => r.(action := v)
    case Resource => r.(resource := v)
    case Decision => r.(decision := v)
    case Reason => r.(reason := v)
    case PrevHash => r.(prevHash := v)
    case EntryHash => r.(entryHash := v)
  }

  lemma PrefixDiffers(p: string, r: string, t: string)
    requires r != t
    ensures p + ['|'] + r != p + ['|'] + t
  {
    assert (p + ['|'] + r)[|p| + 1..] == r && (p + ['|'] + t)[|p| + 1..] == t;
  }

  lemma SuffixDiffers(x: string, y: string, s: string)
    requires x != y
    ensures x + ['|'] + s != y + ['|'] + s
  {
    if |x| == |y| {
      assert (x + ['|'] + s)[..|x|] == x && (y + ['|'] + s)[..|x|] == y;
    } else {
      assert |x + ['|'] + s| != |y + ['|'] + s|;
    }
  }

  /** One changed text field changes the preimage, whatever separators the texts hold. */
  lemma EditChangesBody(r: Row, f: Field, v: string)
    requires f != PrevHash && f != EntryHash && v != Get(r, f)
    ensures Body(EntryOf(r)) != Body(EntryOf(Set(r, f, v)))
  {
    var t := Set(r, f, v);
    var r4, t4 := r.decision + ['|'] + r.reason, t.decision + ['|'] + t.reason;
    var r3, t3 := r.resource + ['|'] + r4, t.resource + ['|'] + t4;
    var r2, t2 := r.action + ['|'] + r3, t.action + ['|'] + t3;
    var r1, t1 := r.actor + ['|'] + r2, t.actor + ['|'] + t2;
    if f == Reason { PrefixDiffers(r.decision, r.reason, v); }
    if f == Decision { SuffixDiffers(r.decision, v, r.reason); }
    if r4 != t4 { PrefixDiffers(r.resource, r4, t4); }
    if f == Resource { SuffixDiffers(r.resource, v, r4); }
    if r3 != t3 { PrefixDiffers(r.action, r3, t3); }
    if f == Action { SuffixDiffers(r.action, v, r3); }
    if r2 != t2 { PrefixDiffers(r.actor, r2, t2); }
    if f == Actor { SuffixDiffers(r.actor, v, r2); }
    PrefixDiffers(Decimal(r.id), r1, t1);
  }

  /** Rewriting one field of one entry makes the walk stop exactly there. */
  lemma EditDetected(h: Hash, rows: seq<Row>, i: nat, f: Field, v: string)
    requires Hex(h) && Verified(DigestOf(h), rows) && i < |rows| && v != Get(rows[i], f)
    ensures var edited := rows[i := Set(rows[i], f, v)];
      StopsAt(DigestOf(h), edited, i) || Collide(h, rows, edited)
  {
    var d, edited := DigestOf(h), rows[i := Set(rows[i], f, v)];
    forall j | 0 <= j < i ensures LinkOk(d, edited, j) { assert LinkOk(d, rows, j); }
    assert Prev(edited, i) == Prev(rows, i);
    VerifiedRow(h, rows, i);
    if f != PrevHash && f != EntryHash {
      EditChangesBody(rows[i], f, v);
      PrefixDiffers(rows[i].prevHash, Body(EntryOf(rows[i])), Body(EntryOf(edited[i])));
      if LinkOk(d, edited, i) {
        assert PreimageAt(rows, i) != PreimageAt(edited, i);
        assert h(PreimageAt(edited, i)) == edited[i].entryHash == rows[i].entryHash == h(PreimageAt(rows, i));
      }
    }
  }

  function Without(rows: seq<Row>, i: nat): seq<Row>
    requires i < |rows|
  {
    rows[..i] + rows[i + 1..]
  }

  /** Deleting an entry makes the walk stop exactly at the gap, unless it was the last entry, in
      which case nothing is noticed. */
  lemma DeletionDetectedUnlessLast(h: Hash, rows: seq<Row>, i: nat)
    requires Hex(h) && Verified(DigestOf(h), rows) && IdsAscend(rows) && i < |rows|
    ensures i == |rows| - 1 ==> Verified(DigestOf(h), Without(rows, i))
    ensures i < |rows| - 1 ==> StopsAt(DigestOf(h), Without(rows, i), i) || Collide(h, rows, rows)
  {
    var d, cut := DigestOf(h), Without(rows, i);
    PrefixVerified(d, rows, i);
    if i == |rows| - 1 {
      assert cut == rows[..i];
    } else {
      assert cut[i] == rows[i + 1] && Prev(cut, i) == Prev(rows, i);
      forall j | 0 <= j < i ensures LinkOk(d, cut, j) { assert LinkOk(d, rows[..i], j); }
      VerifiedRow(h, rows, i + 1);
      PrevsDiffer(h, rows, i, i + 1);
    }
  }

  /** The log as it is listed after the id of row i was changed and the row has moved to place j. */
  function Relisted(rows: seq<Row>, i: nat, r: Row, j: nat): seq<Row>
    requires i < |rows| && j < |rows|
  {
    var rest := Without(rows, i);
    rest[..j] + [r] + rest[j..]
  }

  lemma RelistedFront(rows: seq<Row>, i: nat, r: Row, j: nat)
    requires i < |rows| && j < |rows|
    ensures var listed, n := Relisted(rows, i, r, j), if i < j then i else j;
      && |listed| == |rows| && (forall k :: 0 <= k < n ==> listed[k] == rows[k])
      && Prev(listed, n) == Prev(rows, n)
      && listed[n] == (if i < j then rows[i + 1] else r)
  {}

  lemma FrontHolds(d: Digest, rows: seq<Row>, listed: seq<Row>, n: nat)
    requires Verified(d, rows) && n <= |rows| && n <= |listed| && forall k :: 0 <= k < n ==> listed[k] == rows[k]
    ensures forall k :: 0 <= k < n ==> LinkOk(d, listed, k)
  {
    forall k | 0 <= k < n ensures LinkOk(d, listed, k) {
      assert LinkOk(d, rows, k);
      assert Prev(listed, k) == Prev(rows, k);
    }
  }

  /** Changing the id of a row makes the walk stop, in the row's place or where the row moves to in
      id order, whichever comes first; or preimages collide. */
  lemma IdEditDetected(h: Hash, rows: seq<Row>, i: nat, id: int, j: nat)
    requires Hex(h) && Verified(DigestOf(h), rows) && IdsAscend(rows) && i < |rows| && j < |rows| && id != rows[i].id
    ensures var listed := Relisted(rows, i, rows[i].(id := id), j);
      || StopsAt(DigestOf(h), listed, if i < j then i else j)
      || Collide(h, rows, listed) || Collide(h, rows, rows)
  {
    var d, r, n := DigestOf(h), rows[i].(id := id), if i < j then i else j;
    var listed := Relisted(rows, i, r, j);
    RelistedFront(rows, i, r, j);
    FrontHolds(d, rows, listed, n);
    VerifiedRow(h, rows, i);
    if i < j {
      VerifiedRow(h, rows, i + 1);
      PrevsDiffer(h, rows, i, i + 1);
    } else if j < i {
      PrevsDiffer(h, rows, j, i);
    } else if LinkOk(d, listed, i) {
      if PreimageAt(rows, i) == PreimageAt(listed, i) {
        PreimageHead(rows[i].prevHash, EntryOf(rows[i]), r.prevHash, EntryOf(r));
      }
      assert h(PreimageAt(listed, i)) == r.entryHash == h(PreimageAt(rows, i));
    }
  }
}
