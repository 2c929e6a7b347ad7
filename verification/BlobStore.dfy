/** Recovery blobs (internal/adapters/adapters.go): references printed by Upload and parsed by
    Fetch. A character is a rune. */
module BlobStore {
  import opened Wrappers
  import opened Text

  // ----- references

  /** The runes that fmt's scanner takes for space. */
  predicate IsSpace(c: char) {
    || '\t' <= c <= '\r' || c == ' ' || c == '\U{85}' || c == '\U{A0}' || c == '\U{1680}'
    || '\U{2000}' <= c <= '\U{200A}' || c == '\U{2028}' || c == '\U{2029}' || c == '\U{202F}'
    || c == '\U{205F}' || c == '\U{3000}'
  }

  predicate NoSpace(s: string) {
    forall i :: 0 <= i < |s| ==> !IsSpace(s[i])
  }

  function TakeWord(s: string): string {
    if s == "" || IsSpace(s[0]) then "" else [s[0]] + TakeWord(s[1..])
  }

  /** What %s scans: leading space but no newline is skipped, then everything up to a space. */
  function Word(s: string): string {
    if s != "" && IsSpace(s[0]) && s[0] != '\n' then Word(s[1..]) else TakeWord(s)
  }

  predicate Padding(s: string) {
    forall i :: 0 <= i < |s| ==> IsSpace(s[i]) && s[i] != '\n'
  }

  lemma {:induction false} TakesWord(w: string, rest: string)
    requires NoSpace(w) && (rest == "" || IsSpace(rest[0]))
    ensures TakeWord(w + rest) == w
    decreases |w|
  {
    if w == "" {
      assert w + rest == rest;
    } else {
      TakesWord(w[1..], rest);
      assert (w + rest)[1..] == w[1..] + rest && [w[0]] + w[1..] == w;
    }
  }

  /** What a scan finds behind padding: the text up to the next space, and nothing at a newline. */
  lemma {:induction false} WordIs(pad: string, w: string, rest: string)
    requires Padding(pad) && NoSpace(w) && (rest == "" || IsSpace(rest[0]))
    requires w == "" ==> rest == "" || rest[0] == '\n'
    ensures Word(pad + w + rest) == w
    decreases |pad|
  {
    var s := pad + w + rest;
    if pad == "" {
      assert s == w + rest;
      TakesWord(w, rest);
    } else {
      WordIs(pad[1..], w, rest);
      assert s[1..] == pad[1..] + w + rest && s[0] == pad[0];
    }
  }

  datatype Address = Address(bucket: string, key: string)

  function CutAtSlash(w: string): Address {
    var i := Index(w, "/");
    if i < 0 then Address("", w) else Address(w[..i], w[i + 1..])
  }

  /** Where a reference points, if it is one. */
  function Parse(ref: string): Option<Address> {
    if |ref| < 5 || ref[..5] != "s3://" then None
    else
      var w := Word(ref[5..]);
      if w == "" then None else Some(CutAtSlash(w))
  }

  function RefOf(a: Address): string {
    "s3://" + a.bucket + "/" + a.key
  }

  lemma {:induction false} WordShort(s: string)
    ensures |TakeWord(s)| <= |s| && |Word(s)| <= |s|
    ensures |TakeWord(s)| == |s| <==> NoSpace(s)
    ensures |Word(s)| == |s| <==> NoSpace(s)
    ensures NoSpace(s) ==> TakeWord(s) == s && Word(s) == s
    decreases |s|
  {
    if s != "" {
      WordShort(s[1..]);
      assert s == [s[0]] + s[1..];
      assert NoSpace(s) <==> !IsSpace(s[0]) && NoSpace(s[1..]) by {
        assert forall i :: 0 < i < |s| ==> s[i] == s[1..][i - 1];
        assert forall i :: 0 <= i < |s[1..]| ==> s[1..][i] == s[i + 1];
      }
    }
  }

  lemma CutFound(b: string, k: string)
    requires Free(b, '/')
    ensures CutAtSlash(b + ['/'] + k) == Address(b, k)
  {
    var w := b + ['/'] + k;
    assert OccursAt(w, "/", |b|) by { assert w[|b|..|b| + 1] == "/"; }
    var i := Index(w, "/");
    assert i >= 0 by { assert Contains(w, "/"); }
    assert w[i..i + 1][0] == '/' && w[i] == '/';
    assert i <= |b|;
    assert i == |b|;
  }

  lemma CutShort(w: string)
    ensures var a := CutAtSlash(w); |a.bucket| + 1 + |a.key| <= |w| + 1
    ensures var a := CutAtSlash(w); |a.bucket| + 1 + |a.key| == |w| ==> Free(a.bucket, '/') && w == a.bucket + ['/'] + a.key
  {
    var i := Index(w, "/");
    if i >= 0 {
      assert w[i..i + 1] == "/";
      assert w == w[..i] + ['/'] + w[i + 1..];
      forall j | 0 <= j < i ensures w[j] != '/' {
        assert !OccursAt(w, "/", j);
        assert w[j..j + 1] == [w[j]];
      }
    }
  }

  /** Parsing undoes printing exactly for a bucket free of '/' and space and a key free of space. */
  lemma ParseUndoesRefIff(a: Address)
    ensures Parse(RefOf(a)) == Some(a) <==> NoSpace(a.bucket) && NoSpace(a.key) && Free(a.bucket, '/')
  {
    var rest := a.bucket + ['/'] + a.key;
    assert RefOf(a) == "s3://" + rest;
    assert RefOf(a)[..5] == "s3://" && RefOf(a)[5..] == rest;
    WordShort(rest);
    NoSpaceParts(a.bucket, a.key);
    var w := Word(rest);
    CutShort(w);
    if NoSpace(rest) {
      assert w == rest;
      if Free(a.bucket, '/') { CutFound(a.bucket, a.key); }
    }
  }

  lemma NoSpaceParts(b: string, k: string)
    ensures NoSpace(b + ['/'] + k) <==> NoSpace(b) && NoSpace(k)
  {
    var r := b + ['/'] + k;
    assert forall i :: 0 <= i < |b| ==> r[i] == b[i];
    assert forall i :: 0 <= i < |k| ==> k[i] == r[|b| + 1 + i];
    assert forall i :: |b| < i < |r| ==> r[i] == k[i - |b| - 1];
  }

  // ----- the store

  type Objects = map<Address, string>

  function Concat(chunks: seq<string>): string {
    if chunks == [] then "" else Concat(chunks[..|chunks| - 1]) + chunks[|chunks| - 1]
  }

  /** A body is put together in the order in which its chunks arrive. */
  lemma {:induction false} ConcatInOrder(a: seq<string>, b: seq<string>)
    ensures Concat(a + b) == Concat(a) + Concat(b)
    ensures |a| == 1 ==> Concat(a) == a[0]
    decreases |b|
  {
    if |a| == 1 { assert a[..0] == [] && "" + a[0] == a[0]; }
    if b == [] {
      assert a + b == a && Concat(a) + "" == Concat(a);
    } else {
      var n := |b| - 1;
      ConcatInOrder(a, b[..n]);
      assert (a + b)[..|a| + n] == a + b[..n] && (a + b)[|a| + n] == b[n];
      assert Concat(a) + Concat(b[..n]) + b[n] == Concat(a) + (Concat(b[..n]) + b[n]);
    }
  }

  /** What Fetch returns, given how bodies arrive in chunks. */
  function Fetched(objects: Objects, arrives: string -> seq<string>, ref: string): Option<string> {
    var at := Parse(ref);
    if at.None? || at.value !in objects then None else Some(Concat(arrives(objects[at.value])))
  }

  /** A put: stored; not stored; stored, but the caller sees an error. */
  datatype Reply = Up | Down | Lost

  class S3 {
    const ready: bool
    const bucket: string
    var objects: Objects

    constructor (ready: bool, bucket: string)
      ensures this.ready == ready && this.bucket == bucket && objects == map[]
    {
      this.ready, this.bucket := ready, bucket;
      objects := map[];
    }

    /** `reply` tells how the put goes. */
    method Upload(key: string, data: string, reply: Reply) returns (ref: Option<string>)
      modifies this
      ensures ref == if Configured() && reply == Up then Some(RefOf(Address(bucket, key))) else None
      ensures objects == if Configured() && reply != Down then old(objects)[Address(bucket, key) := data] else old(objects)
    {
      if !ready || bucket == "" {
        return None;
      }
      if reply != Down {
        objects := objects[Address(bucket, key) := data];
      }
      if reply != Up {
        return None;
      }
      return Some("s3://" + bucket + "/" + key);
    }

    predicate Configured() {
      ready && bucket != ""
    }

    /** The address in a reference, by a loop that cuts at the first slash, and the body chunk by chunk;
        `up` tells whether the store answers. */
    method Fetch(ref: string, arrives: string -> seq<string>, up: bool) returns (r: Option<string>)
      ensures r == if up then Fetched(objects, arrives, ref) else None
    {
      if |ref| < 5 || ref[..5] != "s3://" {
        return None;
      }
      var word := Word(ref[5..]);
      if word == "" {
        return None;
      }
      var bucket, key := CutLoop(word);
      if !up || Address(bucket, key) !in objects {
        return None;
      }
      var chunks := arrives(objects[Address(bucket, key)]);
      var buf := "";
      for i := 0 to |chunks|
        invariant buf == Concat(chunks[..i])
      {
        assert chunks[..i + 1][..i] == chunks[..i];
        buf := buf + chunks[i];
      }
      assert chunks[..|chunks|] == chunks;
      return Some(buf);
    }
  }

  method CutLoop(word: string) returns (bucket: string, key: string)
    ensures Address(bucket, key) == CutAtSlash(word)
  {
    bucket, key := "", word;
    for i := 0 to |word|
      invariant bucket == "" && key == word && forall j :: 0 <= j < i ==> word[j] != '/'
    {
      if key[i] == '/' {
        bucket, key := key[..i], key[i + 1..];
        CutFound(bucket, key);
        assert word == bucket + ['/'] + key;
        return;
      }
    }
    assert !Contains(word, "/") by {
      forall j | 0 <= j < |word| ensures !OccursAt(word, "/", j) {
        assert word[j..j + 1] == [word[j]];
      }
    }
  }
}
