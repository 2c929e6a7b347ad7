/** The content address of an environment snapshot (internal/environments/snapshot.go). Each
    character of a string stands for one byte. */
module CacheKey {
  import opened Text

  datatype Request = Request(
    imageDigest: string, setupSteps: seq<string>, repoPins: map<string, string>,
    builderVersion: string, basePatchLevel: string)

  const STEP := '\0'
  const PIN := '\U{1}'
  const END := '\U{2}'

  // ----- sorted strings

  /** Bytewise order of strings. */
  predicate Le(a: string, b: string) {
    a == "" || (b != "" && (a[0] < b[0] || (a[0] == b[0] && Le(a[1..], b[1..]))))
  }

  lemma {:induction false} LeTotal(a: string, b: string)
    ensures Le(a, b) || Le(b, a)
    ensures Le(a, b) && Le(b, a) ==> a == b
  {
    if a != "" && b != "" {
      LeTotal(a[1..], b[1..]);
      assert a == [a[0]] + a[1..] && b == [b[0]] + b[1..];
    }
  }

  lemma {:induction false} LeTransitive(a: string, b: string, c: string)
    requires Le(a, b) && Le(b, c)
    ensures Le(a, c)
  {
    if a != "" && a[0] == b[0] && b[0] == c[0] { LeTransitive(a[1..], b[1..], c[1..]); }
  }

  ghost predicate Sorted(ss: seq<string>) {
    forall i, j :: 0 <= i < j < |ss| ==> Le(ss[i], ss[j])
  }

  lemma SortedCons(x: string, ss: seq<string>)
    requires Sorted(ss) && (ss != [] ==> Le(x, ss[0]))
    ensures Sorted([x] + ss)
  {
    forall j | 0 <= j < |ss| ensures Le(x, ss[j]) {
      if j > 0 { LeTransitive(x, ss[0], ss[j]); }
    }
  }

  function Insert(ss: seq<string>, x: string): (r: seq<string>)
    requires Sorted(ss)
    ensures Sorted(r) && r != [] && (r[0] == x || (ss != [] && r[0] == ss[0]))
  {
    if ss == [] then [x]
    else
      LeTotal(x, ss[0]);
      if Le(x, ss[0]) then
        SortedCons(x, ss);
        [x] + ss
      else
        SortedCons(ss[0], Insert(ss[1..], x));
        [ss[0]] + Insert(ss[1..], x)
  }

  lemma {:induction false} InsertBag(ss: seq<string>, x: string)
    requires Sorted(ss)
    ensures multiset(Insert(ss, x)) == multiset(ss) + multiset{x}
  {
    if ss != [] && !Le(x, ss[0]) {
      InsertBag(ss[1..], x);
      assert ss == [ss[0]] + ss[1..];
    }
  }

  /** sort.Strings. */
  function Sort(ss: seq<string>): (r: seq<string>)
    ensures Sorted(r) && multiset(r) == multiset(ss)
  {
    if ss == [] then [] else
      assert ss == [ss[0]] + ss[1..];
      InsertBag(Sort(ss[1..]), ss[0]);
      Insert(Sort(ss[1..]), ss[0])
  }

  lemma BagTail(a: seq<string>)
    requires a != []
    ensures multiset(a[1..]) == multiset(a) - multiset{a[0]}
  {
    assert a == [a[0]] + a[1..];
  }

  lemma HeadIsLeast(a: seq<string>, x: string)
    requires Sorted(a) && x in multiset(a)
    ensures Le(a[0], x)
  {
    var i :| 0 <= i < |a| && a[i] == x;
    LeTotal(a[0], a[0]);
  }

  /** There is one sorted arrangement, whatever the sorting algorithm. */
  lemma {:induction false} SortedUnique(a: seq<string>, b: seq<string>)
    requires Sorted(a) && Sorted(b) && multiset(a) == multiset(b)
    ensures a == b
    decreases |a|
  {
    assert |multiset(a)| == |a| && |multiset(b)| == |b|;
    if a != [] {
      assert a[0] in multiset(a) && b[0] in multiset(b);
      HeadIsLeast(a, b[0]);
      HeadIsLeast(b, a[0]);
      LeTotal(a[0], b[0]);
      BagTail(a);
      BagTail(b);
      SortedUnique(a[1..], b[1..]);
      assert a == [a[0]] + a[1..] && b == [b[0]] + b[1..];
    }
  }

  // ----- pins

  function Pin(url: string, sha: string): string {
    url + ['@'] + sha
  }

  /** The pins of some urls of a map, each url once, in no order. */
  ghost function PinsOf(m: map<string, string>, urls: set<string>): multiset<string>
    requires urls <= m.Keys
  {
    if urls == {} then multiset{} else
      var url :| url in urls;
      PinsOf(m, urls - {url}) + multiset{Pin(url, m[url])}
  }

  ghost function Pins(m: map<string, string>): multiset<string> {
    PinsOf(m, m.Keys)
  }

  /** The url that the definition of PinsOf takes first. */
  lemma PinsFirst(m: map<string, string>, urls: set<string>) returns (first: string)
    requires urls <= m.Keys && urls != {}
    ensures first in urls && PinsOf(m, urls) == PinsOf(m, urls - {first}) + multiset{Pin(first, m[first])}
  {
    first :| first in urls && PinsOf(m, urls) == PinsOf(m, urls - {first}) + multiset{Pin(first, m[first])};
  }

  /** It does not matter which url goes first. */
  lemma {:induction false} PinsRemove(m: map<string, string>, urls: set<string>, url: string)
    requires urls <= m.Keys && url in urls
    ensures PinsOf(m, urls) == PinsOf(m, urls - {url}) + multiset{Pin(url, m[url])}
    decreases |urls|
  {
    var first := PinsFirst(m, urls);
    if first != url {
      var p, q := Pin(first, m[first]), Pin(url, m[url]);
      var rest := PinsOf(m, urls - {url} - {first});
      assert PinsOf(m, urls - {first}) == rest + multiset{q} by {
        PinsRemove(m, urls - {first}, url);
        assert urls - {first} - {url} == urls - {url} - {first};
      }
      assert PinsOf(m, urls - {url}) == rest + multiset{p} by {
        PinsRemove(m, urls - {url}, first);
      }
      BagSwap(PinsOf(m, urls), PinsOf(m, urls - {first}), PinsOf(m, urls - {url}), rest, p, q);
    }
  }

  lemma BagSwap(all: multiset<string>, a: multiset<string>, b: multiset<string>, rest: multiset<string>, p: string,
                q: string)
    requires all == a + multiset{p} && a == rest + multiset{q} && b == rest + multiset{p}
    ensures all == b + multiset{q}
  {}

  ghost predicate PinIn(m: map<string, string>, urls: set<string>, p: string)
    requires urls <= m.Keys
  {
    exists url :: url in urls && p == Pin(url, m[url])
  }

  lemma {:induction false} PinsAre(m: map<string, string>, urls: set<string>, p: string)
    requires urls <= m.Keys
    ensures p in PinsOf(m, urls) <==> PinIn(m, urls, p)
    decreases |urls|
  {
    if urls != {} {
      var first := PinsFirst(m, urls);
      PinsAre(m, urls - {first}, p);
      assert PinIn(m, urls, p) <==> PinIn(m, urls - {first}, p) || p == Pin(first, m[first]);
    }
  }

  ghost predicate ShasFree(m: map<string, string>) {
    forall url :: url in m ==> Free(m[url], '@')
  }

  /** Where no SHA holds '@', the pins tell the map. */
  lemma PinsInjective(m: map<string, string>, n: map<string, string>)
    requires ShasFree(m) && ShasFree(n) && Pins(m) == Pins(n)
    ensures m == n
  {
    PinsIncluded(m, n);
    PinsIncluded(n, m);
    assert m.Keys == n.Keys;
  }

  lemma PinsIncluded(m: map<string, string>, n: map<string, string>)
    requires ShasFree(m) && ShasFree(n) && Pins(m) == Pins(n)
    ensures forall url :: url in m ==> url in n && n[url] == m[url]
  {
    forall url | url in m ensures url in n && n[url] == m[url] {
      var p := Pin(url, m[url]);
      PinsAre(m, m.Keys, p);
      PinsAre(n, n.Keys, p);
      assert PinIn(m, m.Keys, p) && PinIn(n, n.Keys, p);
      var other :| other in n && p == Pin(other, n[other]);
      CutLastUnique(url, other, '@', m[url], n[other]);
    }
  }

  // ----- the preimage

  /** Every item after its separator. */
  function Each(sep: char, items: seq<string>): string {
    if items == [] then "" else [sep] + items[0] + Each(sep, items[1..])
  }

  function Bytes(digest: string, setup: seq<string>, pins: seq<string>, tail: string): string {
    digest + Each(STEP, setup) + Each(PIN, pins) + [END] + tail
  }

  ghost function Ordered(bag: multiset<string>): (r: seq<string>)
    ensures Sorted(r) && multiset(r) == bag
  {
    BagSorts(bag);
    var r :| Sorted(r) && multiset(r) == bag;
    r
  }

  lemma {:induction false} BagSorts(bag: multiset<string>)
    ensures exists r :: Sorted(r) && multiset(r) == bag
    decreases |bag|
  {
    if bag == multiset{} {
      var none: seq<string> := [];
      assert Sorted(none) && multiset(none) == bag;
    } else {
      var x :| x in bag;
      BagSorts(bag - multiset{x});
      var r :| Sorted(r) && multiset(r) == bag - multiset{x};
      InsertBag(r, x);
      assert Sorted(Insert(r, x)) && multiset(Insert(r, x)) == bag;
    }
  }

  /** What CacheKey hashes, told without the order of steps or of map iteration. */
  ghost function Preimage(r: Request): string {
    Bytes(r.imageDigest, Ordered(multiset(r.setupSteps)), Ordered(Pins(r.repoPins)), r.builderVersion + r.basePatchLevel)
  }

  ghost function Key(hash: string -> string, r: Request): string {
    "snap-" + hash(Preimage(r))
  }

  /** The layout of the preimage, by an instance. */
  lemma KeyExample(hash: string -> string)
    ensures Key(hash, Request("d", ["make"], map["u" := "s"], "v", "p")) ==
      "snap-" + hash("d" + [STEP] + "make" + [PIN] + "u@s" + [END] + "vp")
  {
    var pins := map["u" := "s"];
    SortedUnique(Ordered(multiset(["make"])), ["make"]);
    assert "u" in pins && pins.Keys == {"u"};
    var first := PinsFirst(pins, pins.Keys);
    assert first == "u" && {"u"} - {first} == {} && Pin("u", "s") == "u@s";
    assert Pins(pins) == multiset(["u@s"]);
    SortedUnique(Ordered(multiset(["u@s"])), ["u@s"]);
    assert Each(STEP, ["make"]) == [STEP] + "make" && Each(PIN, ["u@s"]) == [PIN] + "u@s";
    assert "v" + "p" == "vp";
    assert Bytes("d", ["make"], ["u@s"], "vp") == "d" + [STEP] + "make" + [PIN] + "u@s" + [END] + "vp";
  }

  lemma {:induction false} EachPush(sep: char, items: seq<string>, x: string)
    ensures Each(sep, items + [x]) == Each(sep, items) + [sep] + x
  {
    if items == [] {
      assert items + [x] == [x];
      assert Each(sep, [x][1..]) == "";
      assert "" + [sep] + x == [sep] + x + "";
    } else {
      EachPush(sep, items[1..], x);
      assert (items + [x])[1..] == items[1..] + [x];
      assert [sep] + items[0] + (Each(sep, items[1..]) + [sep] + x) == [sep] + items[0] + Each(sep, items[1..]) + [sep] + x;
    }
  }

  /** The range over the pin map, in any order. */
  method CollectPins(m: map<string, string>) returns (pins: seq<string>)
    ensures multiset(pins) == Pins(m)
  {
    pins := [];
    var left := m.Keys;
    while left != {}
      invariant left <= m.Keys && multiset(pins) + PinsOf(m, left) == Pins(m)
      decreases |left|
    {
      var url :| url in left;
      PinsRemove(m, left, url);
      pins := pins + [Pin(url, m[url])];
      left := left - {url};
    }
  }

  /** Writes every item after its separator. */
  method Feed(fed: string, sep: char, items: seq<string>) returns (r: string)
    ensures r == fed + Each(sep, items)
  {
    r := fed;
    for i := 0 to |items|
      invariant r == fed + Each(sep, items[..i])
    {
      EachPush(sep, items[..i], items[i]);
      assert items[..i + 1] == items[..i] + [items[i]];
      r := r + [sep];
      r := r + items[i];
    }
    assert items[..|items|] == items;
  }

  /** CacheKey: two sorts, a range over a map in any order, and a hash fed piece by piece. */
  method CacheKey(hash: string -> string, r: Request) returns (key: string)
    ensures key == Key(hash, r)
  {
    var setup := Sort(r.setupSteps);
    SortedUnique(setup, Ordered(multiset(r.setupSteps)));
    var pins := CollectPins(r.repoPins);
    pins := Sort(pins);
    SortedUnique(pins, Ordered(Pins(r.repoPins)));
    var fed := Feed(r.imageDigest, STEP, setup);
    fed := Feed(fed, PIN, pins);
    fed := fed + [END];
    fed := fed + r.builderVersion;
    fed := fed + r.basePatchLevel;
    assert fed == Preimage(r);
    key := "snap-" + hash(fed);
  }

  // ----- when two requests share a key

  ghost predicate FreeAll(items: seq<string>, c: char) {
    forall i :: 0 <= i < |items| ==> Free(items[i], c)
  }

  lemma {:induction false} EachFree(sep: char, items: seq<string>, c: char)
    requires FreeAll(items, c) && c != sep
    ensures Free(Each(sep, items), c)
  {
    if items != [] {
      assert FreeAll(items[1..], c);
      EachFree(sep, items[1..], c);
    }
  }

  lemma EachEmpty(sep: char, h: string, items: seq<string>)
    requires Free(h, sep)
    ensures Free(h + Each(sep, items), sep) <==> items == []
  {
    if items != [] {
      assert Each(sep, items)[0] == sep;
    }
  }

  /** A head and separated items, all free of the separator, are told apart. */
  lemma {:induction false} EachUnique(sep: char, h: string, items: seq<string>, h': string, items': seq<string>)
    requires Free(h, sep) && Free(h', sep) && FreeAll(items, sep) && FreeAll(items', sep)
    requires h + Each(sep, items) == h' + Each(sep, items')
    ensures h == h' && items == items'
    decreases |items|
  {
    EachEmpty(sep, h, items);
    EachEmpty(sep, h', items');
    if items == [] {
      assert h + "" == h && h' + "" == h';
    } else {
      var rest, rest' := items[0] + Each(sep, items[1..]), items'[0] + Each(sep, items'[1..]);
      assert h + Each(sep, items) == h + [sep] + rest;
      assert h' + Each(sep, items') == h' + [sep] + rest';
      CutUnique(h, h', sep, rest, rest');
      EachUnique(sep, items[0], items[1..], items'[0], items'[1..]);
      assert items == [items[0]] + items[1..] && items' == [items'[0]] + items'[1..];
    }
  }

  ghost predicate Lacks(r: Request, c: char) {
    && Free(r.imageDigest, c) && FreeAll(r.setupSteps, c)
    && forall url :: url in r.repoPins ==> Free(url, c) && Free(r.repoPins[url], c)
  }

  /** Digest, steps and pins hold none of the three separators, and no SHA holds '@'. */
  ghost predicate Plain(r: Request) {
    ShasFree(r.repoPins) && Lacks(r, STEP) && Lacks(r, PIN) && Lacks(r, END)
  }

  lemma OrderedFree(r: Request, c: char)
    requires Lacks(r, c) && c != '@'
    ensures FreeAll(Ordered(multiset(r.setupSteps)), c) && FreeAll(Ordered(Pins(r.repoPins)), c)
  {
    var setup, pins := Ordered(multiset(r.setupSteps)), Ordered(Pins(r.repoPins));
    forall i | 0 <= i < |setup| ensures Free(setup[i], c) {
      assert setup[i] in multiset(setup);
      var j :| 0 <= j < |r.setupSteps| && r.setupSteps[j] == setup[i];
      assert FreeAll(r.setupSteps, c);
    }
    forall i | 0 <= i < |pins| ensures Free(pins[i], c) {
      assert pins[i] in multiset(pins);
      PinsAre(r.repoPins, r.repoPins.Keys, pins[i]);
      var url :| url in r.repoPins && pins[i] == Pin(url, r.repoPins[url]);
      assert Free(url, c) && Free(r.repoPins[url], c);
    }
    assert FreeAll(setup, c) && FreeAll(pins, c);
  }

  /** Head, steps and pins can be read back from the bytes. */
  lemma BytesUnique(d: string, s: seq<string>, p: seq<string>, x: string, d': string, s': seq<string>,
                    p': seq<string>, x': string)
    requires Bytes(d, s, p, x) == Bytes(d', s', p', x')
    requires forall c :: c in {STEP, PIN, END} ==> Free(d, c) && FreeAll(s, c) && FreeAll(p, c)
    requires forall c :: c in {STEP, PIN, END} ==> Free(d', c) && FreeAll(s', c) && FreeAll(p', c)
    ensures d == d' && s == s' && p == p' && x == x'
  {
    assert STEP in {STEP, PIN, END} && PIN in {STEP, PIN, END} && END in {STEP, PIN, END};
    EachFree(STEP, s, PIN);
    EachFree(STEP, s', PIN);
    EachFree(STEP, s, END);
    EachFree(STEP, s', END);
    EachFree(PIN, p, END);
    EachFree(PIN, p', END);
    CutUnique(d + Each(STEP, s) + Each(PIN, p), d' + Each(STEP, s') + Each(PIN, p'), END, x, x');
    EachUnique(PIN, d + Each(STEP, s), p, d' + Each(STEP, s'), p');
    EachUnique(STEP, d, s, d', s');
  }

  /** The same build inputs, but for the order of the steps and for where the builder version ends
      and the patch level begins. */
  ghost predicate SameInputs(a: Request, b: Request) {
    && a.imageDigest == b.imageDigest
    && multiset(a.setupSteps) == multiset(b.setupSteps)
    && a.repoPins == b.repoPins
    && a.builderVersion + a.basePatchLevel == b.builderVersion + b.basePatchLevel
  }

  /** Two plain requests have the same preimage exactly if they have the same inputs up to step
      order and the border between builder version and patch level. */
  lemma SamePreimageIff(a: Request, b: Request)
    requires Plain(a) && Plain(b)
    ensures Preimage(a) == Preimage(b) <==> SameInputs(a, b)
  {
    if Preimage(a) == Preimage(b) {
      forall c | c in {STEP, PIN, END}
        ensures && FreeAll(Ordered(multiset(a.setupSteps)), c) && FreeAll(Ordered(Pins(a.repoPins)), c)
                && FreeAll(Ordered(multiset(b.setupSteps)), c) && FreeAll(Ordered(Pins(b.repoPins)), c)
      {
        OrderedFree(a, c);
        OrderedFree(b, c);
      }
      BytesUnique(a.imageDigest, Ordered(multiset(a.setupSteps)), Ordered(Pins(a.repoPins)),
                  a.builderVersion + a.basePatchLevel,
                  b.imageDigest, Ordered(multiset(b.setupSteps)), Ordered(Pins(b.repoPins)),
                  b.builderVersion + b.basePatchLevel);
      PinsInjective(a.repoPins, b.repoPins);
    }
  }

  /** So plain requests share a key exactly if they have the same inputs in that sense, unless the
      hash has the same value on two different preimages. */
  lemma SameKeyIff(hash: string -> string, a: Request, b: Request)
    requires Plain(a) && Plain(b)
    requires hash(Preimage(a)) == hash(Preimage(b)) ==> Preimage(a) == Preimage(b)
    ensures Key(hash, a) == Key(hash, b) <==> SameInputs(a, b)
  {
    SamePreimageIff(a, b);
    assert Key(hash, a)[5..] == hash(Preimage(a)) && Key(hash, b)[5..] == hash(Preimage(b));
  }

  /** The key is blind to the order of the steps, although the build runs them in order, and to a
      shift of text between builder version and patch level. */
  lemma KeyIgnores(hash: string -> string, r: Request, steps: seq<string>, i: nat)
    requires multiset(steps) == multiset(r.setupSteps) && i <= |r.builderVersion|
    ensures Key(hash, r.(setupSteps := steps)) == Key(hash, r)
    ensures Key(hash, r.(builderVersion := r.builderVersion[..i], basePatchLevel := r.builderVersion[i..] + r.basePatchLevel))
         == Key(hash, r)
  {
    var v := r.builderVersion;
    assert v[..i] + (v[i..] + r.basePatchLevel) == v + r.basePatchLevel;
  }
}
