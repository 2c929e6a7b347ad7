/** Commit before death (internal/stophook/hook.go): push every repository, keep the diff of each
    one that could not be pushed, and emit the session manifest. */
module StopHook {
  import opened Wrappers
  import opened Text
  import opened BlobStore

  // ----- errors

  /** An error; `Wrapping` is one that has Unwrap. */
  datatype Failure = Plain(id: int) | Wrapping(id: int, inner: Option<Failure>)

  const DEADLINE := Plain(0)

  function Chain(error: Option<Failure>): seq<Failure> {
    match error
    case None => []
    case Some(Plain(id)) => [Plain(id)]
    case Some(Wrapping(id, inner)) => [Wrapping(id, inner)] + Chain(inner)
  }

  method ErrorsIs(error: Option<Failure>, target: Failure) returns (r: bool)
    ensures r <==> target in Chain(error)
  {
    var e := error;
    while e.Some?
      invariant target in Chain(e) <==> target in Chain(error)
      decreases e
    {
      if e.value == target {
        assert Chain(e)[0] == target;
        return true;
      }
      if e.value.Plain? {
        return false;
      }
      assert Chain(e) == [e.value] + Chain(e.value.inner);
      e := e.value.inner;
    }
    return false;
  }

  function Unwrapped(error: Option<Failure>, k: nat): Option<Failure>
    decreases k
  {
    if k == 0 || error.None? then error
    else Unwrapped(if error.value.Wrapping? then error.value.inner else None, k - 1)
  }

  ghost predicate LeadsTo(error: Option<Failure>, k: nat, target: Failure) {
    Unwrapped(error, k) == Some(target)
  }

  /** The chain holds an error exactly if unwrapping so and so often leads to it. */
  lemma {:induction false} ChainIs(error: Option<Failure>, target: Failure)
    ensures target in Chain(error) <==> exists k: nat :: LeadsTo(error, k, target)
    decreases error
  {
    if error.Some? {
      assert LeadsTo(error, 0, error.value) && Chain(error)[0] == error.value;
      if error.value.Wrapping? {
        var inner := error.value.inner;
        ChainIs(inner, target);
        assert Chain(error) == [error.value] + Chain(inner);
        assert forall k: nat :: k > 0 && LeadsTo(error, k, target) ==> LeadsTo(inner, k - 1, target);
        assert forall k: nat :: LeadsTo(inner, k, target) ==> LeadsTo(error, k + 1, target);
      } else {
        forall k: nat | k > 0 ensures !LeadsTo(error, k, target) {
          assert Unwrapped(error, k) == Unwrapped(None, k - 1);
        }
      }
    }
  }

  // ----- blob keys

  predicate Kept(c: char) {
    'a' <= c <= 'z' || 'A' <= c <= 'Z' || '0' <= c <= '9' || c == '-' || c == '.'
  }

  function Safe(c: char): char {
    if Kept(c) then c else '-'
  }

  function Sanitized(origin: string): string {
    seq(|origin|, i requires 0 <= i < |origin| => Safe(origin[i]))
  }

  method Sanitize(origin: string) returns (out: string)
    ensures out == Sanitized(origin)
  {
    out := [];
    for i := 0 to |origin|
      invariant |out| == i && forall j :: 0 <= j < i ==> out[j] == Safe(origin[j])
    {
      var c := origin[i];
      if Kept(c) {
        out := out + [c];
      } else {
        out := out + ['-'];
      }
    }
  }

  function BlobKey(session: string, origin: string): string {
    "uncommitted/" + session + "/" + Sanitized(origin) + ".diff"
  }

  /** Two blobs share a key exactly if they are of one session and of origins that look alike once
      sanitized, whatever the session ids. */
  lemma BlobKeyIff(s: string, a: string, t: string, b: string)
    ensures BlobKey(s, a) == BlobKey(t, b) <==> s == t && Sanitized(a) == Sanitized(b)
  {
    if BlobKey(s, a) == BlobKey(t, b) {
      var x, y := Sanitized(a) + ".diff", Sanitized(b) + ".diff";
      assert BlobKey(s, a) == "uncommitted/" + s + ['/'] + x;
      assert BlobKey(t, b) == "uncommitted/" + t + ['/'] + y;
      CutLastUnique("uncommitted/" + s, "uncommitted/" + t, '/', x, y);
      assert ("uncommitted/" + s)[12..] == s && ("uncommitted/" + t)[12..] == t;
      assert x[..|x| - 5] == Sanitized(a) && y[..|y| - 5] == Sanitized(b);
    }
  }

  lemma KeyNoSpace(session: string, origin: string)
    requires NoSpace(session)
    ensures NoSpace(BlobKey(session, origin))
  {
    var x := Sanitized(origin) + ".diff";
    assert NoSpace("uncommitted");
    assert NoSpace(x);
    NoSpaceParts("uncommitted", session);
    assert "uncommitted/" == "uncommitted" + ['/'];
    NoSpaceParts("uncommitted/" + session, x);
    assert BlobKey(session, origin) == "uncommitted/" + session + ['/'] + x;
  }

  // ----- the manifest

  datatype RepoWork = RepoWork(origin: string, branch: string, diff: string)

  /** What CommitAndPush answers; `graceOver` tells whether the grace period is over by then. */
  datatype Push = Pushed(headSha: string, prUrl: string) | Failed(error: Failure, graceOver: bool)

  datatype GitState = GitState(
    repo: string, branch: string, headSha: string, prs: seq<string>, uncommitted: bool, diffRef: string)

  datatype Manifest = Manifest(
    sessionId: string, agentVersion: string, transcriptRef: string, gitState: seq<GitState>, endedReason: string)

  datatype Input = Input(
    orgId: string, sessionId: string, agentVersion: string, transcriptRef: string, endedReason: string, repos: seq<RepoWork>)

  datatype Codec = Codec(marshal: Manifest -> string, unmarshal: string -> Option<Manifest>)

  ghost predicate Lawful(c: Codec) {
    forall m :: c.marshal(m) != "" && c.unmarshal(c.marshal(m)) == Some(m)
  }

  function At(bucket: string, session: string, origin: string): Address {
    Address(bucket, BlobKey(session, origin))
  }

  function StateOf(bucket: string, session: string, work: RepoWork, push: Push): GitState {
    match push
    case Pushed(head, pr) => GitState(work.origin, work.branch, head, if pr != "" then [pr] else [], false, "")
    case Failed(_, _) => GitState(work.origin, work.branch, "", [], true, RefOf(At(bucket, session, work.origin)))
  }

  predicate HitsGrace(push: Push) {
    push.Failed? && (DEADLINE in Chain(Some(push.error)) || push.graceOver)
  }

  /** How many repositories the hook gets to. */
  function Reached(pushes: seq<Push>): (n: nat)
    ensures n <= |pushes|
    ensures n < |pushes| ==> n > 0
    ensures forall i :: 0 <= i < n - 1 ==> !HitsGrace(pushes[i])
    ensures n < |pushes| ==> HitsGrace(pushes[n - 1])
  {
    if pushes == [] then 0
    else if HitsGrace(pushes[0]) then 1
    else 1 + Reached(pushes[1..])
  }

  ghost predicate NoneHits(pushes: seq<Push>, n: nat)
    requires n <= |pushes|
  {
    forall i :: 0 <= i < n ==> !HitsGrace(pushes[i])
  }

  lemma ReachedIs(pushes: seq<Push>, n: nat)
    requires n <= |pushes| && (n > 0 ==> NoneHits(pushes, n - 1))
    requires n == |pushes| || (n > 0 && HitsGrace(pushes[n - 1]))
    ensures n == Reached(pushes)
  {}

  function UploadOne(objects: Objects, bucket: string, session: string, work: RepoWork, push: Push): Objects {
    if push.Failed? then objects[At(bucket, session, work.origin) := work.diff] else objects
  }

  /** The blobs after the uploads for these repositories. */
  function Uploaded(objects: Objects, bucket: string, session: string, repos: seq<RepoWork>, pushes: seq<Push>): Objects
    requires |repos| == |pushes|
  {
    if repos == [] then objects
    else
      var n := |repos| - 1;
      UploadOne(Uploaded(objects, bucket, session, repos[..n], pushes[..n]), bucket, session, repos[n], pushes[n])
  }

  lemma UploadedNext(objects: Objects, bucket: string, session: string, repos: seq<RepoWork>, pushes: seq<Push>, i: nat)
    requires i < |repos| == |pushes|
    ensures Uploaded(objects, bucket, session, repos[..i + 1], pushes[..i + 1])
         == UploadOne(Uploaded(objects, bucket, session, repos[..i], pushes[..i]), bucket, session, repos[i], pushes[i])
  {
    assert repos[..i + 1][..i] == repos[..i] && pushes[..i + 1][..i] == pushes[..i];
  }

  /** The states of the first repositories, none of which hit the grace limit before the last. */
  ghost predicate Lists(states: seq<GitState>, bucket: string, session: string, repos: seq<RepoWork>, pushes: seq<Push>)
    requires |pushes| == |repos|
  {
    |states| <= |repos| && forall i :: 0 <= i < |states| ==> states[i] == StateOf(bucket, session, repos[i], pushes[i])
  }

  lemma ListsNext(states: seq<GitState>, bucket: string, session: string, repos: seq<RepoWork>, pushes: seq<Push>)
    requires |pushes| == |repos| && |states| < |repos| && Lists(states, bucket, session, repos, pushes)
    ensures var i := |states|; Lists(states + [StateOf(bucket, session, repos[i], pushes[i])], bucket, session, repos, pushes)
  {}

  /** The uploads among the first n go through. */
  ghost predicate UploadsOk(configured: bool, pushes: seq<Push>, ups: seq<Reply>, n: nat)
    requires n <= |pushes| == |ups|
  {
    forall i :: 0 <= i < n && pushes[i].Failed? ==> configured && ups[i] == Up
  }

  /** The manifest lists the repositories in order, all of them unless the last one listed hit the
      grace limit; each is pushed, or uncommitted with a reference to its blob. */
  ghost predicate Tells(m: Manifest, bucket: string, in_: Input, pushes: seq<Push>)
    requires |pushes| == |in_.repos|
  {
    && m.sessionId == in_.sessionId && m.agentVersion == in_.agentVersion
    && m.transcriptRef == in_.transcriptRef && m.endedReason == in_.endedReason
    && |m.gitState| == Reached(pushes)
    && Lists(m.gitState, bucket, in_.sessionId, in_.repos, pushes)
  }

  datatype HookError = UploadFailed | SaveFailed

  /** Two minutes, in seconds. */
  const DEFAULT_GRACE := 120

  /** The hook gets to a repository exactly if no push before it failed with a deadline somewhere in
      its error, or with the grace period over. */
  lemma GetsTo(pushes: seq<Push>, i: nat)
    requires i < |pushes|
    ensures i < Reached(pushes) <==>
      forall k :: 0 <= k < i && pushes[k].Failed? ==> !pushes[k].graceOver && DEADLINE !in Chain(Some(pushes[k].error))
  {
    if forall k :: 0 <= k < i ==> !HitsGrace(pushes[k]) {
      ReachedBeyond(pushes, i);
    }
  }

  /** What the manifest says of a repository: what was pushed carries its head and its pull request if
      there is one; what was not is uncommitted and refers to the blob that holds its diff. */
  lemma ManifestSays(m: Manifest, bucket: string, in_: Input, pushes: seq<Push>, i: nat)
    requires |pushes| == |in_.repos| && Tells(m, bucket, in_, pushes) && i < |m.gitState|
    ensures i < |pushes|
    ensures var g, work := m.gitState[i], in_.repos[i];
      && g.repo == work.origin && g.branch == work.branch
      && match pushes[i]
         case Pushed(head, pr) =>
           g.headSha == head && (forall x :: x in g.prs <==> x == pr && pr != "") && |g.prs| <= 1
           && !g.uncommitted && g.diffRef == ""
         case Failed(_, _) =>
           g.headSha == "" && g.prs == [] && g.uncommitted
           && g.diffRef == RefOf(Address(bucket, BlobKey(in_.sessionId, work.origin)))
  {}

  class Hook {
    const codec: Codec
    const blobs: S3
    const persists: bool
    const grace: int
    var manifests: map<(string, string), string>

    constructor (codec: Codec, blobs: S3, persists: bool, grace: int)
      ensures this.codec == codec && this.blobs == blobs && this.persists == persists && manifests == map[]
      ensures this.grace == if grace == 0 then DEFAULT_GRACE else grace
    {
      this.codec, this.blobs, this.persists := codec, blobs, persists;
      this.grace := if grace == 0 then DEFAULT_GRACE else grace;
      manifests := map[];
    }

    /** One repository: pushed, or its diff uploaded. */
    method PushOne(session: string, work: RepoWork, push: Push, up: Reply) returns (state: Option<GitState>, late: bool)
      modifies blobs
      ensures state.Some? <==> (push.Failed? ==> blobs.Configured() && up == Up)
      ensures state.Some? ==> state.value == StateOf(blobs.bucket, session, work, push) && late == HitsGrace(push)
      ensures state.Some? ==> blobs.objects == UploadOne(old(blobs.objects), blobs.bucket, session, work, push)
    {
      match push
      case Pushed(head, pr) =>
        return Some(GitState(work.origin, work.branch, head, if pr != "" then [pr] else [], false, "")), false;
      case Failed(error, graceOver) =>
        var deadline := ErrorsIs(Some(error), DEADLINE);
        var name := Sanitize(work.origin);
        var ref := blobs.Upload("uncommitted/" + session + "/" + name + ".diff", work.diff, up);
        if ref.None? {
          return None, false;
        }
        return Some(GitState(work.origin, work.branch, "", [], true, ref.value)), deadline || graceOver;
    }

    method PushAll(session: string, repos: seq<RepoWork>, pushes: seq<Push>, ups: seq<Reply>)
      returns (states: Option<seq<GitState>>)
      requires |pushes| == |repos| == |ups|
      modifies blobs
      ensures states.Some? <==> UploadsOk(blobs.Configured(), pushes, ups, Reached(pushes))
      ensures states.Some? ==> |states.value| == Reached(pushes) && Lists(states.value, blobs.bucket, session, repos, pushes)
      ensures states.Some? ==> var n := Reached(pushes);
        blobs.objects == Uploaded(old(blobs.objects), blobs.bucket, session, repos[..n], pushes[..n])
    {
      ghost var objects, configured := blobs.objects, blobs.Configured();
      var done: seq<GitState> := [];
      for i := 0 to |repos|
        invariant |done| == i && Lists(done, blobs.bucket, session, repos, pushes)
        invariant UploadsOk(configured, pushes, ups, i) && NoneHits(pushes, i)
        invariant blobs.objects == Uploaded(objects, blobs.bucket, session, repos[..i], pushes[..i])
      {
        ReachedBeyond(pushes, i);
        UploadedNext(objects, blobs.bucket, session, repos, pushes, i);
        ListsNext(done, blobs.bucket, session, repos, pushes);
        var state, late := PushOne(session, repos[i], pushes[i], ups[i]);
        if state.None? {
          return None;
        }
        done := done + [state.value];
        assert UploadsOk(configured, pushes, ups, i + 1);
        if late {
          ReachedIs(pushes, i + 1);
          return Some(done);
        }
      }
      ReachedIs(pushes, |repos|);
      return Some(done);
    }

    /** `pushes` is what the pusher answers, `ups` how uploads go, `saves` whether the
        manifest can be saved. */
    method Run(in_: Input, pushes: seq<Push>, ups: seq<Reply>, saves: bool) returns (r: Result<Manifest, HookError>)
      requires |pushes| == |in_.repos| == |ups|
      modifies this, blobs
      ensures r.Ok? <==> UploadsOk(blobs.Configured(), pushes, ups, Reached(pushes)) && (persists ==> saves)
      ensures r.Ok? ==> Tells(r.value, blobs.bucket, in_, pushes)
      ensures r.Ok? ==> var n := Reached(pushes);
        blobs.objects == Uploaded(old(blobs.objects), blobs.bucket, in_.sessionId, in_.repos[..n], pushes[..n])
      ensures manifests == if r.Ok? && persists then old(manifests)[(in_.orgId, in_.sessionId) := codec.marshal(r.value)]
                           else old(manifests)
    {
      var states := PushAll(in_.sessionId, in_.repos, pushes, ups);
      if states.None? {
        return Err(UploadFailed);
      }
      r := Emit(in_, states.value, saves);
    }

    method Emit(in_: Input, states: seq<GitState>, saves: bool) returns (r: Result<Manifest, HookError>)
      modifies `manifests
      ensures r == (if persists && !saves then Err(SaveFailed)
                    else Ok(Manifest(in_.sessionId, in_.agentVersion, in_.transcriptRef, states, in_.endedReason)))
      ensures manifests == if r.Ok? && persists then old(manifests)[(in_.orgId, in_.sessionId) := codec.marshal(r.value)]
                           else old(manifests)
    {
      var m := Manifest(in_.sessionId, in_.agentVersion, in_.transcriptRef, states, in_.endedReason);
      if persists {
        if !saves {
          return Err(SaveFailed);
        }
        manifests := manifests[(in_.orgId, in_.sessionId) := codec.marshal(m)];
      }
      return Ok(m);
    }
  }

  lemma {:induction false} ReachedBeyond(pushes: seq<Push>, i: nat)
    requires i < |pushes| && NoneHits(pushes, i)
    ensures i < Reached(pushes)
    decreases i
  {
    if i > 0 { ReachedBeyond(pushes[1..], i - 1); }
  }
}
