/** From session end to resume: which diffs come back. */
module SessionLife {
  import opened Wrappers
  import opened Text
  import opened BlobStore
  import opened StopHook
  import opened SessionResume

  /** Bodies arrive whole, however they are cut into chunks. */
  ghost predicate Whole(arrives: string -> seq<string>) {
    forall d :: Concat(arrives(d)) == d
  }

  /** The bucket and session id can be read back from a reference. */
  ghost predicate Readable(bucket: string, session: string) {
    NoSpace(bucket) && Free(bucket, '/') && NoSpace(session)
  }

  lemma RefReadable(bucket: string, session: string, origin: string)
    requires Readable(bucket, session)
    ensures Parse(RefOf(At(bucket, session, origin))) == Some(At(bucket, session, origin))
  {
    KeyNoSpace(session, origin);
    ParseUndoesRefIff(At(bucket, session, origin));
  }

  /** The same blob, by a failed push. */
  predicate Same(repos: seq<RepoWork>, pushes: seq<Push>, i: nat, j: nat)
    requires i < |repos| && j < |repos| == |pushes|
  {
    pushes[j].Failed? && Sanitized(repos[j].origin) == Sanitized(repos[i].origin)
  }

  /** The last uncommitted repository whose blob has the key of repository i's. */
  function LastSame(repos: seq<RepoWork>, pushes: seq<Push>, i: nat): (j: nat)
    requires i < |repos| == |pushes| && pushes[i].Failed?
    ensures i <= j < |repos| && Same(repos, pushes, i, j)
    ensures forall l :: j < l < |repos| ==> !Same(repos, pushes, i, l)
  {
    LastSameFrom(repos, pushes, i, |repos|)
  }

  function LastSameFrom(repos: seq<RepoWork>, pushes: seq<Push>, i: nat, n: nat): (j: nat)
    requires i < n <= |repos| == |pushes| && pushes[i].Failed?
    ensures i <= j < n && Same(repos, pushes, i, j)
    ensures forall l :: j < l < n ==> !Same(repos, pushes, i, l)
  {
    if Same(repos, pushes, i, n - 1) then n - 1 else LastSameFrom(repos, pushes, i, n - 1)
  }

  lemma {:induction false} LastWins(objects: Objects, bucket: string, session: string, repos: seq<RepoWork>,
                                    pushes: seq<Push>, j: nat, n: nat)
    requires j < n <= |repos| == |pushes| && pushes[j].Failed?
    requires forall l :: j < l < n ==> !Same(repos, pushes, j, l)
    ensures var u := Uploaded(objects, bucket, session, repos[..n], pushes[..n]);
      At(bucket, session, repos[j].origin) in u && u[At(bucket, session, repos[j].origin)] == repos[j].diff
    decreases n
  {
    UploadedNext(objects, bucket, session, repos, pushes, n - 1);
    if j < n - 1 {
      LastWins(objects, bucket, session, repos, pushes, j, n - 1);
      BlobKeyIff(session, repos[n - 1].origin, session, repos[j].origin);
      assert !Same(repos, pushes, j, n - 1);
    }
  }

  /** What the reference of repository i fetches from the blobs the hook left. */
  function Recovered(objects: Objects, bucket: string, session: string, repos: seq<RepoWork>, pushes: seq<Push>,
                     arrives: string -> seq<string>, i: nat): Option<string>
    requires i < |repos| == |pushes|
  {
    var ref := StateOf(bucket, session, repos[i], pushes[i]).diffRef;
    Fetched(Uploaded(objects, bucket, session, repos, pushes), arrives, ref)
  }

  /** The blob behind a repository's reference is that of the last look-alike. */
  lemma FetchesLastSame(objects: Objects, bucket: string, session: string, repos: seq<RepoWork>, pushes: seq<Push>,
                        arrives: string -> seq<string>, i: nat)
    requires i < |repos| == |pushes| && pushes[i].Failed? && Whole(arrives) && Readable(bucket, session)
    ensures Recovered(objects, bucket, session, repos, pushes, arrives, i) == Some(repos[LastSame(repos, pushes, i)].diff)
  {
    var j := LastSame(repos, pushes, i);
    assert repos[..|repos|] == repos && pushes[..|repos|] == pushes;
    forall l | j < l < |repos| ensures !Same(repos, pushes, j, l) {
      assert !Same(repos, pushes, i, l);
    }
    LastWins(objects, bucket, session, repos, pushes, j, |repos|);
    BlobKeyIff(session, repos[i].origin, session, repos[j].origin);
    RefReadable(bucket, session, repos[i].origin);
    assert Concat(arrives(repos[j].diff)) == repos[j].diff;
  }

  /** An uncommitted repository's reference fetches its own diff exactly if the last uncommitted
      repository whose origin looks like its own, once sanitized, has the same diff: so always when
      no two origins look alike. */
  lemma DiffRecoveredIff(objects: Objects, bucket: string, session: string, repos: seq<RepoWork>, pushes: seq<Push>,
                         arrives: string -> seq<string>, i: nat)
    requires i < |repos| == |pushes| && pushes[i].Failed? && Whole(arrives) && Readable(bucket, session)
    ensures
      Recovered(objects, bucket, session, repos, pushes, arrives, i) == Some(repos[i].diff)
      <==> repos[LastSame(repos, pushes, i)].diff == repos[i].diff
    ensures (forall j :: i < j < |repos| ==> !Same(repos, pushes, i, j)) ==> LastSame(repos, pushes, i) == i
  {
    FetchesLastSame(objects, bucket, session, repos, pushes, arrives, i);
  }

  /** Two look-alike origins that fail with different diffs: the first diff is lost. */
  lemma LookAlikeLost(objects: Objects, bucket: string, session: string, arrives: string -> seq<string>,
                      failure: Failure)
    requires Whole(arrives) && Readable(bucket, session)
    ensures
      var repos := [RepoWork("a/b", "main", "1"), RepoWork("a:b", "main", "2")];
      var pushes := [Failed(failure, false), Failed(failure, false)];
      Recovered(objects, bucket, session, repos, pushes, arrives, 0) == Some("2")
  {
    var repos := [RepoWork("a/b", "main", "1"), RepoWork("a:b", "main", "2")];
    var pushes := [Failed(failure, false), Failed(failure, false)];
    assert Sanitized("a/b") == "a-b" == Sanitized("a:b");
    assert Same(repos, pushes, 0, 1);
    FetchesLastSame(objects, bucket, session, repos, pushes, arrives, 0);
  }

  // ----- the whole way

  /** The warnings a resumed session should see: one per uncommitted repository, in order. */
  function Expected(repos: seq<RepoWork>, pushes: seq<Push>): seq<Warning>
    requires |repos| == |pushes|
  {
    if repos == [] then []
    else
      var n := |repos| - 1;
      Expected(repos[..n], pushes[..n]) + if pushes[n].Failed? then [UncommittedChanges(repos[n].branch, repos[n].origin)] else []
  }

  /** The diff of the last uncommitted repository. */
  function LastUncommitted(repos: seq<RepoWork>, pushes: seq<Push>): Option<string>
    requires |repos| == |pushes|
  {
    if repos == [] then None
    else
      var n := |repos| - 1;
      if pushes[n].Failed? then Some(repos[n].diff) else LastUncommitted(repos[..n], pushes[..n])
  }

  /** Every uncommitted repository of the list can be fetched. */
  ghost predicate Fetchable(fetch: Fetcher, bucket: string, session: string, repos: seq<RepoWork>, pushes: seq<Push>)
    requires |repos| == |pushes|
  {
    forall i :: 0 <= i < |repos| && pushes[i].Failed? ==> fetch(RefOf(At(bucket, session, repos[i].origin))).Some?
  }

  lemma {:induction false} NotesExpected(gs: seq<GitState>, fetch: Fetcher, bucket: string, session: string,
      repos: seq<RepoWork>, pushes: seq<Push>)
    requires |gs| == |repos| == |pushes| && Lists(gs, bucket, session, repos, pushes)
    requires Fetchable(fetch, bucket, session, repos, pushes)
    ensures DiffNotes(gs, fetch) == Expected(repos, pushes)
    decreases |gs|
  {
    if gs != [] {
      var n := |gs| - 1;
      NotesExpected(gs[..n], fetch, bucket, session, repos[..n], pushes[..n]);
      assert gs[n] == StateOf(bucket, session, repos[n], pushes[n]);
    }
  }

  /** The last fetched diff is that of the last uncommitted repository. */
  lemma {:induction false} LastDiffIs(gs: seq<GitState>, fetch: Fetcher, bucket: string, session: string,
                                      repos: seq<RepoWork>, pushes: seq<Push>, n: nat)
    requires n <= |gs| == |repos| == |pushes| && Lists(gs, bucket, session, repos, pushes)
    requires forall i :: n <= i < |repos| ==> !pushes[i].Failed?
    requires forall i :: 0 <= i < n && pushes[i].Failed? && (forall l :: i < l < n ==> !pushes[l].Failed?) ==>
      fetch(RefOf(At(bucket, session, repos[i].origin))) == Some(repos[i].diff)
    ensures LastDiff(gs[..n], fetch) == LastUncommitted(repos[..n], pushes[..n])
    decreases n
  {
    if n > 0 {
      var m := n - 1;
      assert gs[..n][..m] == gs[..m] && repos[..n][..m] == repos[..m] && pushes[..n][..m] == pushes[..m];
      assert gs[n - 1] == StateOf(bucket, session, repos[n - 1], pushes[n - 1]);
      if !pushes[n - 1].Failed? {
        LastDiffIs(gs, fetch, bucket, session, repos, pushes, n - 1);
      }
    }
  }

  lemma LastFetches(objects: Objects, bucket: string, session: string, repos: seq<RepoWork>, pushes: seq<Push>,
                    arrives: string -> seq<string>, i: nat)
    requires i < |repos| == |pushes| && pushes[i].Failed? && Whole(arrives) && Readable(bucket, session)
    requires forall l :: i < l < |repos| ==> !pushes[l].Failed?
    ensures Fetched(Uploaded(objects, bucket, session, repos, pushes), arrives, RefOf(At(bucket, session, repos[i].origin)))
         == Some(repos[i].diff)
  {
    FetchesLastSame(objects, bucket, session, repos, pushes, arrives, i);
    assert LastSame(repos, pushes, i) == i;
  }

  lemma AllFetchable(objects: Objects, bucket: string, session: string, repos: seq<RepoWork>, pushes: seq<Push>,
                     arrives: string -> seq<string>, fetch: Fetcher)
    requires |repos| == |pushes| && Whole(arrives) && Readable(bucket, session)
    requires fetch == (ref => Fetched(Uploaded(objects, bucket, session, repos, pushes), arrives, ref))
    ensures Fetchable(fetch, bucket, session, repos, pushes)
  {
    forall i | 0 <= i < |repos| && pushes[i].Failed? ensures fetch(RefOf(At(bucket, session, repos[i].origin))).Some? {
      FetchesLastSame(objects, bucket, session, repos, pushes, arrives, i);
    }
  }

  /** The same of any list of states and the uploads that go with it. */
  lemma ListRecovers(gs: seq<GitState>, objects: Objects, bucket: string, session: string,
                     repos: seq<RepoWork>, pushes: seq<Push>, arrives: string -> seq<string>)
    requires |gs| == |repos| == |pushes| && Lists(gs, bucket, session, repos, pushes)
    requires Whole(arrives) && Readable(bucket, session)
    ensures
      var left := Uploaded(objects, bucket, session, repos, pushes);
      var fetch := ref => Fetched(left, arrives, ref);
      DiffNotes(gs, fetch) == Expected(repos, pushes) && LastDiff(gs, fetch) == LastUncommitted(repos, pushes)
  {
    var left := Uploaded(objects, bucket, session, repos, pushes);
    var fetch := ref => Fetched(left, arrives, ref);
    AllFetchable(objects, bucket, session, repos, pushes, arrives, fetch);
    NotesExpected(gs, fetch, bucket, session, repos, pushes);
    var n := |gs|;
    forall i | 0 <= i < n && pushes[i].Failed? && (forall l :: i < l < n ==> !pushes[l].Failed?)
      ensures fetch(RefOf(At(bucket, session, repos[i].origin))) == Some(repos[i].diff)
    {
      LastFetches(objects, bucket, session, repos, pushes, arrives, i);
    }
    LastDiffIs(gs, fetch, bucket, session, repos, pushes, n);
    assert gs[..n] == gs && repos[..n] == repos && pushes[..n] == pushes;
  }

  /** A manifest returned by the hook, resumed from the blobs the hook left: one warning per
      uncommitted repository listed, in order, and the diff of the last of them; the other diffs
      are fetched and dropped. No condition on how origins look. */
  lemma ResumeRecovers(m: Manifest, in_: Input, pushes: seq<Push>, objects: Objects, bucket: string,
                       arrives: string -> seq<string>)
    requires |pushes| == |in_.repos| && Tells(m, bucket, in_, pushes)
    requires Whole(arrives) && Readable(bucket, in_.sessionId)
    ensures
      var n := Reached(pushes);
      var repos, done := in_.repos[..n], pushes[..n];
      var left := Uploaded(objects, bucket, in_.sessionId, repos, done);
      var fetch := ref => Fetched(left, arrives, ref);
      DiffNotes(m.gitState, fetch) == Expected(repos, done) && LastDiff(m.gitState, fetch) == LastUncommitted(repos, done)
  {
    var n, session := Reached(pushes), in_.sessionId;
    var repos, done := in_.repos[..n], pushes[..n];
    assert Lists(m.gitState, bucket, session, repos, done);
    ListRecovers(m.gitState, objects, bucket, session, repos, done, arrives);
  }

  /** A session ends and is resumed from what the hook left: the resume goes ahead exactly if there is
      a pod, its branch warnings and open pull requests are those of the pushed repositories, and it
      warns of each uncommitted repository the hook got to and has the diff of the last one. */
  method EndAndResume(hook: Hook, in_: Input, pushes: seq<Push>, ups: seq<Reply>, arrives: string -> seq<string>,
                      envKey: string, git: nat -> StatusReply, pod: Option<Pod>)
    returns (ended: Result<Manifest, HookError>, plan: Result<Plan, ResumeError>)
    requires |pushes| == |in_.repos| == |ups|
    requires StopHook.Lawful(hook.codec) && hook.persists
    requires Whole(arrives) && Readable(hook.blobs.bucket, in_.sessionId)
    modifies hook, hook.blobs
    ensures ended.Ok? ==> (plan.Ok? <==> pod.Some?)
    ensures ended.Ok? && pod.Some? ==>
      var n, m := Reached(pushes), ended.value;
      && Tells(m, hook.blobs.bucket, in_, pushes)
      && plan.value.agentVersion == in_.agentVersion && plan.value.environmentKey == envKey
      && plan.value.openPRs == OpenPrs(m.gitState, git)
      && plan.value.warnings == BranchNotes(m.gitState, git) + Expected(in_.repos[..n], pushes[..n])
      && plan.value.recoveryDiff == LastUncommitted(in_.repos[..n], pushes[..n])
  {
    ghost var objects := hook.blobs.objects;
    ended := hook.Run(in_, pushes, ups, true);
    var raw := if (in_.orgId, in_.sessionId) in hook.manifests then hook.manifests[(in_.orgId, in_.sessionId)] else "";
    var left := hook.blobs.objects;
    var resumer := new Resumer(hook.codec, Some(ref => Fetched(left, arrives, ref)), 0);
    plan := resumer.Resume(in_.sessionId, Some((envKey, raw)), git, pod, None);
    if ended.Ok? { ResumeRecovers(ended.value, in_, pushes, objects, hook.blobs.bucket, arrives); }
  }
}
