/** Session resume (internal/resume/resume.go), and what it recovers of what the stop hook kept. */
module SessionResume {
  import opened Wrappers
  import opened StopHook

  datatype Status = Exists | Gone | Merged
  datatype StatusReply = Checked(status: Status) | CheckFailed

  datatype Warning =
    | BranchCheckFailed(branch: string, repo: string)
    | BranchGone(branch: string, repo: string)
    | BranchMerged(branch: string, prs: seq<string>)
    | DiffUnavailable(ref: string)
    | UncommittedChanges(branch: string, repo: string)

  datatype Message = Message(role: string, content: string)

  /** What the transcript reader answers; the tail depends on how much is asked for. */
  datatype Transcript = Transcript(summary: Option<string>, tail: int -> Option<seq<Message>>)

  datatype Pod = Pod(id: string, warm: bool)

  datatype Plan = Plan(
    sessionId: string, podId: string, environmentKey: string, warmHit: bool, agentVersion: string,
    messages: seq<Message>, summary: string, openPRs: seq<string>, recoveryDiff: Option<string>, warnings: seq<Warning>)

  datatype ResumeError = LookupFailed | NoManifest | BadManifest | ForkFailed

  // ----- branches

  function BranchNote(g: GitState, reply: StatusReply): seq<Warning> {
    if g.headSha == "" then []
    else match reply
      case CheckFailed => [BranchCheckFailed(g.branch, g.repo)]
      case Checked(Gone) => [BranchGone(g.branch, g.repo)]
      case Checked(Merged) => [BranchMerged(g.branch, g.prs)]
      case Checked(Exists) => []
  }

  function BranchPrs(g: GitState, reply: StatusReply): seq<string> {
    if g.headSha == "" || reply == CheckFailed || reply == Checked(Gone) then [] else g.prs
  }

  function BranchNotes(gs: seq<GitState>, git: nat -> StatusReply): seq<Warning> {
    if gs == [] then [] else var n := |gs| - 1; BranchNotes(gs[..n], git) + BranchNote(gs[n], git(n))
  }

  function OpenPrs(gs: seq<GitState>, git: nat -> StatusReply): seq<string> {
    if gs == [] then [] else var n := |gs| - 1; OpenPrs(gs[..n], git) + BranchPrs(gs[n], git(n))
  }

  /** A branch that was pushed is checked. */
  predicate Is(gs: seq<GitState>, git: nat -> StatusReply, i: nat, reply: StatusReply)
    requires i < |gs|
  {
    gs[i].headSha != "" && git(i) == reply
  }

  /** The warning that branch i gives, if it is this one. */
  predicate Gives(gs: seq<GitState>, git: nat -> StatusReply, i: nat, w: Warning)
    requires i < |gs|
  {
    || (Is(gs, git, i, CheckFailed) && w == BranchCheckFailed(gs[i].branch, gs[i].repo))
    || (Is(gs, git, i, Checked(Gone)) && w == BranchGone(gs[i].branch, gs[i].repo))
    || (Is(gs, git, i, Checked(Merged)) && w == BranchMerged(gs[i].branch, gs[i].prs))
  }

  lemma NoteGives(gs: seq<GitState>, git: nat -> StatusReply, i: nat, w: Warning)
    requires i < |gs|
    ensures w in BranchNote(gs[i], git(i)) <==> Gives(gs, git, i, w)
  {}

  /** Which warnings a resume gives about branches: of pushed ones only, one for each whose check
      fails, that is gone, or that is merged. */
  lemma {:induction false} BranchWarnings(gs: seq<GitState>, git: nat -> StatusReply, w: Warning)
    ensures w in BranchNotes(gs, git) <==> exists i :: 0 <= i < |gs| && Gives(gs, git, i, w)
    decreases |gs|
  {
    if gs != [] {
      var n := |gs| - 1;
      BranchWarnings(gs[..n], git, w);
      NoteGives(gs, git, n, w);
      assert forall i :: 0 <= i < n ==> (Gives(gs[..n], git, i, w) <==> Gives(gs, git, i, w));
    }
  }

  /** The open pull requests are those of the pushed branches that exist or are merged. */
  lemma {:induction false} PrsAreOpen(gs: seq<GitState>, git: nat -> StatusReply, pr: string)
    ensures pr in OpenPrs(gs, git) <==>
      exists i :: 0 <= i < |gs| && pr in gs[i].prs && (Is(gs, git, i, Checked(Exists)) || Is(gs, git, i, Checked(Merged)))
    decreases |gs|
  {
    if gs != [] {
      var n := |gs| - 1;
      PrsAreOpen(gs[..n], git, pr);
      assert git(n).Checked? ==> var s := git(n).status; s == Exists || s == Gone || s == Merged;
      assert pr in BranchPrs(gs[n], git(n)) <==>
        pr in gs[n].prs && (Is(gs, git, n, Checked(Exists)) || Is(gs, git, n, Checked(Merged)));
      assert forall i, reply :: 0 <= i < n ==> (Is(gs[..n], git, i, reply) <==> Is(gs, git, i, reply));
    }
  }

  /** Warnings come in the order of the branches, one at most for each. */
  lemma {:induction false} WarningsInOrder(gs: seq<GitState>, git: nat -> StatusReply, k: nat)
    requires k <= |gs|
    ensures BranchNotes(gs[..k], git) <= BranchNotes(gs, git)
    ensures |BranchNotes(gs, git)| <= |BranchNotes(gs[..k], git)| + |gs| - k
    decreases |gs|
  {
    if k < |gs| {
      var n := |gs| - 1;
      WarningsInOrder(gs[..n], git, k);
      assert gs[..n][..k] == gs[..k];
      assert |BranchNote(gs[n], git(n))| <= 1;
    } else {
      assert gs[..k] == gs;
    }
  }

  /** So do pull requests. */
  lemma {:induction false} PrsInOrder(gs: seq<GitState>, git: nat -> StatusReply, k: nat)
    requires k <= |gs|
    ensures OpenPrs(gs[..k], git) <= OpenPrs(gs, git)
    decreases |gs|
  {
    if k < |gs| {
      var n := |gs| - 1;
      PrsInOrder(gs[..n], git, k);
      assert gs[..n][..k] == gs[..k];
    } else {
      assert gs[..k] == gs;
    }
  }

  method ResolveBranches(gs: seq<GitState>, git: nat -> StatusReply) returns (warnings: seq<Warning>, prs: seq<string>)
    ensures warnings == BranchNotes(gs, git) && prs == OpenPrs(gs, git)
  {
    warnings, prs := [], [];
    for i := 0 to |gs|
      invariant warnings == BranchNotes(gs[..i], git) && prs == OpenPrs(gs[..i], git)
    {
      var g := gs[i];
      assert gs[..i + 1][..i] == gs[..i];
      if g.headSha != "" {
        match git(i) {
          case CheckFailed => warnings := warnings + [BranchCheckFailed(g.branch, g.repo)];
          case Checked(Gone) => warnings := warnings + [BranchGone(g.branch, g.repo)];
          case Checked(Merged) =>
            warnings := warnings + [BranchMerged(g.branch, g.prs)];
            prs := prs + g.prs;
          case Checked(Exists) => prs := prs + g.prs;
        }
      }
    }
    assert gs[..|gs|] == gs;
  }

  // ----- recovery diffs

  type Fetcher = string -> Option<string>

  predicate HasDiff(g: GitState) {
    g.uncommitted && g.diffRef != ""
  }

  function DiffNote(g: GitState, fetch: Fetcher): seq<Warning> {
    if !HasDiff(g) then []
    else if fetch(g.diffRef).None? then [DiffUnavailable(g.diffRef)]
    else [UncommittedChanges(g.branch, g.repo)]
  }

  function DiffNotes(gs: seq<GitState>, fetch: Fetcher): seq<Warning> {
    if gs == [] then [] else var n := |gs| - 1; DiffNotes(gs[..n], fetch) + DiffNote(gs[n], fetch)
  }

  /** The last diff that could be fetched. */
  function LastDiff(gs: seq<GitState>, fetch: Fetcher): Option<string> {
    if gs == [] then None
    else
      var n := |gs| - 1;
      if HasDiff(gs[n]) && fetch(gs[n].diffRef).Some? then fetch(gs[n].diffRef) else LastDiff(gs[..n], fetch)
  }

  method RecoverDiffs(gs: seq<GitState>, diffs: Option<Fetcher>) returns (warnings: seq<Warning>, diff: Option<string>)
    ensures diffs.None? ==> warnings == [] && diff == None
    ensures diffs.Some? ==> warnings == DiffNotes(gs, diffs.value) && diff == LastDiff(gs, diffs.value)
  {
    warnings, diff := [], None;
    for i := 0 to |gs|
      invariant diffs.None? ==> warnings == [] && diff == None
      invariant diffs.Some? ==> warnings == DiffNotes(gs[..i], diffs.value) && diff == LastDiff(gs[..i], diffs.value)
    {
      var g := gs[i];
      assert gs[..i + 1][..i] == gs[..i];
      if g.uncommitted && g.diffRef != "" && diffs.Some? {
        var got := diffs.value(g.diffRef);
        if got.None? {
          warnings := warnings + [DiffUnavailable(g.diffRef)];
        } else {
          diff := got;
          warnings := warnings + [UncommittedChanges(g.branch, g.repo)];
        }
      }
    }
    assert gs[..|gs|] == gs;
  }

  /** Entry i is uncommitted, with a reference that fetches this. */
  predicate Refers(gs: seq<GitState>, fetch: Fetcher, i: nat, got: Option<string>)
    requires i < |gs|
  {
    gs[i].uncommitted && gs[i].diffRef != "" && fetch(gs[i].diffRef) == got
  }

  /** Which warnings a resume gives about uncommitted work: of entries with a reference, one for each. */
  lemma {:induction false} DiffWarnings(gs: seq<GitState>, fetch: Fetcher, w: Warning)
    ensures w in DiffNotes(gs, fetch) <==>
      exists i :: 0 <= i < |gs| && gs[i].uncommitted && gs[i].diffRef != "" &&
        w == if fetch(gs[i].diffRef).None? then DiffUnavailable(gs[i].diffRef)
             else UncommittedChanges(gs[i].branch, gs[i].repo)
    ensures |DiffNotes(gs, fetch)| <= |gs|
    decreases |gs|
  {
    if gs != [] { DiffWarnings(gs[..|gs| - 1], fetch, w); }
  }

  /** The diff of a resume is the one of the last entry whose reference fetches anything. */
  lemma {:induction false} LastDiffMeans(gs: seq<GitState>, fetch: Fetcher, d: string)
    ensures LastDiff(gs, fetch) == Some(d) <==>
      exists i :: 0 <= i < |gs| && Refers(gs, fetch, i, Some(d)) &&
        forall j, e :: i < j < |gs| ==> !Refers(gs, fetch, j, Some(e))
    ensures LastDiff(gs, fetch) == None <==> forall i, e :: 0 <= i < |gs| ==> !Refers(gs, fetch, i, Some(e))
    decreases |gs|
  {
    if gs != [] {
      var n := |gs| - 1;
      LastDiffMeans(gs[..n], fetch, d);
      assert forall i, e :: 0 <= i < n ==> (Refers(gs[..n], fetch, i, e) <==> Refers(gs, fetch, i, e));
      if HasDiff(gs[n]) && fetch(gs[n].diffRef).Some? { assert Refers(gs, fetch, n, Some(fetch(gs[n].diffRef).value)); }
    }
  }

  class Resumer {
    const codec: Codec
    const diffs: Option<Fetcher>
    var tailN: int

    constructor (codec: Codec, diffs: Option<Fetcher>, tailN: int)
      ensures this.codec == codec && this.diffs == diffs && this.tailN == tailN
    {
      this.codec, this.diffs, this.tailN := codec, diffs, tailN;
    }

    /** `session` is the stored environment key and manifest, `pod` what the pool hands out. */
    method Resume(sessionId: string, session: Option<(string, string)>, git: nat -> StatusReply, pod: Option<Pod>,
                  transcript: Option<Transcript>) returns (r: Result<Plan, ResumeError>)
      modifies `tailN
      ensures tailN == if old(tailN) == 0 then 20 else old(tailN)
      ensures r == Err(LookupFailed) <==> session.None?
      ensures r == Err(NoManifest) <==> session.Some? && session.value.1 == ""
      ensures r == Err(BadManifest) <==>
        session.Some? && session.value.1 != "" && codec.unmarshal(session.value.1).None?
      ensures r.Ok? <==> session.Some? && session.value.1 != "" && codec.unmarshal(session.value.1).Some? && pod.Some?
      ensures r.Ok? ==> var m, p := codec.unmarshal(session.value.1).value, r.value;
        && p.sessionId == sessionId && p.environmentKey == session.value.0 && p.agentVersion == m.agentVersion
        && Pod(p.podId, p.warmHit) == pod.value
        && p.openPRs == OpenPrs(m.gitState, git)
        && p.warnings == BranchNotes(m.gitState, git) + (if diffs.None? then [] else DiffNotes(m.gitState, diffs.value))
        && p.recoveryDiff == (if diffs.None? then None else LastDiff(m.gitState, diffs.value))
        && (m.transcriptRef == "" || transcript.None? ==> p.summary == "" && p.messages == [])
        && (m.transcriptRef != "" && transcript.Some? ==>
              && p.summary == (if transcript.value.summary.Some? then transcript.value.summary.value else "")
              && p.messages == (if transcript.value.tail(tailN).Some? then transcript.value.tail(tailN).value else []))
    {
      if tailN == 0 {
        tailN := 20;
      }
      if session.None? {
        return Err(LookupFailed);
      }
      var (envKey, raw) := session.value;
      if raw == "" {
        return Err(NoManifest);
      }
      var decoded := codec.unmarshal(raw);
      if decoded.None? {
        return Err(BadManifest);
      }
      var m := decoded.value;
      var warnings, prs := ResolveBranches(m.gitState, git);
      if pod.None? {
        return Err(ForkFailed);
      }
      var summary: string, messages: seq<Message> := "", [];
      if m.transcriptRef != "" && transcript.Some? {
        if transcript.value.summary.Some? {
          summary := transcript.value.summary.value;
        }
        var tail := transcript.value.tail(tailN);
        if tail.Some? {
          messages := tail.value;
        }
      }
      var notes, diff := RecoverDiffs(m.gitState, diffs);
      return Ok(Plan(sessionId, pod.value.id, envKey, pod.value.warm, m.agentVersion, messages, summary, prs, diff,
                     warnings + notes));
    }
  }
}
