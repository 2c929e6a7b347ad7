/** How often a pause is executed: exactly when one approval is spent twice, and exactly when a
    harness keeps to its grants. */
module HarnessPauses {
  import opened Wrappers
  import opened Harness
  import opened HarnessLife

  // ---------------------------------------------------------------------------------------------
  // Worlds grow

  /** Histories only grow, the checkpoint changes only by a save, and a save leaves a checkpoint
      that holds no pause, or one that was not there before. */
  ghost predicate Grew(w: World, w': World) {
    && w.execs <= w'.execs && w.saves <= w'.saves && |w.pauses| <= |w'.pauses|
    && w.completions <= w'.completions && w.approvals <= w'.approvals
    && (w'.saves == w.saves ==> w'.checkpoint == w.checkpoint && w'.held == w.held)
    && (w'.saves != w.saves ==> w'.held.None? || w'.held.value >= |w.pauses|)
  }

  /** Executions from n on that are no approved ones. */
  ghost predicate Unapproved(w: World, n: nat) {
    forall i :: n <= i < |w.execs| ==> w.execs[i].pause.None?
  }

  lemma GrewOn(w: World, w1: World, w2: World)
    requires Grew(w, w1) && Grew(w1, w2)
    ensures Grew(w, w2)
  {}

  lemma AnswerGrows(h: Config, env: Env, granted: seq<string>, st: RunState, w: World, resp: Completion, n: nat)
    requires Unapproved(w, n)
    ensures var t := Answer(h, env, granted, st, w, resp); Grew(w, t.w) && Unapproved(t.w, n)
  {}

  lemma TurnGrows(h: Config, env: Env, granted: seq<string>, st: RunState, w: World, n: nat)
    requires Unapproved(w, n)
    ensures var t := TurnOf(h, env, granted, st, w); Grew(w, t.w) && Unapproved(t.w, n)
  {
    if st.step < h.maxSteps && env.complete(w.asked).Some? {
      var resp := env.complete(w.asked).value;
      AnswerGrows(h, env, granted, Hear(st, resp), Counted(w), resp, n);
      assert Grew(w, Counted(w));
      GrewOn(w, Counted(w), Answer(h, env, granted, Hear(st, resp), Counted(w), resp).w);
    }
  }

  lemma {:induction false} LoopGrows(h: Config, env: Env, granted: seq<string>, st: RunState, w: World, n: nat)
    requires Unapproved(w, n)
    ensures var t := RunLoop(h, env, granted, st, w); Grew(w, t.w) && Unapproved(t.w, n)
    decreases h.maxSteps - st.step
  {
    TurnGrows(h, env, granted, st, w, n);
    var t := TurnOf(h, env, granted, st, w);
    if t.outcome.Continue? {
      LoopGrows(h, env, granted, t.st, t.w, n);
      GrewOn(w, t.w, RunLoop(h, env, granted, t.st, t.w).w);
    }
  }

  /** A Resume executes the held pause first if it is approved and finds a tool; nothing else it
      executes is an approved execution. */
  lemma ResumeGrows(h: Config, env: Env, w: World, approved: bool)
    ensures var w' := ResumeOf(h, env, w, approved);
      && Grew(w, w')
      && (approved && Pending(h, w) ==>
            && |w'.execs| > |w.execs| && Unapproved(w', |w.execs| + 1)
            && w'.execs[|w.execs|] == Exec(w.checkpoint.value.pendingTool, w.checkpoint.value.pendingInput, w.held))
      && (!(approved && Pending(h, w)) ==> w'.execs == w.execs)
  {
    if approved && Pending(h, w) {
      var (st, w1) := Redeem(env, w);
      assert Grew(w, w1) && Unapproved(w1, |w.execs| + 1);
      LoopGrows(h, env, st.granted, st.(granted := st.granted, status := Running), w1, |w.execs| + 1);
      GrewOn(w, w1, ResumeOf(h, env, w, approved));
    }
  }

  // ---------------------------------------------------------------------------------------------
  // Two approved Resumes in a row

  /** Between the two worlds the pause was executed. */
  ghost predicate Ran(w: World, w': World, pause: nat) {
    exists i :: |w.execs| <= i < |w'.execs| && w'.execs[i].pause == Some(pause)
  }

  /** From any world whose checkpoint holds a pause with a tool to execute: an approved Resume runs
      it, and the next approved Resume runs it again if and only if no save of the first one
      reached the store. */
  lemma RunsAgainIffNoSave(h: Config, env: Env, w: World)
    requires Pending(h, w) && w.held.Some? && w.held.value < |w.pauses|
    ensures var w1 := ResumeOf(h, env, w, true);
      var w2 := ResumeOf(h, env, w1, true);
      && Ran(w, w1, w.held.value)
      && (Ran(w1, w2, w.held.value) <==> w1.saves == w.saves)
  {
    var w1 := ResumeOf(h, env, w, true);
    var w2 := ResumeOf(h, env, w1, true);
    ResumeGrows(h, env, w, true);
    ResumeGrows(h, env, w1, true);
    assert w1.execs[|w.execs|].pause == w.held;
    RanIffHeld(h, w, w1, w2);
  }

  /** A second Resume that grew a world runs the pause of the first exactly if it is still held. */
  lemma RanIffHeld(h: Config, w: World, w1: World, w2: World)
    requires Pending(h, w) && w.held.Some? && w.held.value < |w.pauses| && Grew(w, w1)
    requires Pending(h, w1) ==>
      |w2.execs| > |w1.execs| && Unapproved(w2, |w1.execs| + 1) && w2.execs[|w1.execs|].pause == w1.held
    requires !Pending(h, w1) ==> w2.execs == w1.execs
    ensures Ran(w1, w2, w.held.value) <==> w1.saves == w.saves
  {
    if w1.saves == w.saves { assert w2.execs[|w1.execs|].pause == w.held; }
  }

  // ---------------------------------------------------------------------------------------------
  // Whole lives

  /** The world before decision k. */
  ghost function At(h: Config, env: Env, granted: seq<string>, st: RunState, decisions: seq<bool>, k: nat): World
    requires k <= |decisions|
  {
    Life(h, env, granted, st, decisions[..k])
  }

  lemma Next(h: Config, env: Env, granted: seq<string>, st: RunState, decisions: seq<bool>, k: nat)
    requires k < |decisions|
    ensures At(h, env, granted, st, decisions, k + 1)
         == ResumeOf(h, env, At(h, env, granted, st, decisions, k), decisions[k])
  {
    assert decisions[..k + 1][..k] == decisions[..k];
  }

  lemma {:induction false} LifeGrew(h: Config, env: Env, granted: seq<string>, st: RunState, decisions: seq<bool>,
                                    k: nat, l: nat)
    requires k <= l <= |decisions|
    ensures Grew(At(h, env, granted, st, decisions, k), At(h, env, granted, st, decisions, l))
    decreases l
  {
    if k < l {
      LifeGrew(h, env, granted, st, decisions, k, l - 1);
      Next(h, env, granted, st, decisions, l - 1);
      var w := At(h, env, granted, st, decisions, l - 1);
      ResumeGrows(h, env, w, decisions[l - 1]);
      GrewOn(At(h, env, granted, st, decisions, k), w, At(h, env, granted, st, decisions, l));
    }
  }

  /** Decision k approves a tool that is there to execute. */
  ghost predicate Redeems(h: Config, env: Env, granted: seq<string>, st: RunState, decisions: seq<bool>, k: nat)
    requires k < |decisions|
  {
    decisions[k] && Pending(h, At(h, env, granted, st, decisions, k))
  }

  /** Between any two approved Resumes, the first of which had a tool to execute, a save arrived. */
  ghost predicate SavedBetween(h: Config, env: Env, granted: seq<string>, st: RunState, decisions: seq<bool>) {
    forall k, l :: 0 <= k < l < |decisions| && Redeems(h, env, granted, st, decisions, k) && decisions[l] ==>
      At(h, env, granted, st, decisions, k).saves != At(h, env, granted, st, decisions, l).saves
  }

  ghost predicate OncePerPause(w: World) {
    forall i, j :: 0 <= i < j < |w.execs| && w.execs[i].pause.Some? ==> w.execs[i].pause != w.execs[j].pause
  }

  /** A pending world of a life holds a recorded pause. */
  lemma PendingHolds(h: Config, env: Env, granted: seq<string>, st: RunState, decisions: seq<bool>, k: nat)
    requires "" !in h.tools && k < |decisions| && Redeems(h, env, granted, st, decisions, k)
    ensures var w := At(h, env, granted, st, decisions, k);
      && w.held.Some? && w.held.value < |w.pauses|
      && |w.execs| < |At(h, env, granted, st, decisions, k + 1).execs|
      && At(h, env, granted, st, decisions, k + 1).execs[|w.execs|].pause == w.held
  {
    LifeGrants(h, env, granted, st, decisions[..k]);
    Next(h, env, granted, st, decisions, k);
    ResumeGrows(h, env, At(h, env, granted, st, decisions, k), decisions[k]);
  }

  /** Every approved execution of a life was made by a Resume that found that pause held. */
  lemma {:induction false} Origin(h: Config, env: Env, granted: seq<string>, st: RunState, decisions: seq<bool>,
                                  n: nat, i: nat)
    returns (k: nat)
    requires "" !in h.tools && n <= |decisions|
    requires i < |At(h, env, granted, st, decisions, n).execs| && At(h, env, granted, st, decisions, n).execs[i].pause.Some?
    ensures k < n && Redeems(h, env, granted, st, decisions, k)
    ensures i == |At(h, env, granted, st, decisions, k).execs|
    ensures At(h, env, granted, st, decisions, k).held == At(h, env, granted, st, decisions, n).execs[i].pause
    decreases n
  {
    if n == 0 {
      assert decisions[..0] == [];
      LoopGrows(h, env, granted, st.(granted := granted, status := Running), Fresh, 0);
      assert false;
    } else {
      Next(h, env, granted, st, decisions, n - 1);
      var w := At(h, env, granted, st, decisions, n - 1);
      ResumeGrows(h, env, w, decisions[n - 1]);
      if i < |w.execs| {
        k := Origin(h, env, granted, st, decisions, n - 1, i);
      } else {
        k := n - 1;
      }
    }
  }

  lemma SavedMeansOnce(h: Config, env: Env, granted: seq<string>, st: RunState, decisions: seq<bool>)
    requires "" !in h.tools && SavedBetween(h, env, granted, st, decisions)
    ensures OncePerPause(At(h, env, granted, st, decisions, |decisions|))
  {
    var n := |decisions|;
    var w := At(h, env, granted, st, decisions, n);
    forall i, j | 0 <= i < j < |w.execs| && w.execs[i].pause.Some? ensures w.execs[i].pause != w.execs[j].pause {
      if w.execs[j].pause.Some? {
        var k := Origin(h, env, granted, st, decisions, n, i);
        var l := Origin(h, env, granted, st, decisions, n, j);
        Apart(h, env, granted, st, decisions, k, l);
      }
    }
  }

  /** Two Resumes of a life that found the same pause held have no save between them. */
  lemma Apart(h: Config, env: Env, granted: seq<string>, st: RunState, decisions: seq<bool>, k: nat, l: nat)
    requires "" !in h.tools && k < |decisions| && l < |decisions|
    requires |At(h, env, granted, st, decisions, k).execs| < |At(h, env, granted, st, decisions, l).execs|
    requires Redeems(h, env, granted, st, decisions, k) && Redeems(h, env, granted, st, decisions, l)
    ensures k < l
    ensures At(h, env, granted, st, decisions, k).held == At(h, env, granted, st, decisions, l).held <==>
      At(h, env, granted, st, decisions, k).saves == At(h, env, granted, st, decisions, l).saves
  {
    if l <= k {
      LifeGrew(h, env, granted, st, decisions, l, k);
      assert false;
    }
    LifeGrew(h, env, granted, st, decisions, k, l);
    PendingHolds(h, env, granted, st, decisions, k);
  }

  /** With no save between them, two approved Resumes execute one pause. */
  lemma UnsavedRunsTwice(h: Config, env: Env, granted: seq<string>, st: RunState, decisions: seq<bool>, k: nat, l: nat)
    requires "" !in h.tools && k < l < |decisions| && Redeems(h, env, granted, st, decisions, k) && decisions[l]
    requires At(h, env, granted, st, decisions, k).saves == At(h, env, granted, st, decisions, l).saves
    ensures var w := At(h, env, granted, st, decisions, |decisions|);
      var i, j := |At(h, env, granted, st, decisions, k).execs|, |At(h, env, granted, st, decisions, l).execs|;
      i < j < |w.execs| && w.execs[i].pause.Some? && w.execs[i].pause == w.execs[j].pause
  {
    LifeGrew(h, env, granted, st, decisions, k, l);
    assert Redeems(h, env, granted, st, decisions, l);
    RunsThere(h, env, granted, st, decisions, k, l);
    RunsThere(h, env, granted, st, decisions, k, |decisions|);
    RunsThere(h, env, granted, st, decisions, l, |decisions|);
  }

  /** What a Resume of a life executed is on record ever after. */
  lemma RunsThere(h: Config, env: Env, granted: seq<string>, st: RunState, decisions: seq<bool>, k: nat, n: nat)
    requires "" !in h.tools && k < n <= |decisions| && Redeems(h, env, granted, st, decisions, k)
    ensures var i, w := |At(h, env, granted, st, decisions, k).execs|, At(h, env, granted, st, decisions, n);
      i < |w.execs| && w.execs[i].pause.Some? && w.execs[i].pause == At(h, env, granted, st, decisions, k).held
  {
    PendingHolds(h, env, granted, st, decisions, k);
    LifeGrew(h, env, granted, st, decisions, k + 1, n);
  }

  lemma OnceMeansSaved(h: Config, env: Env, granted: seq<string>, st: RunState, decisions: seq<bool>)
    requires "" !in h.tools && OncePerPause(At(h, env, granted, st, decisions, |decisions|))
    ensures SavedBetween(h, env, granted, st, decisions)
  {
    forall k, l | 0 <= k < l < |decisions| && Redeems(h, env, granted, st, decisions, k) && decisions[l]
      ensures At(h, env, granted, st, decisions, k).saves != At(h, env, granted, st, decisions, l).saves
    {
      if At(h, env, granted, st, decisions, k).saves == At(h, env, granted, st, decisions, l).saves {
        UnsavedRunsTwice(h, env, granted, st, decisions, k, l);
      }
    }
  }

  /** Over any life, whichever saves arrive: each pause is executed at most once if and only if
      between any approved Resume that had a tool to execute and any later approved Resume some
      save arrived. */
  lemma OncePerPauseIff(h: Config, env: Env, granted: seq<string>, st: RunState, decisions: seq<bool>)
    requires "" !in h.tools
    ensures OncePerPause(Life(h, env, granted, st, decisions)) <==> SavedBetween(h, env, granted, st, decisions)
  {
    assert decisions[..|decisions|] == decisions;
    if SavedBetween(h, env, granted, st, decisions) { SavedMeansOnce(h, env, granted, st, decisions); }
    if OncePerPause(Life(h, env, granted, st, decisions)) { OnceMeansSaved(h, env, granted, st, decisions); }
  }

  ghost predicate Reliable(env: Env) {
    forall n :: env.saved(n)
  }

  lemma RedeemSaves(h: Config, env: Env, w: World)
    requires Reliable(env) && Pending(h, w)
    ensures |ResumeOf(h, env, w, true).saves| > |w.saves|
  {
    var (st, w1) := Redeem(env, w);
    LoopGrows(h, env, st.granted, st.(granted := st.granted, status := Running), w1, |w1.execs|);
  }

  /** So a store that takes every save makes it at most once per pause. */
  lemma ReliableRunsOnce(h: Config, env: Env, granted: seq<string>, st: RunState, decisions: seq<bool>)
    requires Reliable(env) && "" !in h.tools
    ensures OncePerPause(Life(h, env, granted, st, decisions))
  {
    forall k, l | 0 <= k < l < |decisions| && Redeems(h, env, granted, st, decisions, k) && decisions[l]
      ensures At(h, env, granted, st, decisions, k).saves != At(h, env, granted, st, decisions, l).saves
    {
      Next(h, env, granted, st, decisions, k);
      RedeemSaves(h, env, At(h, env, granted, st, decisions, k));
      LifeGrew(h, env, granted, st, decisions, k + 1, l);
    }
    OncePerPauseIff(h, env, granted, st, decisions);
  }

  // ---------------------------------------------------------------------------------------------
  // Witnesses

  /** The model asks once for `tool`, then the gateway is down. */
  function AskOnce(tool: string, saved: nat -> bool): Env {
    Env(n => if n == 0 then Some(Completion("", "tool_use", tool, "x")) else None, n => "", saved)
  }

  const NewRun := RunState([], 0, Running, "", "", "", [])

  /** The first Run of that model ends at the pause. */
  lemma PausesOnce(h: Config, tool: string, env: Env)
    requires env.complete(0) == Some(Completion("", "tool_use", tool, "x")) && env.saved(0)
    requires tool in h.tools && h.tools[tool].requiresApproval && h.maxSteps >= 1
    ensures var w := Life(h, env, [tool], NewRun, []);
      && w.checkpoint.Some? && w.checkpoint.value.status == AwaitingApproval && w.checkpoint.value.step == 1
      && w.checkpoint.value.pendingTool == tool && w.checkpoint.value.pendingInput == "x"
      && w.attempts == 1 && w.asked == 1 && w.execs == [] && w.held == Some(0)
  {
    var start := NewRun.(granted := [tool]);
    assert TurnOf(h, env, [tool], start, Fresh).outcome == Return(None);
  }

  /** An approved Resume of a paused run while the gateway is down: one more execution. */
  lemma ResumeOnce(h: Config, env: Env, w: World)
    requires Pending(h, w) && env.complete(w.asked).None? && w.checkpoint.value.step < h.maxSteps
    ensures var st := w.checkpoint.value; var w' := ResumeOf(h, env, w, true);
      && w'.execs == w.execs + [Exec(st.pendingTool, st.pendingInput, w.held)]
      && w'.asked == w.asked + 1
      && w'.checkpoint.Some? && w'.checkpoint.value.status == AwaitingApproval
      && w'.checkpoint.value.step == st.step
      && w'.checkpoint.value.pendingTool == (if env.saved(w.attempts) then "" else st.pendingTool)
      && w'.checkpoint.value.pendingInput == (if env.saved(w.attempts) then "" else st.pendingInput)
      && w'.held == (if env.saved(w.attempts) then None else w.held)
  {
    var (st1, w1) := Redeem(env, w);
    var start := st1.(status := Running);
    assert TurnOf(h, env, start.granted, start, w1).outcome == Return(Some(CompleterFailed));
  }

  /** Two approvals of that pause: the second finds the emptied tool name if the first one's save
      arrived, and the pause once more if it did not. */
  lemma TwoApprovals(h: Config, tool: string, saved: nat -> bool)
    requires tool in h.tools && h.tools[tool].requiresApproval && h.maxSteps >= 2 && saved(0)
    requires saved(1) ==> "" in h.tools
    ensures Life(h, AskOnce(tool, saved), [tool], NewRun, [true, true]).execs ==
      [Exec(tool, "x", Some(0)), if saved(1) then Exec("", "", None) else Exec(tool, "x", Some(0))]
  {
    var env := AskOnce(tool, saved);
    PausesOnce(h, tool, env);
    assert [true, true][..1] == [true] && [true][..0] == [];
    ResumeOnce(h, env, Life(h, env, [tool], NewRun, []));
    ResumeOnce(h, env, Life(h, env, [tool], NewRun, [true]));
  }

  /** If the save after an approved execution is lost, the same approval can execute again. */
  lemma LostSaveRunsTwice(h: Config, tool: string)
    requires tool in h.tools && h.tools[tool].requiresApproval && h.maxSteps >= 2
    ensures var env := AskOnce(tool, n => n != 1);
      Life(h, env, [tool], NewRun, [true, true]).execs == [Exec(tool, "x", Some(0)), Exec(tool, "x", Some(0))]
  {
    TwoApprovals(h, tool, n => n != 1);
  }

  ghost predicate GrantsKept(h: Config) {
    forall env, granted, st, decisions, e :: e in Life(h, env, granted, st, decisions).execs ==> e.tool in granted
  }

  /** A harness with a tool that needs approval keeps to its grants in every life if and only if
      no tool has the empty name: Resume saves its state with the approval still open and the
      pending tool emptied, and a second approval looks that empty name up. */
  lemma GrantsKeptIff(h: Config, tool: string)
    requires tool in h.tools && tool != "" && h.tools[tool].requiresApproval && h.maxSteps >= 2
    ensures GrantsKept(h) <==> "" !in h.tools
  {
    if "" in h.tools {
      EmptyNameRuns(h, tool);
    } else {
      forall env, granted, st, decisions, e | e in Life(h, env, granted, st, decisions).execs ensures e.tool in granted {
        ExecutedIsGranted(h, env, granted, st, decisions, e);
      }
    }
  }

  lemma ExecutedIsGranted(h: Config, env: Env, granted: seq<string>, st: RunState, decisions: seq<bool>, e: Exec)
    requires "" !in h.tools && e in Life(h, env, granted, st, decisions).execs
    ensures e.tool in granted
  {
    LifeGrants(h, env, granted, st, decisions);
    var w := Life(h, env, granted, st, decisions);
    var i :| 0 <= i < |w.execs| && w.execs[i] == e;
    assert ExecOk(h, granted, w.pauses, w.execs[i]);
  }

  /** Two approvals, with every save arriving, execute a tool with the empty name. */
  lemma EmptyNameRuns(h: Config, tool: string)
    requires tool in h.tools && tool != "" && h.tools[tool].requiresApproval && h.maxSteps >= 2 && "" in h.tools
    ensures !GrantsKept(h)
  {
    TwoApprovals(h, tool, n => true);
    var env := AskOnce(tool, n => true);
    var e := Life(h, env, [tool], NewRun, [true, true]).execs[1];
    assert e in Life(h, env, [tool], NewRun, [true, true]).execs && e.tool !in [tool];
  }
}
