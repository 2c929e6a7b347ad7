/** What holds over a run's whole life: one Run and any Resumes, whatever the model answers. */
module HarnessLife {
  import opened Wrappers
  import opened Harness

  // ---------------------------------------------------------------------------------------------
  // Grants and approvals, whichever saves arrive

  /** An execution is of an existing, granted tool; one that needs approval, or that Resume made,
      is of exactly the tool and input of a recorded pause. */
  ghost predicate ExecOk(h: Config, granted: seq<string>, pauses: seq<Pause>, e: Exec) {
    && e.tool in granted && e.tool in h.tools
    && (h.tools[e.tool].requiresApproval ==> e.pause.Some?)
    && (e.pause.Some? ==> e.pause.value < |pauses| && pauses[e.pause.value] == Pause(e.tool, e.input))
  }

  /** A checkpoint that awaits approval holds a pause and its tool, or no tool at all. */
  ghost predicate HeldOk(granted: seq<string>, w: World, st: RunState) {
    && st.granted == granted
    && (st.status == AwaitingApproval && st.pendingTool != "" ==>
          && w.held.Some? && w.held.value < |w.pauses| && st.pendingTool in granted
          && w.pauses[w.held.value] == Pause(st.pendingTool, st.pendingInput))
  }

  ghost predicate GrantInv(h: Config, granted: seq<string>, w: World) {
    && (forall i :: 0 <= i < |w.execs| ==> ExecOk(h, granted, w.pauses, w.execs[i]))
    && (w.checkpoint.Some? ==> HeldOk(granted, w, w.checkpoint.value))
  }

  /** A save of a state that awaits nothing. */
  lemma SaveKeeps(h: Config, env: Env, granted: seq<string>, w: World, st: RunState)
    requires GrantInv(h, granted, w) && st.granted == granted && (st.status == AwaitingApproval ==> st.pendingTool == "")
    ensures GrantInv(h, granted, Save(env, w, st, None))
  {}

  lemma PauseKeeps(h: Config, env: Env, granted: seq<string>, w: World, st: RunState, tool: string, input: string)
    requires GrantInv(h, granted, w) && st.granted == granted && tool in granted
    requires st.pendingTool == tool && st.pendingInput == input
    ensures GrantInv(h, granted, Save(env, Paused(w, tool, input), st, Some(|w.pauses|)))
  {
    var w1 := Paused(w, tool, input);
    assert forall i :: 0 <= i < |w.execs| ==> ExecOk(h, granted, w.pauses, w.execs[i]);
    assert GrantInv(h, granted, w1);
  }

  lemma ExecuteKeeps(h: Config, env: Env, granted: seq<string>, st: RunState, w: World, tool: string, input: string,
                     pause: Option<nat>)
    requires GrantInv(h, granted, w) && ExecOk(h, granted, w.pauses, Exec(tool, input, pause))
    ensures GrantInv(h, granted, Execute(env, st, w, tool, input, pause).1)
  {}

  lemma AnswerGrants(h: Config, env: Env, granted: seq<string>, st: RunState, w: World, resp: Completion)
    requires GrantInv(h, granted, w) && st.granted == granted && st.status == Running
    ensures var t := Answer(h, env, granted, st, w, resp);
      GrantInv(h, granted, t.w) && t.st.granted == granted && (t.outcome.Continue? ==> t.st.status == Running)
  {
    var name := resp.toolName;
    if resp.stopReason != "tool_use" {
      SaveKeeps(h, env, granted, w, st.(status := Done, finalText := resp.text));
    } else if name !in h.tools || name !in granted {
      SaveKeeps(h, env, granted, w, st.(status := Done, finalText := ""));
    } else if h.tools[name].requiresApproval {
      var paused := st.(status := AwaitingApproval, pendingTool := name, pendingInput := resp.toolInput);
      PauseKeeps(h, env, granted, w, paused, name, resp.toolInput);
    } else {
      ExecuteKeeps(h, env, granted, st, w, name, resp.toolInput, None);
      var (st1, w1) := Execute(env, st, w, name, resp.toolInput, None);
      SaveKeeps(h, env, granted, w1, st1);
    }
  }

  lemma TurnGrants(h: Config, env: Env, granted: seq<string>, st: RunState, w: World)
    requires GrantInv(h, granted, w) && st.granted == granted && st.status == Running
    ensures var t := TurnOf(h, env, granted, st, w);
      GrantInv(h, granted, t.w) && t.st.granted == granted && (t.outcome.Continue? ==> t.st.status == Running)
  {
    if st.step >= h.maxSteps {
      SaveKeeps(h, env, granted, w, st.(status := Done, finalText := ""));
    } else if env.complete(w.asked).Some? {
      var resp := env.complete(w.asked).value;
      assert GrantInv(h, granted, Counted(w));
      AnswerGrants(h, env, granted, Hear(st, resp), Counted(w), resp);
    }
  }

  lemma {:induction false} LoopGrants(h: Config, env: Env, granted: seq<string>, st: RunState, w: World)
    requires GrantInv(h, granted, w) && st.granted == granted && st.status == Running
    ensures GrantInv(h, granted, RunLoop(h, env, granted, st, w).w)
    decreases h.maxSteps - st.step
  {
    TurnGrants(h, env, granted, st, w);
    var t := TurnOf(h, env, granted, st, w);
    if t.outcome.Continue? { LoopGrants(h, env, granted, t.st, t.w); }
  }

  lemma RedeemGrants(h: Config, env: Env, granted: seq<string>, w: World)
    requires GrantInv(h, granted, w) && Pending(h, w) && "" !in h.tools
    ensures var (st, w1) := Redeem(env, w); GrantInv(h, granted, w1) && st.granted == granted
  {
    var st := w.checkpoint.value;
    var w0 := Approving(w);
    assert GrantInv(h, granted, w0);
    ExecuteKeeps(h, env, granted, Approved(st), w0, st.pendingTool, st.pendingInput, w.held);
    var (st1, w1) := Execute(env, Approved(st), w0, st.pendingTool, st.pendingInput, w.held);
    SaveKeeps(h, env, granted, w1, Cleared(st1));
  }

  lemma ResumeGrants(h: Config, env: Env, granted: seq<string>, w: World, approved: bool)
    requires GrantInv(h, granted, w) && "" !in h.tools
    ensures GrantInv(h, granted, ResumeOf(h, env, w, approved))
  {
    if w.checkpoint.Some? && w.checkpoint.value.status == AwaitingApproval {
      if approved && Pending(h, w) {
        RedeemGrants(h, env, granted, w);
        var (st, w1) := Redeem(env, w);
        LoopGrants(h, env, granted, st.(granted := granted, status := Running), w1);
      } else {
        SaveKeeps(h, env, granted, w, Declined(w.checkpoint.value));
      }
    }
  }

  lemma {:induction false} LifeGrants(h: Config, env: Env, granted: seq<string>, st: RunState, decisions: seq<bool>)
    requires "" !in h.tools
    ensures GrantInv(h, granted, Life(h, env, granted, st, decisions))
    decreases |decisions|
  {
    if decisions == [] {
      LoopGrants(h, env, granted, st.(granted := granted, status := Running), Fresh);
    } else {
      var n := |decisions| - 1;
      LifeGrants(h, env, granted, st, decisions[..n]);
      ResumeGrants(h, env, granted, Life(h, env, granted, st, decisions[..n]), decisions[n]);
    }
  }

  /** Every tool ever executed was granted at the first Run; a tool that needs approval only ever
      executes in an approved Resume, with the name and input of a pause. This holds whichever
      saves arrive. */
  lemma GrantsAndApprovals(h: Config, env: Env, granted: seq<string>, st: RunState, decisions: seq<bool>)
    requires "" !in h.tools
    ensures var w := Life(h, env, granted, st, decisions);
      forall i :: 0 <= i < |w.execs| ==>
        var e := w.execs[i];
        && e.tool in granted && e.tool in h.tools
        && (h.tools[e.tool].requiresApproval ==> e.pause.Some?)
        && (e.pause.Some? ==> e.pause.value < |w.pauses| && w.pauses[e.pause.value] == Pause(e.tool, e.input))
  {
    LifeGrants(h, env, granted, st, decisions);
    var w := Life(h, env, granted, st, decisions);
    assert forall i :: 0 <= i < |w.execs| ==> ExecOk(h, granted, w.pauses, w.execs[i]);
  }
}
