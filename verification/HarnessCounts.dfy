/** Steps and messages over a run's whole life, whichever saves arrive: everything counted is in the
    checkpoint, not yet saved, or lost to a Resume that went on from an older checkpoint. */
module HarnessCounts {
  import opened Wrappers
  import opened Harness
  import opened HarnessLife
  import opened HarnessPauses

  // ---------------------------------------------------------------------------------------------
  // Conservation

  /** How far the run already was when it was handed to Run. */
  datatype Base = Base(step: int, messages: int)

  function Max(h: Config, b: Base): int {
    if h.maxSteps > b.step then h.maxSteps else b.step
  }

  /** All messages appended since: one for each completion, each execution and each approval. */
  function Appended(w: World): nat {
    w.completions + |w.execs| + w.approvals
  }

  function Reached(b: Base, w: World): Base {
    if w.checkpoint.None? then b else Base(w.checkpoint.value.step, |w.checkpoint.value.messages|)
  }

  /** The checkpoint, what is not saved and what is lost make up all that was done. */
  ghost predicate Conserved(b: Base, w: World) {
    && Reached(b, w).step + w.unsaved.steps + w.lost.steps == b.step + w.completions
    && Reached(b, w).messages + w.unsaved.messages + w.lost.messages == b.messages + Appended(w)
  }

  ghost predicate GrowsOnly(saves: seq<RunState>) {
    forall i, j :: 0 <= i < j < |saves| ==> saves[i].messages <= saves[j].messages
  }

  /** Every saved transcript is a beginning of this one. */
  ghost predicate Extends(messages: seq<Message>, saves: seq<RunState>) {
    forall i :: 0 <= i < |saves| ==> saves[i].messages <= messages
  }

  /** Holds whenever no call is under way. */
  ghost predicate Inv(h: Config, b: Base, w: World) {
    && Conserved(b, w) && GrowsOnly(w.saves)
    && Reached(b, w).step + w.unsaved.steps <= Max(h, b)
    && (w.checkpoint.None? <==> w.saves == [])
    && (w.checkpoint.Some? ==> Extends(w.checkpoint.value.messages, w.saves))
  }

  /** A loop state carries all that was done but for what is lost. */
  ghost predicate InStep(h: Config, b: Base, w: World, st: RunState) {
    && st.step + w.lost.steps == b.step + w.completions
    && |st.messages| + w.lost.messages == b.messages + Appended(w)
    && st.step <= Max(h, b)
    && Extends(st.messages, w.saves)
  }

  lemma SaveInv(h: Config, env: Env, b: Base, w: World, st: RunState, pause: Option<nat>)
    requires Conserved(b, w) && GrowsOnly(w.saves) && InStep(h, b, w, st)
    requires w.checkpoint.None? <==> w.saves == []
    requires w.checkpoint.Some? ==> Extends(w.checkpoint.value.messages, w.saves)
    ensures Inv(h, b, Save(env, w, st, pause)) && InStep(h, b, Save(env, w, st, pause), st)
  {}

  lemma ExecuteInv(h: Config, env: Env, b: Base, st: RunState, w: World, tool: string, input: string,
                   pause: Option<nat>)
    requires Inv(h, b, w) && InStep(h, b, w, st)
    ensures var (st1, w1) := Execute(env, st, w, tool, input, pause); Inv(h, b, w1) && InStep(h, b, w1, st1)
  {}

  lemma AnswerInv(h: Config, env: Env, b: Base, granted: seq<string>, st: RunState, w: World, resp: Completion)
    requires Inv(h, b, w) && InStep(h, b, w, st)
    ensures var t := Answer(h, env, granted, st, w, resp); Inv(h, b, t.w) && InStep(h, b, t.w, t.st)
  {
    var name := resp.toolName;
    if resp.stopReason != "tool_use" {
      SaveInv(h, env, b, w, st.(status := Done, finalText := resp.text), None);
    } else if name !in h.tools || name !in granted {
      SaveInv(h, env, b, w, st.(status := Done, finalText := ""), None);
    } else if h.tools[name].requiresApproval {
      var paused := st.(status := AwaitingApproval, pendingTool := name, pendingInput := resp.toolInput);
      SaveInv(h, env, b, Paused(w, name, resp.toolInput), paused, Some(|w.pauses|));
    } else {
      ExecuteInv(h, env, b, st, w, name, resp.toolInput, None);
      var (st1, w1) := Execute(env, st, w, name, resp.toolInput, None);
      SaveInv(h, env, b, w1, st1, None);
    }
  }

  /** One pass keeps the balance and never takes the run past its step limit. */
  lemma TurnInv(h: Config, env: Env, b: Base, granted: seq<string>, st: RunState, w: World)
    requires Inv(h, b, w) && InStep(h, b, w, st)
    ensures var t := TurnOf(h, env, granted, st, w); Inv(h, b, t.w) && InStep(h, b, t.w, t.st)
  {
    if st.step >= h.maxSteps {
      SaveInv(h, env, b, w, st.(status := Done, finalText := ""), None);
    } else if env.complete(w.asked).Some? {
      var resp := env.complete(w.asked).value;
      assert InStep(h, b, Counted(w), Hear(st, resp)) && Inv(h, b, Counted(w));
      AnswerInv(h, env, b, granted, Hear(st, resp), Counted(w), resp);
    }
  }

  lemma {:induction false} LoopInv(h: Config, env: Env, b: Base, granted: seq<string>, st: RunState, w: World)
    requires Inv(h, b, w) && InStep(h, b, w, st)
    ensures var t := RunLoop(h, env, granted, st, w); Inv(h, b, t.w) && InStep(h, b, t.w, t.st)
    decreases h.maxSteps - st.step
  {
    TurnInv(h, env, b, granted, st, w);
    var t := TurnOf(h, env, granted, st, w);
    if t.outcome.Continue? { LoopInv(h, env, b, granted, t.st, t.w); }
  }

  lemma ApprovingInv(h: Config, b: Base, w: World)
    requires Inv(h, b, w) && w.checkpoint.Some?
    ensures var st := w.checkpoint.value; Inv(h, b, Approving(w)) && InStep(h, b, Approving(w), Approved(st))
  {
    var st := w.checkpoint.value;
    assert st.messages <= Approved(st).messages;
  }

  lemma RedeemInv(h: Config, env: Env, b: Base, w: World)
    requires Inv(h, b, w) && w.checkpoint.Some?
    ensures var (st, w1) := Redeem(env, w); Inv(h, b, w1) && InStep(h, b, w1, st)
  {
    var st := w.checkpoint.value;
    ApprovingInv(h, b, w);
    ExecuteInv(h, env, b, Approved(st), Approving(w), st.pendingTool, st.pendingInput, w.held);
    var (st1, w1) := Execute(env, Approved(st), Approving(w), st.pendingTool, st.pendingInput, w.held);
    assert InStep(h, b, w1, Cleared(st1));
    SaveInv(h, env, b, w1, Cleared(st1), None);
  }

  lemma ResumeInv(h: Config, env: Env, b: Base, w: World, approved: bool)
    requires Inv(h, b, w)
    ensures Inv(h, b, ResumeOf(h, env, w, approved))
  {
    if approved && Pending(h, w) {
      RedeemInv(h, env, b, w);
      var (st, w1) := Redeem(env, w);
      LoopInv(h, env, b, st.granted, st.(granted := st.granted, status := Running), w1);
    }
  }

  lemma {:induction false} LifeInv(h: Config, env: Env, granted: seq<string>, st: RunState, decisions: seq<bool>)
    ensures Inv(h, Base(st.step, |st.messages|), Life(h, env, granted, st, decisions))
    decreases |decisions|
  {
    var b := Base(st.step, |st.messages|);
    if decisions == [] {
      LoopInv(h, env, b, granted, st.(granted := granted, status := Running), Fresh);
    } else {
      var n := |decisions| - 1;
      LifeInv(h, env, granted, st, decisions[..n]);
      ResumeInv(h, env, b, Life(h, env, granted, st, decisions[..n]), decisions[n]);
    }
  }

  // ---------------------------------------------------------------------------------------------
  // A pending checkpoint is behind only if no save arrived

  /** The checkpoint asks for a tool. */
  predicate Asks(w: World) {
    w.checkpoint.Some? && w.checkpoint.value.status == AwaitingApproval && w.checkpoint.value.pendingTool != ""
  }

  /** A checkpoint saved since, and asking for a tool, holds everything done. */
  ghost predicate UpToDate(saves: seq<RunState>, w: World) {
    w.saves != saves && Asks(w) ==> w.unsaved == NOTHING
  }

  /** A pass that goes on leaves no new checkpoint that asks for a tool. */
  lemma TurnUpToDate(h: Config, env: Env, granted: seq<string>, st: RunState, w: World, saves: seq<RunState>)
    requires st.status == Running && saves <= w.saves && (w.saves != saves ==> !Asks(w))
    ensures var t := TurnOf(h, env, granted, st, w);
      && saves <= t.w.saves && UpToDate(saves, t.w)
      && (t.outcome.Continue? ==> t.st.status == Running && (t.w.saves != saves ==> !Asks(t.w)))
  {}

  lemma {:induction false} LoopUpToDate(h: Config, env: Env, granted: seq<string>, st: RunState, w: World,
                                        saves: seq<RunState>)
    requires st.status == Running && saves <= w.saves && (w.saves != saves ==> !Asks(w))
    ensures UpToDate(saves, RunLoop(h, env, granted, st, w).w)
    decreases h.maxSteps - st.step
  {
    TurnUpToDate(h, env, granted, st, w, saves);
    var t := TurnOf(h, env, granted, st, w);
    if t.outcome.Continue? { LoopUpToDate(h, env, granted, t.st, t.w, saves); }
  }

  lemma RedeemUpToDate(h: Config, env: Env, w: World)
    requires Pending(h, w)
    ensures UpToDate(w.saves, ResumeOf(h, env, w, true))
  {
    var (st, w1) := Redeem(env, w);
    LoopUpToDate(h, env, st.granted, st.(granted := st.granted, status := Running), w1, w.saves);
  }

  /** A Resume that redeems nothing makes no checkpoint pending and does no work. */
  lemma UnredeemedKeeps(h: Config, env: Env, w: World, approved: bool)
    requires !(approved && Pending(h, w))
    ensures var w1 := ResumeOf(h, env, w, approved);
      && w1.lost == w.lost && w1.completions == w.completions
      && (Pending(h, w1) ==> w1.saves == w.saves && w1.unsaved == w.unsaved)
  {}

  // ---------------------------------------------------------------------------------------------
  // When a Resume starts behind

  /** The checkpoint counts every step. */
  predicate Accurate(b: Base, w: World) {
    w.checkpoint.Some? && w.checkpoint.value.step == b.step + w.completions
  }

  /** From any pending world whose checkpoint counts every step: if an approved Resume leaves the run
      pending again, its checkpoint counts every step if and only if a save of that Resume arrived
      or it completed nothing. */
  lemma AccurateAgainIff(h: Config, env: Env, b: Base, w: World)
    requires "" !in h.tools && Pending(h, w) && Accurate(b, w)
    ensures var w1 := ResumeOf(h, env, w, true);
      Pending(h, w1) ==> (Accurate(b, w1) <==> w1.saves != w.saves || w1.completions == w.completions)
  {
    var w1 := ResumeOf(h, env, w, true);
    ResumeGrows(h, env, w, true);
    RedeemUpToDate(h, env, w);
    Relative(h, env, w);
  }

  /** The steps of an approved Resume, counted from the checkpoint it starts with. */
  lemma Relative(h: Config, env: Env, w: World)
    requires Pending(h, w)
    ensures var w1 := ResumeOf(h, env, w, true);
      w1.saves != w.saves ==>
        && w1.checkpoint.Some?
        && w1.checkpoint.value.step + w1.unsaved.steps - w.checkpoint.value.step == w1.completions - w.completions
  {
    var (st, w1) := Redeem(env, w);
    var d := w.checkpoint.value.step - w.completions;
    LoopRelative(h, env, st.granted, st.(granted := st.granted, status := Running), w1, w.saves, d);
  }

  /** A checkpoint saved since is behind by what is unsaved. */
  ghost predicate Behind(saves: seq<RunState>, w: World, d: int) {
    w.saves != saves ==> w.checkpoint.Some? && w.checkpoint.value.step + w.unsaved.steps == w.completions + d
  }

  lemma TurnRelative(h: Config, env: Env, granted: seq<string>, st: RunState, w: World, saves: seq<RunState>, d: int)
    requires saves <= w.saves && st.step == w.completions + d && Behind(saves, w, d)
    ensures var t := TurnOf(h, env, granted, st, w);
      saves <= t.w.saves && t.st.step == t.w.completions + d && Behind(saves, t.w, d)
  {}

  lemma {:induction false} LoopRelative(h: Config, env: Env, granted: seq<string>, st: RunState, w: World,
                                        saves: seq<RunState>, d: int)
    requires saves <= w.saves && st.step == w.completions + d && Behind(saves, w, d)
    ensures Behind(saves, RunLoop(h, env, granted, st, w).w, d)
    decreases h.maxSteps - st.step
  {
    TurnRelative(h, env, granted, st, w, saves, d);
    var t := TurnOf(h, env, granted, st, w);
    if t.outcome.Continue? { LoopRelative(h, env, granted, t.st, t.w, saves, d); }
  }

  // ---------------------------------------------------------------------------------------------
  // Whole lives

  /** What is lost is what was unsaved when a Resume redeemed. */
  lemma LostNext(h: Config, env: Env, granted: seq<string>, st: RunState, decisions: seq<bool>, k: nat)
    requires k < |decisions|
    ensures var w, w1 := At(h, env, granted, st, decisions, k), At(h, env, granted, st, decisions, k + 1);
      w1.lost == if Redeems(h, env, granted, st, decisions, k)
                 then Tally(w.lost.steps + w.unsaved.steps, w.lost.messages + w.unsaved.messages)
                 else w.lost
  {
    var w := At(h, env, granted, st, decisions, k);
    Next(h, env, granted, st, decisions, k);
    if Redeems(h, env, granted, st, decisions, k) {
      var (st1, w1) := Redeem(env, w);
      LoopLosesNothing(h, env, st1.granted, st1.(granted := st1.granted, status := Running), w1);
    } else {
      UnredeemedKeeps(h, env, w, decisions[k]);
    }
  }

  lemma {:induction false} LoopLosesNothing(h: Config, env: Env, granted: seq<string>, st: RunState, w: World)
    ensures RunLoop(h, env, granted, st, w).w.lost == w.lost
    decreases h.maxSteps - st.step
  {
    var t := TurnOf(h, env, granted, st, w);
    TurnLosesNothing(h, env, granted, st, w);
    if t.outcome.Continue? { LoopLosesNothing(h, env, granted, t.st, t.w); }
  }

  lemma TurnLosesNothing(h: Config, env: Env, granted: seq<string>, st: RunState, w: World)
    ensures TurnOf(h, env, granted, st, w).w.lost == w.lost
  {}

  /** If decision k redeems, it starts from a checkpoint that lacks no step, or no message. */
  ghost predicate LacksNoStep(h: Config, env: Env, granted: seq<string>, st: RunState, decisions: seq<bool>, k: nat)
    requires k < |decisions|
  {
    Redeems(h, env, granted, st, decisions, k) ==> At(h, env, granted, st, decisions, k).unsaved.steps == 0
  }

  ghost predicate LacksNoMessage(h: Config, env: Env, granted: seq<string>, st: RunState, decisions: seq<bool>, k: nat)
    requires k < |decisions|
  {
    Redeems(h, env, granted, st, decisions, k) ==> At(h, env, granted, st, decisions, k).unsaved.messages == 0
  }

  lemma LostAtFirst(h: Config, env: Env, granted: seq<string>, st: RunState, decisions: seq<bool>)
    ensures At(h, env, granted, st, decisions, 0).lost == NOTHING
  {
    assert decisions[..0] == [];
    LoopLosesNothing(h, env, granted, st.(granted := granted, status := Running), Fresh);
  }

  /** No step is lost before decision n exactly if no Resume redeemed with a step unsaved. */
  lemma {:induction false} LostStepsIff(h: Config, env: Env, granted: seq<string>, st: RunState,
                                        decisions: seq<bool>, n: nat)
    requires n <= |decisions|
    ensures At(h, env, granted, st, decisions, n).lost.steps == 0 <==>
      forall k :: 0 <= k < n ==> LacksNoStep(h, env, granted, st, decisions, k)
    decreases n
  {
    if n == 0 {
      LostAtFirst(h, env, granted, st, decisions);
    } else {
      LostStepsIff(h, env, granted, st, decisions, n - 1);
      assert At(h, env, granted, st, decisions, n).lost.steps == 0 <==>
             At(h, env, granted, st, decisions, n - 1).lost.steps == 0 && LacksNoStep(h, env, granted, st, decisions, n - 1)
      by { LostNext(h, env, granted, st, decisions, n - 1); }
    }
  }

  lemma {:induction false} LostMessagesIff(h: Config, env: Env, granted: seq<string>, st: RunState,
      decisions: seq<bool>, n: nat)
    requires n <= |decisions|
    ensures At(h, env, granted, st, decisions, n).lost.messages == 0 <==>
      forall k :: 0 <= k < n ==> LacksNoMessage(h, env, granted, st, decisions, k)
    decreases n
  {
    if n == 0 {
      LostAtFirst(h, env, granted, st, decisions);
    } else {
      LostMessagesIff(h, env, granted, st, decisions, n - 1);
      assert At(h, env, granted, st, decisions, n).lost.messages == 0 <==>
             At(h, env, granted, st, decisions, n - 1).lost.messages == 0 &&
             LacksNoMessage(h, env, granted, st, decisions, n - 1)
      by { LostNext(h, env, granted, st, decisions, n - 1); }
    }
  }

  /** A pending world of a life is up to date, unless some Resume before redeemed and no save has
      arrived since it began. */
  lemma {:induction false} UpToDateOr(h: Config, env: Env, granted: seq<string>, st: RunState, decisions: seq<bool>,
                                      l: nat)
    requires "" !in h.tools && l <= |decisions| && Pending(h, At(h, env, granted, st, decisions, l))
    ensures
      || At(h, env, granted, st, decisions, l).unsaved == NOTHING
      || exists k :: 0 <= k < l && Redeems(h, env, granted, st, decisions, k)
                     && At(h, env, granted, st, decisions, k).saves == At(h, env, granted, st, decisions, l).saves
    decreases l
  {
    if l == 0 {
      assert decisions[..0] == [];
      LoopUpToDate(h, env, granted, st.(granted := granted, status := Running), Fresh, []);
      LifeInv(h, env, granted, st, []);
    } else {
      var k := l - 1;
      var w := At(h, env, granted, st, decisions, k);
      Next(h, env, granted, st, decisions, k);
      if Redeems(h, env, granted, st, decisions, k) {
        RedeemUpToDate(h, env, w);
      } else {
        UnredeemedKeeps(h, env, w, decisions[k]);
        StillPending(h, env, w, decisions[k]);
        UpToDateOr(h, env, granted, st, decisions, k);
      }
    }
  }

  lemma StillPending(h: Config, env: Env, w: World, approved: bool)
    requires !(approved && Pending(h, w)) && Pending(h, ResumeOf(h, env, w, approved))
    ensures Pending(h, w)
  {}

  /** Between two redeeming Resumes a save arrived, or nothing was completed. */
  ghost predicate SavedOrIdle(h: Config, env: Env, granted: seq<string>, st: RunState, decisions: seq<bool>) {
    forall k, l :: 0 <= k < l < |decisions| && Redeems(h, env, granted, st, decisions, k)
                   && Redeems(h, env, granted, st, decisions, l) ==>
      SavedOrIdleAt(At(h, env, granted, st, decisions, k), At(h, env, granted, st, decisions, l))
  }

  ghost predicate SavedOrIdleAt(w: World, w': World) {
    w.saves != w'.saves || w.completions == w'.completions
  }

  /** Two worlds of a life with the same saves have the same checkpoint. */
  lemma SameSaves(h: Config, env: Env, granted: seq<string>, st: RunState, decisions: seq<bool>, k: nat, l: nat)
    requires k <= l <= |decisions|
    requires At(h, env, granted, st, decisions, k).saves == At(h, env, granted, st, decisions, l).saves
    ensures At(h, env, granted, st, decisions, k).checkpoint == At(h, env, granted, st, decisions, l).checkpoint
    ensures Conserved(Base(st.step, |st.messages|), At(h, env, granted, st, decisions, k))
    ensures Conserved(Base(st.step, |st.messages|), At(h, env, granted, st, decisions, l))
  {
    LifeGrew(h, env, granted, st, decisions, k, l);
    LifeInv(h, env, granted, st, decisions[..k]);
    LifeInv(h, env, granted, st, decisions[..l]);
  }

  /** No redeeming Resume of the first n decisions starts behind in steps. */
  lemma {:induction false} StartsInStep(h: Config, env: Env, granted: seq<string>, st: RunState,
                                        decisions: seq<bool>, n: nat)
    requires "" !in h.tools && n <= |decisions| && SavedOrIdle(h, env, granted, st, decisions)
    ensures At(h, env, granted, st, decisions, n).lost.steps == 0
    decreases n, 1
  {
    forall l | 0 <= l < n ensures LacksNoStep(h, env, granted, st, decisions, l) {
      if Redeems(h, env, granted, st, decisions, l) { StartInStep(h, env, granted, st, decisions, l); }
    }
    LostStepsIff(h, env, granted, st, decisions, n);
  }

  lemma {:induction false} StartInStep(h: Config, env: Env, granted: seq<string>, st: RunState,
                                       decisions: seq<bool>, l: nat)
    requires "" !in h.tools && SavedOrIdle(h, env, granted, st, decisions)
    requires l < |decisions| && Redeems(h, env, granted, st, decisions, l)
    ensures At(h, env, granted, st, decisions, l).unsaved.steps == 0
    decreases l, 2
  {
    var w := At(h, env, granted, st, decisions, l);
    UpToDateOr(h, env, granted, st, decisions, l);
    if w.unsaved != NOTHING {
      var k :| 0 <= k < l && Redeems(h, env, granted, st, decisions, k)
               && At(h, env, granted, st, decisions, k).saves == w.saves;
      assert SavedOrIdleAt(At(h, env, granted, st, decisions, k), w);
      StartInStep(h, env, granted, st, decisions, k);
      StartsInStep(h, env, granted, st, decisions, k);
      StartsInStep(h, env, granted, st, decisions, l);
      SameSaves(h, env, granted, st, decisions, k, l);
    }
  }

  /** Over any life no step is lost, that is, every redeeming Resume starts from a checkpoint that
      counts every step, if and only if between any two of them a save arrived or nothing was
      completed. */
  lemma NoStepLostIff(h: Config, env: Env, granted: seq<string>, st: RunState, decisions: seq<bool>)
    requires "" !in h.tools
    ensures Life(h, env, granted, st, decisions).lost.steps == 0 <==> SavedOrIdle(h, env, granted, st, decisions)
  {
    var n := |decisions|;
    assert decisions[..n] == decisions;
    if SavedOrIdle(h, env, granted, st, decisions) {
      StartsInStep(h, env, granted, st, decisions, n);
    }
    if Life(h, env, granted, st, decisions).lost.steps == 0 {
      forall k, l | 0 <= k < l < n && Redeems(h, env, granted, st, decisions, k) && Redeems(h, env, granted, st, decisions, l)
        ensures SavedOrIdleAt(At(h, env, granted, st, decisions, k), At(h, env, granted, st, decisions, l))
      {
        StepsTell(h, env, granted, st, decisions, k, l);
      }
    }
  }

  lemma StepsTell(h: Config, env: Env, granted: seq<string>, st: RunState, decisions: seq<bool>, k: nat, l: nat)
    requires k < l < |decisions| && At(h, env, granted, st, decisions, |decisions|).lost.steps == 0
    requires Redeems(h, env, granted, st, decisions, k) && Redeems(h, env, granted, st, decisions, l)
    ensures SavedOrIdleAt(At(h, env, granted, st, decisions, k), At(h, env, granted, st, decisions, l))
  {
    LostStepsIff(h, env, granted, st, decisions, |decisions|);
    assert LacksNoStep(h, env, granted, st, decisions, k) && LacksNoStep(h, env, granted, st, decisions, l);
    LostStepsIff(h, env, granted, st, decisions, k);
    LostStepsIff(h, env, granted, st, decisions, l);
    if At(h, env, granted, st, decisions, k).saves == At(h, env, granted, st, decisions, l).saves {
      SameSaves(h, env, granted, st, decisions, k, l);
    }
  }

  /** Over any life no message is lost if and only if between any approved Resume that had a tool to
      execute and any later approved Resume some save arrived: exactly if each pause runs at most
      once. */
  lemma NoMessageLostIff(h: Config, env: Env, granted: seq<string>, st: RunState, decisions: seq<bool>)
    requires "" !in h.tools
    ensures Life(h, env, granted, st, decisions).lost.messages == 0 <==> SavedBetween(h, env, granted, st, decisions)
  {
    var n := |decisions|;
    assert decisions[..n] == decisions;
    if SavedBetween(h, env, granted, st, decisions) {
      forall l | 0 <= l < n ensures LacksNoMessage(h, env, granted, st, decisions, l) {
        if Redeems(h, env, granted, st, decisions, l) { UpToDateOr(h, env, granted, st, decisions, l); }
      }
      LostMessagesIff(h, env, granted, st, decisions, n);
    }
    if Life(h, env, granted, st, decisions).lost.messages == 0 {
      forall k, l | 0 <= k < l < n && Redeems(h, env, granted, st, decisions, k) && decisions[l]
        ensures At(h, env, granted, st, decisions, k).saves != At(h, env, granted, st, decisions, l).saves
      {
        MessagesTell(h, env, granted, st, decisions, k, l);
      }
    }
  }

  lemma MessagesTell(h: Config, env: Env, granted: seq<string>, st: RunState, decisions: seq<bool>, k: nat, l: nat)
    requires k < l < |decisions| && At(h, env, granted, st, decisions, |decisions|).lost.messages == 0
    requires Redeems(h, env, granted, st, decisions, k) && decisions[l]
    ensures At(h, env, granted, st, decisions, k).saves != At(h, env, granted, st, decisions, l).saves
  {
    LostMessagesIff(h, env, granted, st, decisions, |decisions|);
    assert LacksNoMessage(h, env, granted, st, decisions, k) && LacksNoMessage(h, env, granted, st, decisions, l);
    LostMessagesIff(h, env, granted, st, decisions, k);
    LostMessagesIff(h, env, granted, st, decisions, l);
    if At(h, env, granted, st, decisions, k).saves == At(h, env, granted, st, decisions, l).saves {
      SameSaves(h, env, granted, st, decisions, k, l);
      assert Redeems(h, env, granted, st, decisions, l);
      AppendedGrows(h, env, granted, st, decisions, k, l);
    }
  }

  lemma AppendedGrows(h: Config, env: Env, granted: seq<string>, st: RunState, decisions: seq<bool>, k: nat, l: nat)
    requires k < l <= |decisions| && Redeems(h, env, granted, st, decisions, k)
    ensures Appended(At(h, env, granted, st, decisions, k)) < Appended(At(h, env, granted, st, decisions, l))
  {
    Next(h, env, granted, st, decisions, k);
    ResumeGrows(h, env, At(h, env, granted, st, decisions, k), decisions[k]);
    LifeGrew(h, env, granted, st, decisions, k + 1, l);
  }

  // ---------------------------------------------------------------------------------------------
  // The theorems

  /** Over any life, whichever saves arrive: steps and messages are conserved; the model is asked
      successfully within the limit but for the steps lost, so within the limit if between any two
      redeeming Resumes a save arrived or nothing was completed; saved transcripts only grow by
      extension; and the checkpoint's messages are those at the start plus one for each completion,
      execution and approval if and only if nothing is unsaved or lost. */
  lemma BoundedAndCounted(h: Config, env: Env, granted: seq<string>, st: RunState, decisions: seq<bool>)
    ensures var w := Life(h, env, granted, st, decisions);
      var limit := if h.maxSteps > st.step then h.maxSteps else st.step;
      && Conserved(Base(st.step, |st.messages|), w)
      && st.step + w.completions <= limit + w.lost.steps
      && ("" !in h.tools && SavedOrIdle(h, env, granted, st, decisions) ==> st.step + w.completions <= limit)
      && (forall i, j :: 0 <= i < j < |w.saves| ==> w.saves[i].messages <= w.saves[j].messages)
      && (w.checkpoint.Some? ==>
            (|w.checkpoint.value.messages| == |st.messages| + w.completions + |w.execs| + w.approvals <==>
             w.unsaved.messages == 0 && w.lost.messages == 0))
  {
    LifeInv(h, env, granted, st, decisions);
    if "" !in h.tools { NoStepLostIff(h, env, granted, st, decisions); }
  }

  /** With a store that takes every save nothing is unsaved and nothing is lost. */
  lemma ReliableLosesNothing(h: Config, env: Env, granted: seq<string>, st: RunState, decisions: seq<bool>)
    requires Reliable(env) && "" !in h.tools
    ensures var w := Life(h, env, granted, st, decisions);
      && w.lost.messages == 0 && w.lost.steps == 0
      && (w.checkpoint.Some? ==> w.unsaved == NOTHING)
  {
    ReliableRunsOnce(h, env, granted, st, decisions);
    OncePerPauseIff(h, env, granted, st, decisions);
    NoMessageLostIff(h, env, granted, st, decisions);
    forall k, l | 0 <= k < l < |decisions| && Redeems(h, env, granted, st, decisions, k)
                  && Redeems(h, env, granted, st, decisions, l)
      ensures SavedOrIdleAt(At(h, env, granted, st, decisions, k), At(h, env, granted, st, decisions, l))
    {
      assert decisions[l];
    }
    NoStepLostIff(h, env, granted, st, decisions);
    ReliableSaved(h, env, granted, st, decisions);
  }

  lemma {:induction false} LoopSaved(h: Config, env: Env, granted: seq<string>, st: RunState, w: World)
    requires Reliable(env) && w.unsaved == NOTHING
    ensures RunLoop(h, env, granted, st, w).w.unsaved == NOTHING
    decreases h.maxSteps - st.step
  {
    var t := TurnOf(h, env, granted, st, w);
    assert t.w.unsaved == NOTHING;
    if t.outcome.Continue? { LoopSaved(h, env, granted, t.st, t.w); }
  }

  lemma {:induction false} ReliableSaved(h: Config, env: Env, granted: seq<string>, st: RunState, decisions: seq<bool>)
    requires Reliable(env)
    ensures Life(h, env, granted, st, decisions).unsaved == NOTHING
    decreases |decisions|
  {
    if decisions == [] {
      LoopSaved(h, env, granted, st.(granted := granted, status := Running), Fresh);
    } else {
      var n := |decisions| - 1;
      ReliableSaved(h, env, granted, st, decisions[..n]);
      var w := Life(h, env, granted, st, decisions[..n]);
      if decisions[n] && Pending(h, w) {
        var (st1, w1) := Redeem(env, w);
        LoopSaved(h, env, st1.granted, st1.(granted := st1.granted, status := Running), w1);
      }
    }
  }

  // ---------------------------------------------------------------------------------------------
  // A life past the limit

  /** The model asks once for `tool` and then ends its turn; only the first save arrives. */
  function AskThenEnd(tool: string): Env {
    Env(n => Some(if n == 0 then Completion("", "tool_use", tool, "x") else Completion("", "end_turn", "", "")),
        n => "", n => n == 0)
  }

  /** An approved Resume at step 1 of 2, none of whose saves arrives: one more completion, and the
      checkpoint is as it was. */
  lemma ResumeToEnd(h: Config, tool: string, w: World)
    requires h.maxSteps == 2 && Pending(h, w) && w.checkpoint.value.step == 1 && w.asked > 0 && w.attempts > 0
    ensures var w1 := ResumeOf(h, AskThenEnd(tool), w, true);
      && w1.completions == w.completions + 1 && w1.checkpoint == w.checkpoint
      && w1.asked > 0 && w1.attempts > 0
  {
    var env := AskThenEnd(tool);
    var (st, w1) := Redeem(env, w);
    var start := st.(granted := st.granted, status := Running);
    assert TurnOf(h, env, st.granted, start, w1).outcome == Return(None);
  }

  /** With two steps allowed and lost saves, two approvals of one pause complete three times. */
  lemma LostSavesPassTheLimit(h: Config, tool: string)
    requires tool in h.tools && h.tools[tool].requiresApproval && h.maxSteps == 2
    ensures var w := Life(h, AskThenEnd(tool), [tool], NewRun, [true, true]);
      NewRun.step + w.completions == 3 > h.maxSteps
  {
    var env := AskThenEnd(tool);
    PausesOnce(h, tool, env);
    FirstCompletion(h, tool);
    assert [true, true][..1] == [true] && [true][..0] == [];
    ResumeToEnd(h, tool, Life(h, env, [tool], NewRun, []));
    ResumeToEnd(h, tool, Life(h, env, [tool], NewRun, [true]));
  }

  lemma FirstCompletion(h: Config, tool: string)
    requires tool in h.tools && h.tools[tool].requiresApproval && h.maxSteps == 2
    ensures Life(h, AskThenEnd(tool), [tool], NewRun, []).completions == 1
  {
    var env := AskThenEnd(tool);
    var start := NewRun.(granted := [tool]);
    assert TurnOf(h, env, [tool], start, Fresh).outcome == Return(None);
  }
}
