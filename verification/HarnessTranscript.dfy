/** What a transcript says: over every life of a run, whichever saves arrive, the messages are the
    model's answers, the approvals and the outputs of the tools, in the order in which they came
    about and each tool output right behind what asked for it. */
module HarnessTranscript {
  import opened Wrappers
  import opened Harness
  import HarnessCounts

  /** The model answered question n; execution i was approved; execution i was made. */
  datatype Act = Said(n: nat) | Allowed(i: nat) | Ran(i: nat)

  predicate Happened(env: Env, w: World, a: Act) {
    match a
    case Said(n) => n < w.asked && env.complete(n).Some?
    case Allowed(i) => i < |w.execs|
    case Ran(i) => i < |w.execs|
  }

  function Line(env: Env, w: World, a: Act): Message
    requires Happened(env, w, a)
  {
    match a
    case Said(n) => Message("assistant", env.complete(n).value.text)
    case Allowed(i) => Message("assistant", "[approved tool " + w.execs[i].tool + "]")
    case Ran(i) => Message("tool", "[" + w.execs[i].tool + "] " + env.output(i))
  }

  ghost predicate AllHappened(env: Env, w: World, acts: seq<Act>) {
    forall p :: 0 <= p < |acts| ==> Happened(env, w, acts[p])
  }

  function Lines(env: Env, w: World, acts: seq<Act>): seq<Message>
    requires AllHappened(env, w, acts)
  {
    seq(|acts|, p requires 0 <= p < |acts| => Line(env, w, acts[p]))
  }

  /** Answers and executions come in order. */
  predicate Before(a: Act, b: Act) {
    (a.Said? && b.Said? ==> a.n < b.n) && (a.Ran? && b.Ran? ==> a.i < b.i)
  }

  /** What a tool message stands right behind: the approval of that execution, or the answer that
      asked for that tool with that input. */
  predicate Calls(env: Env, w: World, a: Act, b: Act)
    requires Happened(env, w, a) && Happened(env, w, b) && b.Ran?
  {
    match a
    case Said(n) =>
      var r := env.complete(n).value;
      r.stopReason == "tool_use" && w.execs[b.i] == Exec(r.toolName, r.toolInput, None)
    case Allowed(i) => i == b.i
    case Ran(_) => false
  }

  ghost predicate Ordered(env: Env, w: World, acts: seq<Act>)
    requires AllHappened(env, w, acts)
  {
    && (forall p, q :: 0 <= p < q < |acts| ==> Before(acts[p], acts[q]))
    && (forall p :: 0 <= p < |acts| && acts[p].Ran? ==> p > 0 && Calls(env, w, acts[p - 1], acts[p]))
    && (forall p :: 0 <= p < |acts| && acts[p].Allowed? ==> p + 1 < |acts| && acts[p + 1] == Ran(acts[p].i))
  }

  /** The messages are what the run began with and then these acts. */
  ghost predicate Tells(env: Env, base: seq<Message>, w: World, acts: seq<Act>, messages: seq<Message>) {
    AllHappened(env, w, acts) && Ordered(env, w, acts) && messages == base + Lines(env, w, acts)
  }

  /** Nothing is missing: every answer and every execution, approved ones with their approval. */
  ghost predicate Whole(env: Env, w: World, acts: seq<Act>) {
    && (forall n: nat :: n < w.asked && env.complete(n).Some? ==> Said(n) in acts)
    && (forall i: nat :: i < |w.execs| ==> Ran(i) in acts && (w.execs[i].pause.Some? ==> Allowed(i) in acts))
    && |acts| == w.completions + |w.execs| + w.approvals
  }

  /** A loop state tells all that was not lost. */
  ghost predicate LoopTells(env: Env, base: seq<Message>, w: World, st: RunState, acts: seq<Act>) {
    Tells(env, base, w, acts, st.messages) && (w.lost.messages == 0 ==> Whole(env, w, acts))
  }

  /** The checkpoint tells all that was saved and not lost. */
  ghost predicate CheckpointTells(env: Env, base: seq<Message>, w: World, acts: seq<Act>) {
    w.checkpoint.Some? ==>
      && Tells(env, base, w, acts, w.checkpoint.value.messages)
      && (w.lost.messages == 0 && w.unsaved.messages == 0 ==> Whole(env, w, acts))
  }

  // ---------------------------------------------------------------------------------------------
  // One pass

  lemma StillTells(env: Env, base: seq<Message>, w: World, acts: seq<Act>, messages: seq<Message>, w': World)
    requires Tells(env, base, w, acts, messages) && w.execs <= w'.execs && w.asked <= w'.asked
    ensures Tells(env, base, w', acts, messages)
  {
    assert Lines(env, w', acts) == Lines(env, w, acts);
  }

  lemma Appends(env: Env, w: World, acts: seq<Act>, a: Act)
    requires AllHappened(env, w, acts) && Happened(env, w, a)
    ensures AllHappened(env, w, acts + [a]) && Lines(env, w, acts + [a]) == Lines(env, w, acts) + [Line(env, w, a)]
  {}

  lemma AnswerTold(env: Env, base: seq<Message>, w: World, st: RunState, acts: seq<Act>)
    requires LoopTells(env, base, w, st, acts) && env.complete(w.asked).Some?
    ensures LoopTells(env, base, Counted(w), Hear(st, env.complete(w.asked).value), acts + [Said(w.asked)])
  {
    var w1, a := Counted(w), Said(w.asked);
    StillTells(env, base, w, acts, st.messages, w1);
    Appends(env, w1, acts, a);
    assert forall p :: 0 <= p < |acts| ==> acts[p] != a;
    if w.lost.messages == 0 { WholeStill(env, w, acts, w1, [a]); }
  }

  lemma WholeStill(env: Env, w: World, acts: seq<Act>, w': World, more: seq<Act>)
    requires Whole(env, w, acts) && w.execs <= w'.execs
    requires forall n: nat :: w.asked <= n < w'.asked && env.complete(n).Some? ==> Said(n) in more
    requires forall i: nat :: |w.execs| <= i < |w'.execs| ==>
      Ran(i) in more && (w'.execs[i].pause.Some? ==> Allowed(i) in more)
    requires |acts| + |more| == w'.completions + |w'.execs| + w'.approvals
    ensures Whole(env, w', acts + more)
  {}

  lemma OutputTold(env: Env, base: seq<Message>, w: World, st: RunState, acts: seq<Act>, n: nat)
    requires LoopTells(env, base, w, st, acts) && acts != [] && acts[|acts| - 1] == Said(n)
    requires env.complete(n).value.stopReason == "tool_use"
    ensures var r := env.complete(n).value; var (st1, w1) := Execute(env, st, w, r.toolName, r.toolInput, None);
      LoopTells(env, base, w1, st1, acts + [Ran(|w.execs|)])
  {
    var r, a := env.complete(n).value, Ran(|w.execs|);
    var (st1, w1) := Execute(env, st, w, r.toolName, r.toolInput, None);
    StillTells(env, base, w, acts, st.messages, w1);
    Appends(env, w1, acts, a);
    assert Calls(env, w1, acts[|acts| - 1], a);
    OrderedMore(env, w1, acts, a);
    if w.lost.messages == 0 { WholeStill(env, w, acts, w1, [a]); }
  }

  lemma OrderedMore(env: Env, w: World, acts: seq<Act>, a: Act)
    requires AllHappened(env, w, acts) && Happened(env, w, a) && Ordered(env, w, acts) && a.Ran?
    requires acts != [] && Calls(env, w, acts[|acts| - 1], a)
    requires forall p :: 0 <= p < |acts| ==> Before(acts[p], a)
    ensures AllHappened(env, w, acts + [a]) && Ordered(env, w, acts + [a])
  {}

  /** A save that arrives makes the checkpoint tell what the loop state tells. */
  lemma SaveTold(env: Env, base: seq<Message>, w: World, st: RunState, acts: seq<Act>, saved: seq<Act>,
                 pause: Option<nat>)
    requires LoopTells(env, base, w, st, acts) && CheckpointTells(env, base, w, saved)
    ensures var w1 := Save(env, w, st, pause);
      && LoopTells(env, base, w1, st, acts)
      && CheckpointTells(env, base, w1, if env.saved(w.attempts) then acts else saved)
  {
    var w1 := Save(env, w, st, pause);
    StillTells(env, base, w, acts, st.messages, w1);
    if w.checkpoint.Some? { StillTells(env, base, w, saved, w.checkpoint.value.messages, w1); }
  }

  /** Until then the checkpoint tells what it told. */
  lemma CheckpointStill(env: Env, base: seq<Message>, w: World, saved: seq<Act>, w': World)
    requires CheckpointTells(env, base, w, saved) && w'.checkpoint == w.checkpoint
    requires w.execs <= w'.execs && w.asked <= w'.asked && w'.unsaved.messages > 0
    ensures CheckpointTells(env, base, w', saved)
  {
    if w.checkpoint.Some? { StillTells(env, base, w, saved, w.checkpoint.value.messages, w'); }
  }

  lemma RespondTold(h: Config, env: Env, base: seq<Message>, granted: seq<string>, st: RunState, w: World, n: nat,
                    acts: seq<Act>, saved: seq<Act>)
    returns (acts1: seq<Act>, saved1: seq<Act>)
    requires LoopTells(env, base, w, st, acts) && CheckpointTells(env, base, w, saved)
    requires acts != [] && acts[|acts| - 1] == Said(n)
    ensures var t := Answer(h, env, granted, st, w, env.complete(n).value);
      LoopTells(env, base, t.w, t.st, acts1) && CheckpointTells(env, base, t.w, saved1)
  {
    var resp := env.complete(n).value;
    var name := resp.toolName;
    var to, from, pause := st, w, None;
    acts1 := acts;
    if resp.stopReason != "tool_use" {
      to := st.(status := Done, finalText := resp.text);
    } else if name !in h.tools || name !in granted {
      to := st.(status := Done, finalText := "");
    } else if h.tools[name].requiresApproval {
      to := st.(status := AwaitingApproval, pendingTool := name, pendingInput := resp.toolInput);
      from, pause := Paused(w, name, resp.toolInput), Some(|w.pauses|);
      StillTells(env, base, w, acts, st.messages, from);
      if w.checkpoint.Some? { StillTells(env, base, w, saved, w.checkpoint.value.messages, from); }
    } else {
      var (st1, w1) := Execute(env, st, w, name, resp.toolInput, None);
      OutputTold(env, base, w, st, acts, n);
      CheckpointStill(env, base, w, saved, w1);
      to, from, acts1 := st1, w1, acts + [Ran(|w.execs|)];
    }
    SaveTold(env, base, from, to, acts1, saved, pause);
    saved1 := if env.saved(from.attempts) then acts1 else saved;
  }

  lemma TurnTold(h: Config, env: Env, base: seq<Message>, granted: seq<string>, st: RunState, w: World,
                 acts: seq<Act>, saved: seq<Act>)
    returns (acts1: seq<Act>, saved1: seq<Act>)
    requires LoopTells(env, base, w, st, acts) && CheckpointTells(env, base, w, saved)
    ensures var t := TurnOf(h, env, granted, st, w);
      LoopTells(env, base, t.w, t.st, acts1) && CheckpointTells(env, base, t.w, saved1)
  {
    if st.step >= h.maxSteps {
      SaveTold(env, base, w, st.(status := Done, finalText := ""), acts, saved, None);
      acts1, saved1 := acts, if env.saved(w.attempts) then acts else saved;
    } else if env.complete(w.asked).Some? {
      AnswerTold(env, base, w, st, acts);
      CheckpointStill(env, base, w, saved, Counted(w));
      acts1, saved1 := RespondTold(h, env, base, granted, Hear(st, env.complete(w.asked).value), Counted(w), w.asked,
                                   acts + [Said(w.asked)], saved);
    } else {
      var asked := w.(asked := w.asked + 1);
      StillTells(env, base, w, acts, st.messages, asked);
      if w.checkpoint.Some? { StillTells(env, base, w, saved, w.checkpoint.value.messages, asked); }
      acts1, saved1 := acts, saved;
    }
  }

  /** The loop, from any state of any world whose transcripts are told. */
  lemma {:induction false} LoopTold(h: Config, env: Env, base: seq<Message>, granted: seq<string>, st: RunState,
                                    w: World, acts: seq<Act>, saved: seq<Act>)
    returns (acts1: seq<Act>, saved1: seq<Act>)
    requires LoopTells(env, base, w, st, acts) && CheckpointTells(env, base, w, saved)
    ensures var t := RunLoop(h, env, granted, st, w);
      LoopTells(env, base, t.w, t.st, acts1) && CheckpointTells(env, base, t.w, saved1)
    decreases h.maxSteps - st.step
  {
    acts1, saved1 := TurnTold(h, env, base, granted, st, w, acts, saved);
    var t := TurnOf(h, env, granted, st, w);
    if t.outcome.Continue? { acts1, saved1 := LoopTold(h, env, base, granted, t.st, t.w, acts1, saved1); }
  }

  /** A Run of a fresh run: the state it returns tells everything that happened. */
  lemma RunTold(h: Config, env: Env, granted: seq<string>, st: RunState) returns (acts: seq<Act>, saved: seq<Act>)
    ensures var t := RunOf(h, env, granted, st, Fresh);
      && Tells(env, st.messages, t.w, acts, t.st.messages) && Whole(env, t.w, acts)
      && CheckpointTells(env, st.messages, t.w, saved)
  {
    var start := st.(granted := granted, status := Running);
    assert LoopTells(env, st.messages, Fresh, start, []);
    acts, saved := LoopTold(h, env, st.messages, granted, start, Fresh, [], []);
    HarnessCounts.LoopLosesNothing(h, env, granted, start, Fresh);
  }

  // ---------------------------------------------------------------------------------------------
  // Resumes and lives

  /** The approval and the output it led to. */
  lemma ApprovalTold(env: Env, base: seq<Message>, w: World, saved: seq<Act>)
    requires CheckpointTells(env, base, w, saved) && w.checkpoint.Some?
    ensures var st := w.checkpoint.value;
      var (st1, w1) := Execute(env, Approved(st), Approving(w), st.pendingTool, st.pendingInput, w.held);
      LoopTells(env, base, w1, Cleared(st1), saved + [Allowed(|w.execs|), Ran(|w.execs|)])
  {
    var st, a, b := w.checkpoint.value, Allowed(|w.execs|), Ran(|w.execs|);
    var (st1, w1) := Execute(env, Approved(st), Approving(w), st.pendingTool, st.pendingInput, w.held);
    StillTells(env, base, w, saved, st.messages, w1);
    Appends(env, w1, saved, a);
    Appends(env, w1, saved + [a], b);
    assert saved + [a] + [b] == saved + [a, b];
    OrderedPair(env, w1, saved, a, b);
    if w1.lost.messages == 0 { WholeStill(env, w, saved, w1, [a, b]); }
  }

  lemma OrderedPair(env: Env, w: World, acts: seq<Act>, a: Act, b: Act)
    requires AllHappened(env, w, acts) && Happened(env, w, a) && Happened(env, w, b) && Ordered(env, w, acts)
    requires a.Allowed? && b == Ran(a.i) && forall p :: 0 <= p < |acts| ==> Before(acts[p], b)
    ensures AllHappened(env, w, acts + [a, b]) && Ordered(env, w, acts + [a, b])
  {}

  /** A Resume: what its checkpoint tells, and what the state tells that it returns. */
  lemma ResumeTold(h: Config, env: Env, base: seq<Message>, w: World, approved: bool, saved: seq<Act>)
    returns (acts1: seq<Act>, saved1: seq<Act>)
    requires CheckpointTells(env, base, w, saved)
    ensures CheckpointTells(env, base, ResumeOf(h, env, w, approved), saved1)
    ensures var r := Resumed(h, env, w, approved);
      && (r.st.Some? ==> Tells(env, base, r.w, acts1, r.st.value.messages))
      && (approved && Pending(h, w) ==> LoopTells(env, base, r.w, r.st.value, acts1))
  {
    acts1, saved1 := saved, saved;
    if approved && Pending(h, w) {
      var st := w.checkpoint.value;
      var (st1, w1) := Execute(env, Approved(st), Approving(w), st.pendingTool, st.pendingInput, w.held);
      ApprovalTold(env, base, w, saved);
      CheckpointStill(env, base, w, saved, w1);
      acts1 := saved + [Allowed(|w.execs|), Ran(|w.execs|)];
      SaveTold(env, base, w1, Cleared(st1), acts1, saved, None);
      var (st2, w2) := Redeem(env, w);
      acts1, saved1 := LoopTold(h, env, base, st2.granted, st2.(granted := st2.granted, status := Running), w2,
                                acts1, if env.saved(w1.attempts) then acts1 else saved);
    } else if w.checkpoint.Some? {
      StillTells(env, base, w, saved, w.checkpoint.value.messages, ResumeOf(h, env, w, approved));
    }
  }

  /** Over every life: the checkpoint's transcript is what the run began with and then acts of the
      run, in order; and all of them if nothing is unsaved or lost. */
  lemma {:induction false} LifeTold(h: Config, env: Env, granted: seq<string>, st: RunState, decisions: seq<bool>)
    returns (saved: seq<Act>)
    ensures CheckpointTells(env, st.messages, Life(h, env, granted, st, decisions), saved)
    decreases |decisions|
  {
    if decisions == [] {
      var acts;
      acts, saved := RunTold(h, env, granted, st);
    } else {
      var n := |decisions| - 1;
      saved := LifeTold(h, env, granted, st, decisions[..n]);
      var acts;
      acts, saved := ResumeTold(h, env, st.messages, Life(h, env, granted, st, decisions[..n]), decisions[n], saved);
    }
  }

  // ---------------------------------------------------------------------------------------------
  // How a Run ends

  /** The answer to the last question asked. */
  function Last(env: Env, w: World): Option<Completion> {
    if w.asked == 0 then None else env.complete(w.asked - 1)
  }

  /** A Run without error ended at an answer that asks for an approval, or at one that asks for no tool. */
  ghost predicate EndsWell(h: Config, env: Env, granted: seq<string>, st: RunState, w: World) {
    && Last(env, w).Some?
    && var r := Last(env, w).value;
       if st.status == AwaitingApproval then
         && r.stopReason == "tool_use" && r.toolName in h.tools && r.toolName in granted
         && h.tools[r.toolName].requiresApproval
         && st.pendingTool == r.toolName && st.pendingInput == r.toolInput
       else
         r.stopReason != "tool_use" && st.status == Done && st.finalText == r.text
  }

  /** Why the loop returned what it returned; the store has that unless the last save failed. */
  ghost predicate Ends(h: Config, env: Env, granted: seq<string>, t: Turn)
    requires t.outcome.Return?
  {
    && (t.outcome.error != Some(CompleterFailed) ==>
          t.w.attempts > 0 && (env.saved(t.w.attempts - 1) ==> t.w.checkpoint == Some(t.st)))
    && match t.outcome.error
       case None => EndsWell(h, env, granted, t.st, t.w)
       case Some(MaxSteps) => t.st.step >= h.maxSteps && t.st.status == Done && t.st.finalText == ""
       case Some(UnknownTool) =>
         && Last(env, t.w).Some? && Last(env, t.w).value.stopReason == "tool_use"
         && (Last(env, t.w).value.toolName !in h.tools || Last(env, t.w).value.toolName !in granted)
         && t.st.status == Done && t.st.finalText == ""
       case Some(CompleterFailed) => t.w.asked > 0 && Last(env, t.w).None? && t.st.status == Running
       case Some(_) => false
  }

  /** A pass that goes on has executed a granted tool that needs no approval, and saved. */
  lemma TurnEnds(h: Config, env: Env, granted: seq<string>, st: RunState, w: World)
    requires st.status == Running
    ensures var t := TurnOf(h, env, granted, st, w);
      && (t.outcome.Return? ==> Ends(h, env, granted, t))
      && (t.outcome.Continue? ==>
            && Last(env, t.w).Some? && Last(env, t.w).value.stopReason == "tool_use"
            && Last(env, t.w).value.toolName in h.tools && Last(env, t.w).value.toolName in granted
            && !h.tools[Last(env, t.w).value.toolName].requiresApproval
            && |t.w.execs| == |w.execs| + 1 && t.st.status == Running
            && (env.saved(t.w.attempts - 1) ==> t.w.checkpoint == Some(t.st)))
  {}

  lemma {:induction false} LoopEnds(h: Config, env: Env, granted: seq<string>, st: RunState, w: World)
    requires st.status == Running
    ensures Ends(h, env, granted, RunLoop(h, env, granted, st, w))
    decreases h.maxSteps - st.step
  {
    TurnEnds(h, env, granted, st, w);
    var t := TurnOf(h, env, granted, st, w);
    if t.outcome.Continue? { LoopEnds(h, env, granted, t.st, t.w); }
  }

  /** Every Run returns for one of five reasons, each with what the state then says: the final text is
      the text of the last answer exactly if it returns without error and without a pause. */
  lemma RunEnds(h: Config, env: Env, granted: seq<string>, st: RunState, w: World)
    ensures Ends(h, env, granted, RunOf(h, env, granted, st, w))
  {
    LoopEnds(h, env, granted, st.(granted := granted, status := Running), w);
  }

  /** A declined Resume executes nothing, adds nothing to the transcript and, once saved, is final. */
  lemma DeclinedIsFinal(h: Config, env: Env, w: World, again: bool)
    requires w.checkpoint.Some? && w.checkpoint.value.status == AwaitingApproval
    ensures var r := Resumed(h, env, w, false);
      && r.error == None && r.st.Some? && r.st.value.status == Done && r.st.value.finalText == DECLINED
      && r.st.value.messages == w.checkpoint.value.messages
      && r.w.execs == w.execs && r.w.asked == w.asked
      && (env.saved(w.attempts) ==>
            && r.w.checkpoint == r.st && Resumed(h, env, r.w, again) == Resumption(r.w, None, Some(NotPending)))
      && (!env.saved(w.attempts) ==> r.w.checkpoint == w.checkpoint)
  {}

  const DECLINED := "user declined the tool call; stopping."
}
