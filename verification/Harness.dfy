/** The agent loop (internal/harness/harness.go): a bounded tool loop with a checkpoint after each
    step and an approval gate that ends Run and is picked up by Resume. */
module Harness {
  import opened Wrappers

  datatype Message = Message(role: string, content: string)

  datatype Status = Running | AwaitingApproval | Done

  datatype RunState = RunState(
    messages: seq<Message>, step: int, status: Status,
    pendingTool: string, pendingInput: string, finalText: string, granted: seq<string>)

  datatype Completion = Completion(text: string, stopReason: string, toolName: string, toolInput: string)

  datatype Tool = Tool(description: string, inputSchema: string, requiresApproval: bool)

  datatype ToolSpec = ToolSpec(name: string, description: string, inputSchema: string)

  /** Tools by name, and the step limit. */
  datatype Config = Config(tools: map<string, Tool>, maxSteps: int)

  datatype Error = MaxSteps | UnknownTool | CompleterFailed | NoCheckpoint | NotPending

  /** Everything outside the loop: the n-th answer of the model, the n-th tool output (a failure is
      an output, too) and whether the n-th save reaches the store. */
  datatype Env = Env(complete: nat -> Option<Completion>, output: nat -> string, saved: nat -> bool)

  datatype Pause = Pause(tool: string, input: string)

  /** A tool execution; `pause` tells which pause the checkpoint held that an approved Resume executed. */
  datatype Exec = Exec(tool: string, input: string, pause: Option<nat>)

  /** Steps taken and messages appended. */
  datatype Tally = Tally(steps: nat, messages: nat)

  const NOTHING := Tally(0, 0)

  /** The checkpoint of one run with the pause it holds, if any, and the histories of what the run
      has done. A pause is on record even when the save that should hold it is lost. `unsaved` is
      what was done since the state that the checkpoint holds; once a Resume goes on from that
      state, it is `lost`. */
  datatype World = World(
    checkpoint: Option<RunState>, held: Option<nat>, saves: seq<RunState>, attempts: nat,
    asked: nat, completions: nat, execs: seq<Exec>, pauses: seq<Pause>, approvals: nat,
    unsaved: Tally, lost: Tally)

  const Fresh := World(None, None, [], 0, 0, 0, [], [], 0, NOTHING, NOTHING)

  function Save(env: Env, w: World, st: RunState, pause: Option<nat>): World {
    var tried := w.(attempts := w.attempts + 1);
    if env.saved(w.attempts)
    then tried.(checkpoint := Some(st), held := pause, saves := w.saves + [st], unsaved := NOTHING)
    else tried
  }

  function Execute(env: Env, st: RunState, w: World, tool: string, input: string, pause: Option<nat>): (RunState,
                   World) {
    var out := Message("tool", "[" + tool + "] " + env.output(|w.execs|));
    (st.(messages := st.messages + [out]),
     w.(execs := w.execs + [Exec(tool, input, pause)],
        unsaved := Tally(w.unsaved.steps, w.unsaved.messages + 1)))
  }

  datatype Outcome = Continue | Return(error: Option<Error>)

  datatype Turn = Turn(st: RunState, w: World, outcome: Outcome)

  function Stop(env: Env, st: RunState, w: World, text: string, error: Option<Error>): Turn {
    var done := st.(status := Done, finalText := text);
    Turn(done, Save(env, w, done, None), Return(error))
  }

  /** What a pass does with the model's answer. */
  function Answer(h: Config, env: Env, granted: seq<string>, st: RunState, w: World, resp: Completion): Turn {
    var name := resp.toolName;
    if resp.stopReason != "tool_use" then Stop(env, st, w, resp.text, None) // end_turn and anything unknown
    else if name !in h.tools || name !in granted then Stop(env, st, w, "", Some(UnknownTool))
    else if h.tools[name].requiresApproval then
      var paused := st.(status := AwaitingApproval, pendingTool := name, pendingInput := resp.toolInput);
      Turn(paused, Save(env, Paused(w, name, resp.toolInput), paused, Some(|w.pauses|)), Return(None))
    else
      var (st1, w1) := Execute(env, st, w, name, resp.toolInput, None);
      Turn(st1, Save(env, w1, st1, None), Continue)
  }

  function Paused(w: World, tool: string, input: string): World {
    w.(pauses := w.pauses + [Pause(tool, input)])
  }

  function Hear(st: RunState, resp: Completion): RunState {
    st.(step := st.step + 1, messages := st.messages + [Message("assistant", resp.text)])
  }

  function Counted(w: World): World {
    w.(asked := w.asked + 1, completions := w.completions + 1,
       unsaved := Tally(w.unsaved.steps + 1, w.unsaved.messages + 1))
  }

  /** One pass of the loop. */
  function TurnOf(h: Config, env: Env, granted: seq<string>, st: RunState, w: World): Turn {
    if st.step >= h.maxSteps then Stop(env, st, w, "", Some(MaxSteps))
    else
      var asked := w.(asked := w.asked + 1);
      var r := env.complete(w.asked);
      if r.None? then Turn(st, asked, Return(Some(CompleterFailed)))
      else
        Answer(h, env, granted, Hear(st, r.value), Counted(w), r.value)
  }

  /** Passes until one returns; each pass that continues has taken a step. */
  function RunLoop(h: Config, env: Env, granted: seq<string>, st: RunState, w: World): (t: Turn)
    ensures t.outcome.Return?
    decreases h.maxSteps - st.step
  {
    var t := TurnOf(h, env, granted, st, w);
    if t.outcome.Continue? then RunLoop(h, env, granted, t.st, t.w) else t
  }

  function RunOf(h: Config, env: Env, granted: seq<string>, st: RunState, w: World): (t: Turn)
    ensures t.outcome.Return?
  {
    RunLoop(h, env, granted, st.(granted := granted, status := Running), w)
  }

  /** An approved Resume finds a tool to execute. */
  predicate Pending(h: Config, w: World) {
    w.checkpoint.Some? && w.checkpoint.value.status == AwaitingApproval && w.checkpoint.value.pendingTool in h.tools
  }

  function Declined(st: RunState): RunState {
    st.(status := Done, finalText := "user declined the tool call; stopping.", pendingTool := "", pendingInput := "")
  }

  function Approved(st: RunState): RunState {
    st.(messages := st.messages + [Message("assistant", "[approved tool " + st.pendingTool + "]")])
  }

  function Cleared(st: RunState): RunState {
    st.(pendingTool := "", pendingInput := "")
  }

  /** The approval: the note is a message, and what the checkpoint does not hold is lost. */
  function Approving(w: World): World {
    w.(approvals := w.approvals + 1, unsaved := Tally(0, 1),
       lost := Tally(w.lost.steps + w.unsaved.steps, w.lost.messages + w.unsaved.messages))
  }

  /** A declined state says no more than the checkpoint did. */
  function SaveDeclined(env: Env, w: World, st: RunState): World {
    Save(env, w, st, None).(unsaved := w.unsaved)
  }

  /** An approved Resume of a pending run up to the point where it re-enters Run. */
  function Redeem(env: Env, w: World): (RunState, World)
    requires w.checkpoint.Some?
  {
    var st := w.checkpoint.value;
    var (st1, w1) := Execute(env, Approved(st), Approving(w), st.pendingTool, st.pendingInput, w.held);
    (Cleared(st1), Save(env, w1, Cleared(st1), None))
  }

  datatype Resumption = Resumption(w: World, st: Option<RunState>, error: Option<Error>)

  /** Resume: what it leaves, the state it returns if any, and its error if any. */
  function Resumed(h: Config, env: Env, w: World, approved: bool): Resumption {
    if w.checkpoint.None? then Resumption(w, None, Some(NoCheckpoint))
    else if w.checkpoint.value.status != AwaitingApproval then Resumption(w, None, Some(NotPending))
    else if !approved || !Pending(h, w) then
      var declined := Declined(w.checkpoint.value);
      Resumption(SaveDeclined(env, w, declined), Some(declined), None)
    else
      var (st, w1) := Redeem(env, w);
      var t := RunOf(h, env, st.granted, st, w1);
      Resumption(t.w, Some(t.st), t.outcome.error)
  }

  function ResumeOf(h: Config, env: Env, w: World, approved: bool): World {
    Resumed(h, env, w, approved).w
  }

  /** One Run of a fresh run and then any number of Resumes. */
  function Life(h: Config, env: Env, granted: seq<string>, st: RunState, decisions: seq<bool>): World {
    if decisions == [] then RunOf(h, env, granted, st, Fresh).w
    else ResumeOf(h, env, Life(h, env, granted, st, decisions[..|decisions| - 1]), decisions[|decisions| - 1])
  }

  // ---------------------------------------------------------------------------------------------
  // The methods

  method Granted(list: seq<string>, name: string) returns (b: bool)
    ensures b == (name in list)
  {
    for i := 0 to |list|
      invariant name !in list[..i]
    {
      if list[i] == name {
        return true;
      }
    }
    return false;
  }

  /** The specs of the granted tools that exist, one per grant entry, in grant order. */
  function SpecsOf(h: Config, granted: seq<string>): seq<ToolSpec> {
    if granted == [] then []
    else
      var n := |granted| - 1;
      SpecsOf(h, granted[..n]) + if granted[n] in h.tools then [SpecOf(h, granted[n])] else []
  }

  function SpecOf(h: Config, name: string): ToolSpec
    requires name in h.tools
  {
    ToolSpec(name, h.tools[name].description, h.tools[name].inputSchema)
  }

  /** What a list of grants shows is what its parts show, in order. */
  lemma {:induction false} SpecsInOrder(h: Config, a: seq<string>, b: seq<string>)
    ensures SpecsOf(h, a + b) == SpecsOf(h, a) + SpecsOf(h, b)
    decreases |b|
  {
    if b == [] {
      assert a + b == a;
    } else {
      var n := |b| - 1;
      SpecsInOrder(h, a, b[..n]);
      assert (a + b)[..|a| + n] == a + b[..n];
    }
  }

  /** The tool list shown to the model names the granted tools that exist, and nothing else. */
  method BuildSpecs(h: Config, granted: seq<string>) returns (specs: seq<ToolSpec>)
    ensures specs == SpecsOf(h, granted)
    ensures forall name, d, i :: ToolSpec(name, d, i) in specs <==>
      name in granted && name in h.tools && d == h.tools[name].description && i == h.tools[name].inputSchema
  {
    specs := [];
    for i := 0 to |granted|
      invariant specs == SpecsOf(h, granted[..i])
      invariant forall name, d, s :: ToolSpec(name, d, s) in specs <==>
        name in granted[..i] && name in h.tools && d == h.tools[name].description && s == h.tools[name].inputSchema
    {
      var name := granted[i];
      assert granted[..i + 1][..i] == granted[..i];
      if name in h.tools {
        specs := specs + [ToolSpec(name, h.tools[name].description, h.tools[name].inputSchema)];
      }
    }
    assert granted[..|granted|] == granted;
  }

  class Loop {
    const h: Config
    const env: Env
    var world: World

    constructor (h: Config, env: Env)
      ensures this.h == h && this.env == env && world == Fresh
    {
      this.h, this.env, world := h, env, Fresh;
    }

    /** The switch on the model's answer. */
    method Respond(state: RunState, granted: seq<string>, resp: Completion) returns (result: RunState, outcome: Outcome)
      modifies this`world
      ensures Turn(result, world, outcome) == Answer(h, env, granted, state, old(world), resp)
    {
      result := state;
      if resp.stopReason == "tool_use" {
        var ok := Granted(granted, resp.toolName);
        if resp.toolName !in h.tools || !ok {
          result := result.(status := Done, finalText := "");
          world := Save(env, world, result, None);
          return result, Return(Some(UnknownTool));
        }
        if h.tools[resp.toolName].requiresApproval {
          result := result.(status := AwaitingApproval, pendingTool := resp.toolName, pendingInput := resp.toolInput);
          world := Save(env, Paused(world, resp.toolName, resp.toolInput), result, Some(|world.pauses|));
          return result, Return(None);
        }
        var (st, w) := Execute(env, result, world, resp.toolName, resp.toolInput, None);
        world := Save(env, w, st, None);
        return st, Continue;
      }
      result := result.(status := Done, finalText := resp.text);
      world := Save(env, world, result, None);
      return result, Return(None);
    }

    method Run(state: RunState, granted: seq<string>) returns (result: RunState, error: Option<Error>)
      modifies this`world
      ensures var t := RunOf(h, env, granted, state, old(world));
        result == t.st && world == t.w && t.outcome == Return(error)
    {
      result := state.(granted := granted, status := Running);
      ghost var target := RunLoop(h, env, granted, result, world);
      while true
        invariant RunLoop(h, env, granted, result, world) == target
        decreases h.maxSteps - result.step
      {
        if result.step >= h.maxSteps {
          result := result.(status := Done, finalText := "");
          world := Save(env, world, result, None);
          return result, Some(MaxSteps);
        }
        var r := env.complete(world.asked);
        if r.None? {
          world := world.(asked := world.asked + 1);
          return result, Some(CompleterFailed);
        }
        world := Counted(world);
        var next, outcome := Respond(Hear(result, r.value), granted, r.value);
        result := next;
        if outcome.Return? {
          return result, outcome.error;
        }
      }
    }

    method Resume(approved: bool) returns (result: Option<RunState>, error: Option<Error>)
      modifies this`world
      ensures Resumption(world, result, error) == Resumed(h, env, old(world), approved)
    {
      if world.checkpoint.None? {
        return None, Some(NoCheckpoint);
      }
      var st := world.checkpoint.value;
      if st.status != AwaitingApproval {
        return None, Some(NotPending);
      }
      if !approved || st.pendingTool !in h.tools {
        st := Declined(st);
        world := SaveDeclined(env, world, st);
        return Some(st), None;
      }
      var held := world.held;
      world := Approving(world);
      var (st1, w1) := Execute(env, Approved(st), world, st.pendingTool, st.pendingInput, held);
      st := Cleared(st1);
      world := Save(env, w1, st, None);
      var final, err := Run(st, st.granted);
      return Some(final), err;
    }
  }
}
