/** Runs and Resumes of one run that overlap: loads, executions and saves as separate steps, in any
    order, with any saves lost. A call carries its own copy of the run state, as in the source. */
module HarnessOverlap {
  import opened Wrappers
  import opened Harness
  import opened HarnessLife

  datatype Call =
    | Loaded(st: RunState, pause: Option<nat>)                // approved Resume, about to execute
    | Saving(st: RunState, pause: Option<nat>, goesOn: bool)  // about to save, and to loop or return
    | Looping(st: RunState)                                   // about to ask the model
    | Ended

  /** An approved Resume that found a tool: the pause it loaded, and how many saves had arrived. */
  datatype Load = Load(pause: Option<nat>, arrived: nat)

  /** `landed` collects the pauses whose save was tried; `loads` is the history of approved loads. */
  datatype State = State(
    checkpoint: Option<RunState>, held: Option<nat>, arrived: nat, landed: set<nat>,
    calls: seq<Call>, pauses: seq<Pause>, execs: seq<Exec>, loads: seq<Load>, completions: nat)

  datatype Event =
    | Resume(approved: bool)
    | Execute(c: nat, output: string)
    | Save(c: nat, arrives: bool)
    | Pass(c: nat, answer: Option<Completion>, output: string)

  function Initial(st: RunState): State {
    State(None, None, 0, {}, [Looping(st.(status := Running))], [], [], [], 0)
  }

  function Told(st: RunState, tool: string, output: string): RunState {
    st.(messages := st.messages + [Message("tool", "[" + tool + "] " + output)])
  }

  function Set(s: State, c: nat, call: Call): State
    requires c < |s.calls|
  {
    s.(calls := s.calls[c := call])
  }

  predicate Waiting(h: Config, s: State) {
    s.checkpoint.Some? && s.checkpoint.value.status == AwaitingApproval && s.checkpoint.value.pendingTool in h.tools
  }

  function OnResume(h: Config, s: State, approved: bool): State {
    if s.checkpoint.None? || s.checkpoint.value.status != AwaitingApproval then s.(calls := s.calls + [Ended])
    else if !approved || !Waiting(h, s) then s.(calls := s.calls + [Saving(Declined(s.checkpoint.value), None, false)])
    else s.(calls := s.calls + [Loaded(s.checkpoint.value, s.held)], loads := s.loads + [Load(s.held, s.arrived)])
  }

  function OnExecute(s: State, c: nat, output: string): State
    requires c < |s.calls| && s.calls[c].Loaded?
  {
    var st := s.calls[c].st;
    var next := Saving(Cleared(Told(Approved(st), st.pendingTool, output)), None, true);
    Set(s, c, next).(execs := s.execs + [Exec(st.pendingTool, st.pendingInput, s.calls[c].pause)])
  }

  function OnSave(s: State, c: nat, arrives: bool): State
    requires c < |s.calls| && s.calls[c].Saving?
  {
    var call := s.calls[c];
    var t := Set(s, c, if call.goesOn then Looping(call.st.(status := Running)) else Ended)
             .(landed := if call.pause.Some? then s.landed + {call.pause.value} else s.landed);
    if arrives then t.(checkpoint := Some(call.st), held := call.pause, arrived := s.arrived + 1) else t
  }

  function Completed(s: State): State {
    s.(completions := s.completions + 1)
  }

  function OnAnswer(h: Config, s: State, c: nat, st: RunState, resp: Completion, output: string): State
    requires c < |s.calls|
  {
    var name := resp.toolName;
    if resp.stopReason != "tool_use" then Set(s, c, Saving(st.(status := Done, finalText := resp.text), None, false))
    else if name !in h.tools || name !in st.granted then Set(s, c, Saving(st.(status := Done, finalText := ""), None, false))
    else if h.tools[name].requiresApproval then
      var paused := st.(status := AwaitingApproval, pendingTool := name, pendingInput := resp.toolInput);
      Set(s, c, Saving(paused, Some(|s.pauses|), false)).(pauses := s.pauses + [Pause(name, resp.toolInput)])
    else
      Set(s, c, Saving(Told(st, name, output), None, true)).(execs := s.execs + [Exec(name, resp.toolInput, None)])
  }

  function Step(h: Config, s: State, e: Event): Option<State> {
    match e
    case Resume(approved) => Some(OnResume(h, s, approved))
    case Execute(c, output) => if c < |s.calls| && s.calls[c].Loaded? then Some(OnExecute(s, c, output)) else None
    case Save(c, arrives) => if c < |s.calls| && s.calls[c].Saving? then Some(OnSave(s, c, arrives)) else None
    case Pass(c, answer, output) =>
      if c < |s.calls| && s.calls[c].Looping? then
        var st := s.calls[c].st;
        Some(if st.step >= h.maxSteps then Set(s, c, Saving(st.(status := Done, finalText := ""), None, false))
             else if answer.None? then Set(s, c, Ended)
             else OnAnswer(h, Completed(s), c, Hear(st, answer.value), answer.value, output))
      else None
  }

  ghost predicate Linked(h: Config, ss: seq<State>, es: seq<Event>, i: nat)
    requires i < |es| < |ss|
  {
    Step(h, ss[i], es[i]) == Some(ss[i + 1])
  }

  ghost predicate Run(h: Config, st: RunState, ss: seq<State>, es: seq<Event>) {
    |ss| == |es| + 1 && ss[0] == Initial(st) && forall i :: 0 <= i < |es| ==> Linked(h, ss, es, i)
  }

  // ---------------------------------------------------------------------------------------------
  // Grants and approvals

  /** A state that awaits a tool goes with the pause that asked for it. */
  ghost predicate Matches(granted: seq<string>, pauses: seq<Pause>, st: RunState, pause: Option<nat>) {
    && st.granted == granted
    && (st.status == AwaitingApproval && st.pendingTool != "" ==>
          && pause.Some? && pause.value < |pauses| && st.pendingTool in granted
          && pauses[pause.value] == Pause(st.pendingTool, st.pendingInput))
  }

  ghost predicate CallOk(h: Config, granted: seq<string>, pauses: seq<Pause>, call: Call) {
    match call
    case Loaded(st, pause) =>
      Matches(granted, pauses, st, pause) && st.status == AwaitingApproval && st.pendingTool in h.tools
    case Saving(st, pause, goesOn) => Matches(granted, pauses, st, pause) && (goesOn ==> pause.None?)
    case Looping(st) => st.granted == granted && st.status == Running
    case Ended => true
  }

  ghost predicate GrantsOk(h: Config, granted: seq<string>, s: State) {
    && (s.checkpoint.Some? ==> Matches(granted, s.pauses, s.checkpoint.value, s.held))
    && (forall c :: 0 <= c < |s.calls| ==> CallOk(h, granted, s.pauses, s.calls[c]))
    && (forall i :: 0 <= i < |s.execs| ==> ExecOk(h, granted, s.pauses, s.execs[i]))
  }

  /** One call moved, and at most one pause and one execution were added. */
  lemma GrantsMove(h: Config, granted: seq<string>, s: State, c: nat, t: State)
    requires GrantsOk(h, granted, s) && c < |t.calls| && s.pauses <= t.pauses && s.execs <= t.execs
    requires forall d :: 0 <= d < |t.calls| && d != c ==> d < |s.calls| && t.calls[d] == s.calls[d]
    requires CallOk(h, granted, t.pauses, t.calls[c])
    requires |t.execs| <= |s.execs| + 1
    requires |t.execs| > |s.execs| ==> ExecOk(h, granted, t.pauses, t.execs[|s.execs|])
    requires t.checkpoint.Some? ==> Matches(granted, t.pauses, t.checkpoint.value, t.held)
    ensures GrantsOk(h, granted, t)
  {
    forall d | 0 <= d < |t.calls| ensures CallOk(h, granted, t.pauses, t.calls[d]) {
      var call := t.calls[d];
      if d != c { assert call == s.calls[d] && CallOk(h, granted, s.pauses, s.calls[d]); }
    }
    forall i | 0 <= i < |t.execs| ensures ExecOk(h, granted, t.pauses, t.execs[i]) {
      if i < |s.execs| { assert ExecOk(h, granted, s.pauses, s.execs[i]) && t.execs[i] == s.execs[i]; }
    }
  }

  lemma GrantsAnswer(h: Config, granted: seq<string>, s: State, c: nat, st: RunState, resp: Completion, output: string)
    requires GrantsOk(h, granted, s) && c < |s.calls| && st.granted == granted && st.status == Running
    ensures GrantsOk(h, granted, OnAnswer(h, s, c, st, resp, output))
  {
    GrantsMove(h, granted, s, c, OnAnswer(h, s, c, st, resp, output));
  }

  lemma GrantsStep(h: Config, granted: seq<string>, s: State, e: Event, t: State)
    requires GrantsOk(h, granted, s) && Step(h, s, e) == Some(t) && "" !in h.tools
    ensures GrantsOk(h, granted, t)
  {
    match e
    case Resume(_) => GrantsMove(h, granted, s, |s.calls|, t);
    case Execute(c, output) =>
      assert CallOk(h, granted, s.pauses, s.calls[c]);
      GrantsMove(h, granted, s, c, t);
    case Save(c, _) =>
      assert CallOk(h, granted, s.pauses, s.calls[c]);
      GrantsMove(h, granted, s, c, t);
    case Pass(c, answer, output) =>
      assert CallOk(h, granted, s.pauses, s.calls[c]);
      var st := s.calls[c].st;
      if st.step < h.maxSteps && answer.Some? {
        GrantsAnswer(h, granted, Completed(s), c, Hear(st, answer.value), answer.value, output);
      } else {
        GrantsMove(h, granted, s, c, t);
      }
  }

  // ---------------------------------------------------------------------------------------------
  // Counting executions by pause

  function Count(xs: seq<Option<nat>>, p: nat): nat {
    if xs == [] then 0 else Count(xs[..|xs| - 1], p) + if xs[|xs| - 1] == Some(p) then 1 else 0
  }

  lemma CountPush(xs: seq<Option<nat>>, x: Option<nat>, p: nat)
    ensures Count(xs + [x], p) == Count(xs, p) + if x == Some(p) then 1 else 0
  {
    assert (xs + [x])[..|xs|] == xs;
  }

  lemma {:induction false} CountSet(xs: seq<Option<nat>>, c: nat, x: Option<nat>, p: nat)
    requires c < |xs|
    ensures Count(xs[c := x], p) + (if xs[c] == Some(p) then 1 else 0) == Count(xs, p) + (if x == Some(p) then 1 else 0)
    decreases |xs|
  {
    var n := |xs| - 1;
    if c < n {
      CountSet(xs[..n], c, x, p);
      assert xs[c := x][..n] == xs[..n][c := x];
    } else {
      assert xs[c := x][..n] == xs[..n];
    }
  }

  ghost predicate Distinct(xs: seq<Option<nat>>) {
    forall i, j :: 0 <= i < j < |xs| && xs[i].Some? ==> xs[i] != xs[j]
  }

  /** No pause is listed twice exactly if each is counted at most once. */
  lemma {:induction false} DistinctIff(xs: seq<Option<nat>>)
    ensures Distinct(xs) <==> forall p :: Count(xs, p) <= 1
  {
    if Distinct(xs) {
      forall p ensures Count(xs, p) <= 1 { CountOne(xs, p); }
    } else {
      var i, j :| 0 <= i < j < |xs| && xs[i].Some? && xs[i] == xs[j];
      CountTwo(xs, i, j);
    }
  }

  lemma {:induction false} CountSome(xs: seq<Option<nat>>, p: nat)
    ensures Count(xs, p) >= 1 <==> Some(p) in xs
  {
    if xs != [] {
      CountSome(xs[..|xs| - 1], p);
      assert xs == xs[..|xs| - 1] + [xs[|xs| - 1]];
    }
  }

  lemma {:induction false} CountTwo(xs: seq<Option<nat>>, i: nat, j: nat)
    requires i < j < |xs| && xs[i].Some? && xs[i] == xs[j]
    ensures Count(xs, xs[i].value) >= 2
    decreases |xs|
  {
    var n := |xs| - 1;
    if j < n {
      CountTwo(xs[..n], i, j);
    } else {
      CountSome(xs[..n], xs[i].value);
      assert xs[..n][i] == xs[i];
    }
  }

  lemma {:induction false} CountOne(xs: seq<Option<nat>>, p: nat)
    requires Distinct(xs)
    ensures Count(xs, p) <= 1
    decreases |xs|
  {
    if xs != [] {
      var n := |xs| - 1;
      CountOne(xs[..n], p);
      CountSome(xs[..n], p);
      assert xs[n] == Some(p) ==> Some(p) !in xs[..n];
    }
  }

  function ExecLabels(s: State): seq<Option<nat>> {
    seq(|s.execs|, i requires 0 <= i < |s.execs| => s.execs[i].pause)
  }

  function Label(call: Call): Option<nat> {
    if call.Loaded? then call.pause else None
  }

  function CallLabels(s: State): seq<Option<nat>> {
    seq(|s.calls|, i requires 0 <= i < |s.calls| => Label(s.calls[i]))
  }

  function LoadLabels(s: State): seq<Option<nat>> {
    seq(|s.loads|, i requires 0 <= i < |s.loads| => s.loads[i].pause)
  }

  /** Each load of a pause has executed it, or is about to. */
  ghost predicate Balanced(s: State, p: nat) {
    Count(ExecLabels(s), p) + Count(CallLabels(s), p) == Count(LoadLabels(s), p)
  }

  lemma BalancedResume(h: Config, s: State, approved: bool, p: nat)
    requires Balanced(s, p)
    ensures Balanced(OnResume(h, s, approved), p)
  {
    var t := OnResume(h, s, approved);
    var call := t.calls[|s.calls|];
    assert ExecLabels(t) == ExecLabels(s) && CallLabels(t) == CallLabels(s) + [Label(call)];
    CountPush(CallLabels(s), Label(call), p);
    if call.Loaded? {
      assert LoadLabels(t) == LoadLabels(s) + [s.held];
      CountPush(LoadLabels(s), s.held, p);
    } else {
      assert LoadLabels(t) == LoadLabels(s);
    }
  }

  /** A call moves on; a labelled execution takes the label off the call. */
  lemma BalancedMove(s: State, c: nat, t: State, p: nat)
    requires Balanced(s, p) && c < |s.calls| && |t.calls| == |s.calls| && t.calls == s.calls[c := t.calls[c]]
    requires t.loads == s.loads && Label(t.calls[c]).None?
    requires
      || (t.execs == s.execs && Label(s.calls[c]).None?)
      || (|t.execs| == |s.execs| + 1 && s.execs <= t.execs && t.execs[|s.execs|].pause == Label(s.calls[c]))
    ensures Balanced(t, p)
  {
    assert LoadLabels(t) == LoadLabels(s);
    assert CallLabels(t) == CallLabels(s)[c := None];
    CountSet(CallLabels(s), c, None, p);
    if t.execs == s.execs {
      assert ExecLabels(t) == ExecLabels(s);
    } else {
      assert ExecLabels(t) == ExecLabels(s) + [Label(s.calls[c])];
      CountPush(ExecLabels(s), Label(s.calls[c]), p);
    }
  }

  lemma BalancedStep(h: Config, s: State, e: Event, t: State, p: nat)
    requires Balanced(s, p) && Step(h, s, e) == Some(t)
    ensures Balanced(t, p)
  {
    match e
    case Resume(approved) => BalancedResume(h, s, approved, p);
    case Execute(c, _) => BalancedMove(s, c, t, p);
    case Save(c, _) => BalancedMove(s, c, t, p);
    case Pass(c, _, _) => BalancedMove(s, c, t, p);
  }

  // ---------------------------------------------------------------------------------------------
  // A pause is held from one save on until the next

  /** Every pause is saved by one call, once. */
  ghost predicate Fresh(s: State, call: Call) {
    call.Saving? && call.pause.Some? ==> call.pause.value < |s.pauses| && call.pause.value !in s.landed
  }

  ghost predicate SavedOnce(s: State) {
    && (forall c :: 0 <= c < |s.calls| ==> Fresh(s, s.calls[c]))
    && (forall c, d :: 0 <= c < d < |s.calls| && s.calls[c].Saving? && s.calls[d].Saving? && s.calls[c].pause.Some? ==>
          s.calls[c].pause != s.calls[d].pause)
    && (forall q :: q in s.landed ==> q < |s.pauses|)
    && (s.held.Some? ==> s.held.value in s.landed)
  }

  lemma SavedOnceStep(h: Config, s: State, e: Event, t: State)
    requires SavedOnce(s) && Step(h, s, e) == Some(t)
    ensures SavedOnce(t)
  {
    match e
    case Resume(approved) => SavedOnceResume(h, s, approved);
    case Execute(c, _) => SavedOnceMove(s, c, t);
    case Save(c, arrives) => SavedOnceSave(s, c, arrives);
    case Pass(c, _, _) => SavedOnceMove(s, c, t);
  }

  lemma SavedOnceResume(h: Config, s: State, approved: bool)
    requires SavedOnce(s)
    ensures SavedOnce(OnResume(h, s, approved))
  {
    var t := OnResume(h, s, approved);
    forall d | 0 <= d < |t.calls| ensures Fresh(t, t.calls[d]) {
      if d < |s.calls| { assert t.calls[d] == s.calls[d] && Fresh(s, s.calls[d]); }
    }
    assert forall d :: 0 <= d < |s.calls| ==> t.calls[d] == s.calls[d];
    assert t.calls[|s.calls|].Saving? ==> t.calls[|s.calls|].pause.None?;
  }

  lemma SavedOnceSave(s: State, c: nat, arrives: bool)
    requires SavedOnce(s) && c < |s.calls| && s.calls[c].Saving?
    ensures SavedOnce(OnSave(s, c, arrives))
  {
    var t := OnSave(s, c, arrives);
    assert Fresh(s, s.calls[c]);
    assert forall d :: 0 <= d < |t.calls| && d != c ==> t.calls[d] == s.calls[d];
    forall d | 0 <= d < |t.calls| ensures Fresh(t, t.calls[d]) {
      if d != c {
        assert Fresh(s, s.calls[d]);
        if s.calls[c].pause.Some? { Apart(s, c, d); }
      }
    }
  }

  /** Two calls that are about to save have different pauses to save. */
  lemma Apart(s: State, c: nat, d: nat)
    requires SavedOnce(s) && c < |s.calls| && d < |s.calls| && c != d && s.calls[c].Saving? && s.calls[c].pause.Some?
    ensures s.calls[d].Saving? ==> s.calls[d].pause != s.calls[c].pause
  {}

  lemma SavedOnceMove(s: State, c: nat, t: State)
    requires SavedOnce(s) && c < |s.calls| && |t.calls| == |s.calls| && t.calls == s.calls[c := t.calls[c]]
    requires t.landed == s.landed && t.held == s.held && s.pauses <= t.pauses
    requires t.calls[c].Saving? && t.calls[c].pause.Some? ==>
      t.calls[c].pause.value == |s.pauses| && |t.pauses| == |s.pauses| + 1
    ensures SavedOnce(t)
  {
    forall d | 0 <= d < |t.calls| ensures Fresh(t, t.calls[d]) {
      if d != c { assert t.calls[d] == s.calls[d] && Fresh(s, s.calls[d]); }
    }
    forall a, b | 0 <= a < b < |t.calls| && t.calls[a].Saving? && t.calls[b].Saving? && t.calls[a].pause.Some?
      ensures t.calls[a].pause != t.calls[b].pause
    {
      assert Fresh(s, s.calls[a]) && Fresh(s, s.calls[b]);
    }
  }

  /** A load goes with the current checkpoint exactly if no save has arrived since. */
  ghost predicate Dated(s: State, l: Load) {
    && l.pause.Some? && l.pause.value in s.landed && l.arrived <= s.arrived
    && (l.pause == s.held <==> l.arrived == s.arrived)
  }

  ghost predicate LoadsDated(s: State) {
    && (forall i :: 0 <= i < |s.loads| ==> Dated(s, s.loads[i]))
    && (forall i, j :: 0 <= i < j < |s.loads| ==>
          (s.loads[i].pause == s.loads[j].pause <==> s.loads[i].arrived == s.loads[j].arrived))
  }

  lemma LoadsDatedResume(h: Config, granted: seq<string>, s: State, approved: bool)
    requires LoadsDated(s) && SavedOnce(s) && GrantsOk(h, granted, s) && "" !in h.tools
    ensures LoadsDated(OnResume(h, s, approved))
  {
    var t := OnResume(h, s, approved);
    forall i | 0 <= i < |t.loads| ensures Dated(t, t.loads[i]) {
      if i < |s.loads| { assert Dated(s, s.loads[i]) && t.loads[i] == s.loads[i]; }
    }
    forall i, j | 0 <= i < j < |t.loads|
      ensures t.loads[i].pause == t.loads[j].pause <==> t.loads[i].arrived == t.loads[j].arrived
    {
      assert t.loads[i] == s.loads[i] && Dated(s, s.loads[i]);
      if j < |s.loads| { assert t.loads[j] == s.loads[j]; }
    }
  }

  lemma LoadsDatedSave(s: State, c: nat, arrives: bool)
    requires LoadsDated(s) && SavedOnce(s) && c < |s.calls| && s.calls[c].Saving?
    ensures LoadsDated(OnSave(s, c, arrives))
  {
    var t := OnSave(s, c, arrives);
    assert Fresh(s, s.calls[c]);
    forall i | 0 <= i < |t.loads| ensures Dated(t, t.loads[i]) { assert Dated(s, s.loads[i]); }
  }

  lemma LoadsDatedStep(h: Config, granted: seq<string>, s: State, e: Event, t: State)
    requires LoadsDated(s) && SavedOnce(s) && GrantsOk(h, granted, s) && "" !in h.tools && Step(h, s, e) == Some(t)
    ensures LoadsDated(t)
  {
    match e
    case Resume(approved) => LoadsDatedResume(h, granted, s, approved);
    case Save(c, arrives) => LoadsDatedSave(s, c, arrives);
    case Execute(_, _) => LoadsDatedKept(s, t);
    case Pass(_, _, _) => LoadsDatedKept(s, t);
  }

  lemma LoadsDatedKept(s: State, t: State)
    requires LoadsDated(s) && t.loads == s.loads && t.landed == s.landed && t.arrived == s.arrived && t.held == s.held
    ensures LoadsDated(t)
  {
    forall i | 0 <= i < |t.loads| ensures Dated(t, t.loads[i]) { assert Dated(s, s.loads[i]); }
  }

  // ---------------------------------------------------------------------------------------------
  // The theorems

  ghost predicate Inv(h: Config, granted: seq<string>, s: State) {
    GrantsOk(h, granted, s) && SavedOnce(s) && LoadsDated(s) && forall p :: Balanced(s, p)
  }

  lemma {:induction false} InvHolds(h: Config, st: RunState, ss: seq<State>, es: seq<Event>, n: nat)
    requires Run(h, st, ss, es) && "" !in h.tools && n <= |es|
    ensures Inv(h, st.granted, ss[n])
    decreases n
  {
    if n > 0 {
      InvHolds(h, st, ss, es, n - 1);
      var s, e, t := ss[n - 1], es[n - 1], ss[n];
      assert Linked(h, ss, es, n - 1);
      GrantsStep(h, st.granted, s, e, t);
      SavedOnceStep(h, s, e, t);
      LoadsDatedStep(h, st.granted, s, e, t);
      forall p ensures Balanced(t, p) { BalancedStep(h, s, e, t, p); }
    } else {
      forall p ensures Balanced(ss[0], p) {
        var labels := CallLabels(ss[0]);
        assert |labels| == 1 && labels[0] == None && labels[..0] == [];
      }
    }
  }

  /** However Runs and Resumes of a run overlap and whichever saves arrive: every executed tool was
      granted, and one that needs approval executes in an approved Resume only, with the name and
      input of a pause. */
  lemma OverlapKeepsGrants(h: Config, st: RunState, ss: seq<State>, es: seq<Event>, n: nat, i: nat)
    requires Run(h, st, ss, es) && "" !in h.tools && n <= |es| && i < |ss[n].execs|
    ensures ExecOk(h, st.granted, ss[n].pauses, ss[n].execs[i])
  {
    InvHolds(h, st, ss, es, n);
  }

  /** Between any two loads of a tool to execute by approved Resumes, a save arrived. */
  ghost predicate SavedBetween(s: State) {
    forall i, j :: 0 <= i < j < |s.loads| ==> s.loads[i].arrived != s.loads[j].arrived
  }

  ghost predicate OncePerPause(s: State) {
    forall i, j :: 0 <= i < j < |s.execs| && s.execs[i].pause.Some? ==> s.execs[i].pause != s.execs[j].pause
  }

  ghost predicate NoneLoaded(s: State) {
    forall c :: 0 <= c < |s.calls| ==> !s.calls[c].Loaded?
  }

  /** In every state of every interleaving in which no approved Resume is still about to execute:
      each pause has been executed at most once if and only if between any two approved Resumes'
      loads of a tool to execute a save arrived. */
  lemma OverlapRunsOnceIff(h: Config, st: RunState, ss: seq<State>, es: seq<Event>, n: nat)
    requires Run(h, st, ss, es) && "" !in h.tools && n <= |es|
    ensures SavedBetween(ss[n]) ==> OncePerPause(ss[n])
    ensures NoneLoaded(ss[n]) && OncePerPause(ss[n]) ==> SavedBetween(ss[n])
  {
    InvHolds(h, st, ss, es, n);
    LoadsDistinct(ss[n]);
    ExecsDistinct(ss[n]);
    if SavedBetween(ss[n]) { LoadedOnceRunsOnce(ss[n]); }
    if NoneLoaded(ss[n]) && OncePerPause(ss[n]) { RunOnceLoadedOnce(ss[n]); }
  }

  lemma ExecsDistinct(s: State)
    ensures OncePerPause(s) <==> Distinct(ExecLabels(s))
  {
    var xs := ExecLabels(s);
    assert forall i :: 0 <= i < |s.execs| ==> xs[i] == s.execs[i].pause;
    if Distinct(xs) {
      forall i, j | 0 <= i < j < |s.execs| && s.execs[i].pause.Some? ensures s.execs[i].pause != s.execs[j].pause {
        assert xs[i] != xs[j];
      }
    }
  }

  lemma LoadedOnceRunsOnce(s: State)
    requires (forall p :: Balanced(s, p)) && Distinct(LoadLabels(s))
    ensures Distinct(ExecLabels(s))
  {
    forall p ensures Count(ExecLabels(s), p) <= 1 {
      assert Balanced(s, p);
      CountOne(LoadLabels(s), p);
    }
    DistinctIff(ExecLabels(s));
  }

  lemma RunOnceLoadedOnce(s: State)
    requires (forall p :: Balanced(s, p)) && Distinct(ExecLabels(s))
    requires NoneLoaded(s)
    ensures Distinct(LoadLabels(s))
  {
    forall p ensures Count(LoadLabels(s), p) <= 1 {
      assert Balanced(s, p);
      CountOne(ExecLabels(s), p);
      CountSome(CallLabels(s), p);
    }
    DistinctIff(LoadLabels(s));
  }

  lemma LoadsDistinct(s: State)
    requires LoadsDated(s)
    ensures SavedBetween(s) <==> Distinct(LoadLabels(s))
  {
    assert forall i :: 0 <= i < |s.loads| ==> Dated(s, s.loads[i]);
    var xs := LoadLabels(s);
    assert forall i :: 0 <= i < |s.loads| ==> xs[i] == s.loads[i].pause;
    if Distinct(xs) {
      forall i, j | 0 <= i < j < |s.loads| ensures s.loads[i].arrived != s.loads[j].arrived { assert xs[i] != xs[j]; }
    }
  }

  // ---------------------------------------------------------------------------------------------
  // The step limit

  /** A call that may still complete, or leave a pause to be resumed. */
  predicate Active(call: Call) {
    call.Looping? || call.Loaded? || (call.Saving? && (call.goesOn || call.pause.Some?))
  }

  /** The checkpoint holds a pause that nobody has loaded to execute. */
  ghost predicate Open(s: State) {
    && s.checkpoint.Some? && s.checkpoint.value.status == AwaitingApproval && s.checkpoint.value.pendingTool != ""
    && s.held.Some? && forall i :: 0 <= i < |s.loads| ==> s.loads[i].pause != s.held
  }

  function Limit(h: Config, base: int): int {
    if h.maxSteps > base then h.maxSteps else base
  }

  ghost predicate ActiveOk(base: int, s: State, c: nat)
    requires c < |s.calls|
  {
    Active(s.calls[c]) ==> s.calls[c].st.step == base + s.completions && !Open(s)
  }

  /** The run goes on in one place at most: in one call, or in the checkpoint; and there every step
      is counted. */
  ghost predicate OneHead(h: Config, base: int, s: State) {
    && (forall c, d :: 0 <= c < d < |s.calls| ==> !Active(s.calls[c]) || !Active(s.calls[d]))
    && (forall c :: 0 <= c < |s.calls| ==> ActiveOk(base, s, c))
    && (Open(s) ==> s.checkpoint.value.step == base + s.completions)
    && base + s.completions <= Limit(h, base)
  }

  /** The active call moved on within the limit, and the checkpoint is as closed as it was. */
  lemma HeadMoves(h: Config, base: int, s: State, c: nat, t: State)
    requires OneHead(h, base, s) && c < |s.calls| && Active(s.calls[c])
    requires |t.calls| == |s.calls| && t.calls == s.calls[c := t.calls[c]]
    requires Active(t.calls[c]) ==> t.calls[c].st.step == base + t.completions
    requires Open(t) ==> !Active(t.calls[c]) && t.checkpoint.value.step == base + t.completions
    requires base + t.completions <= Limit(h, base)
    ensures OneHead(h, base, t)
  {
    assert forall d :: 0 <= d < |s.calls| && d != c ==> t.calls[d] == s.calls[d] && !Active(s.calls[d]);
  }

  lemma HeadExecute(h: Config, base: int, s: State, c: nat, output: string)
    requires OneHead(h, base, s) && c < |s.calls| && s.calls[c].Loaded?
    ensures OneHead(h, base, OnExecute(s, c, output))
  {
    assert ActiveOk(base, s, c);
    HeadMoves(h, base, s, c, OnExecute(s, c, output));
  }

  lemma HeadSave(h: Config, granted: seq<string>, base: int, s: State, c: nat, arrives: bool)
    requires OneHead(h, base, s) && GrantsOk(h, granted, s) && SavedOnce(s) && LoadsDated(s)
    requires c < |s.calls| && s.calls[c].Saving?
    ensures OneHead(h, base, OnSave(s, c, arrives))
  {
    var t := OnSave(s, c, arrives);
    assert ActiveOk(base, s, c) && CallOk(h, granted, s.pauses, s.calls[c]);
    if Active(s.calls[c]) {
      HeadMoves(h, base, s, c, t);
    } else {
      assert Open(t) ==> Open(s);
      forall d | 0 <= d < |t.calls| ensures ActiveOk(base, t, d) { assert ActiveOk(base, s, d); }
    }
  }

  lemma HeadPass(h: Config, base: int, s: State, c: nat, answer: Option<Completion>, output: string, t: State)
    requires OneHead(h, base, s) && Step(h, s, Pass(c, answer, output)) == Some(t)
    ensures OneHead(h, base, t)
  {
    assert ActiveOk(base, s, c);
    assert t.checkpoint == s.checkpoint && t.held == s.held && t.loads == s.loads;
    HeadMoves(h, base, s, c, t);
  }

  lemma HeadResume(h: Config, granted: seq<string>, base: int, s: State, approved: bool)
    requires OneHead(h, base, s) && GrantsOk(h, granted, s) && LoadsDated(s) && "" !in h.tools
    requires SavedBetween(OnResume(h, s, approved))
    ensures OneHead(h, base, OnResume(h, s, approved))
  {
    var t := OnResume(h, s, approved);
    if approved && Waiting(h, s) {
      LoadedFirst(h, granted, s);
      assert t.loads[|s.loads|].pause == t.held;
      forall d | 0 <= d < |s.calls| ensures !Active(s.calls[d]) { assert ActiveOk(base, s, d); }
    } else {
      assert Open(t) <==> Open(s);
    }
    HeadArrives(h, base, s, t.calls[|s.calls|], t);
  }

  /** A call arrives that is inactive, or takes the run over from the checkpoint. */
  lemma HeadArrives(h: Config, base: int, s: State, call: Call, t: State)
    requires OneHead(h, base, s) && t.calls == s.calls + [call] && t.completions == s.completions
    requires Open(t) ==> Open(s) && t.checkpoint == s.checkpoint
    requires Active(call) ==>
      call.st.step == base + s.completions && !Open(t) && forall d :: 0 <= d < |s.calls| ==> !Active(s.calls[d])
    ensures OneHead(h, base, t)
  {
    assert forall d :: 0 <= d < |s.calls| ==> t.calls[d] == s.calls[d];
    forall d | 0 <= d < |t.calls| ensures ActiveOk(base, t, d) {
      if d < |s.calls| { assert ActiveOk(base, s, d); }
    }
  }

  /** With a save between any two loads, a load is of an open checkpoint. */
  lemma LoadedFirst(h: Config, granted: seq<string>, s: State)
    requires GrantsOk(h, granted, s) && LoadsDated(s) && "" !in h.tools && Waiting(h, s)
    requires SavedBetween(OnResume(h, s, true))
    ensures Open(s)
  {
    var t := OnResume(h, s, true);
    forall i | 0 <= i < |s.loads| ensures s.loads[i].pause != s.held {
      assert Dated(s, s.loads[i]);
      assert t.loads[i] == s.loads[i] && t.loads[i].arrived != t.loads[|s.loads|].arrived;
    }
  }

  lemma HeadStep(h: Config, granted: seq<string>, base: int, s: State, e: Event, t: State)
    requires OneHead(h, base, s) && GrantsOk(h, granted, s) && SavedOnce(s) && LoadsDated(s) && "" !in h.tools
    requires Step(h, s, e) == Some(t) && SavedBetween(t)
    ensures OneHead(h, base, t)
  {
    match e
    case Resume(approved) => HeadResume(h, granted, base, s, approved);
    case Execute(c, output) => HeadExecute(h, base, s, c, output);
    case Save(c, arrives) => HeadSave(h, granted, base, s, c, arrives);
    case Pass(c, answer, output) => HeadPass(h, base, s, c, answer, output, t);
  }

  lemma LoadsGrow(h: Config, s: State, e: Event, t: State)
    requires Step(h, s, e) == Some(t)
    ensures s.loads <= t.loads
  {}

  /** However Runs and Resumes of a run overlap: if between any two approved Resumes' loads of a tool
      to execute a save arrived, the model is asked successfully within the step limit. */
  lemma {:induction false} OverlapKeepsLimit(h: Config, st: RunState, ss: seq<State>, es: seq<Event>, n: nat)
    requires Run(h, st, ss, es) && "" !in h.tools && n <= |es| && SavedBetween(ss[n])
    ensures OneHead(h, st.step, ss[n])
    ensures st.step + ss[n].completions <= if h.maxSteps > st.step then h.maxSteps else st.step
    decreases n
  {
    if n > 0 {
      var s, e, t := ss[n - 1], es[n - 1], ss[n];
      assert Linked(h, ss, es, n - 1);
      LoadsGrow(h, s, e, t);
      assert forall i :: 0 <= i < |s.loads| ==> s.loads[i] == t.loads[i];
      OverlapKeepsLimit(h, st, ss, es, n - 1);
      InvHolds(h, st, ss, es, n - 1);
      HeadStep(h, st.granted, st.step, s, e, t);
    }
  }

  // ---------------------------------------------------------------------------------------------
  // Past the limit with every save arriving

  /** The events lead from one state to another, and every save among them arrives. */
  ghost predicate Leads(h: Config, s: State, es: seq<Event>, t: State)
    decreases |es|
  {
    if es == [] then t == s
    else
      && (es[0].Save? ==> es[0].arrives)
      && Step(h, s, es[0]).Some? && Leads(h, Step(h, s, es[0]).value, es[1..], t)
  }

  lemma LeadsOne(h: Config, s: State, e: Event, m: State, es: seq<Event>, t: State)
    requires Step(h, s, e) == Some(m) && Leads(h, m, es, t) && (e.Save? ==> e.arrives)
    ensures Leads(h, s, [e] + es, t)
  {
    assert ([e] + es)[1..] == es;
  }

  lemma {:induction false} LeadsOn(h: Config, s: State, es: seq<Event>, m: State, fs: seq<Event>, t: State)
    requires Leads(h, s, es, m) && Leads(h, m, fs, t)
    ensures Leads(h, s, es + fs, t)
    decreases |es|
  {
    if es == [] {
      assert es + fs == fs;
    } else {
      var next := Step(h, s, es[0]).value;
      assert Leads(h, next, es[1..] + fs, t) by { LeadsOn(h, next, es[1..], m, fs, t); }
      LeadsOne(h, s, es[0], next, es[1..] + fs, t);
      assert [es[0]] + (es[1..] + fs) == es + fs;
    }
  }

  /** A run pauses at its first step, and two approved Resumes load that pause. */
  lemma TwoLoads(h: Config, tool: string, st: RunState) returns (es: seq<Event>, t: State)
    requires h.maxSteps == 2 && st.step == 0 && st.granted == [tool]
    requires tool in h.tools && h.tools[tool].requiresApproval
    ensures Leads(h, Initial(st), es, t) && t.completions == 1 && |t.calls| == 3
    ensures t.calls[1].Loaded? && t.calls[1].st.step == 1 && t.calls[2].Loaded? && t.calls[2].st.step == 1
  {
    var s0 := Initial(st);
    var e1, e2 := Pass(0, Some(Completion("", "tool_use", tool, "x")), ""), Save(0, true);
    var s1 := Step(h, s0, e1).value;
    assert s1.calls[0].Saving? && s1.calls[0].st.step == 1 && s1.calls[0].st.pendingTool == tool;
    var s2 := Step(h, s1, e2).value;
    var s3 := Step(h, s2, Resume(true)).value;
    t := Step(h, s3, Resume(true)).value;
    LeadsOne(h, s3, Resume(true), t, [], t);
    LeadsOne(h, s2, Resume(true), s3, [Resume(true)] + [], t);
    es := [Resume(true)] + ([Resume(true)] + []);
    LeadsOne(h, s1, e2, s2, es, t);
    LeadsOne(h, s0, e1, s1, [e2] + es, t);
    es := [e1] + ([e2] + es);
  }

  /** A Resume that loaded a state with a step left executes, saves and completes once more. */
  lemma FinishesResume(h: Config, s: State, c: nat) returns (es: seq<Event>, t: State)
    requires h.maxSteps == 2 && c < |s.calls| && s.calls[c].Loaded? && s.calls[c].st.step == 1
    ensures Leads(h, s, es, t) && t.completions == s.completions + 1
    ensures |t.calls| == |s.calls| && forall d :: 0 <= d < |s.calls| && d != c ==> t.calls[d] == s.calls[d]
  {
    var e1, e2, e3 := Execute(c, ""), Save(c, true), Pass(c, Some(Completion("", "end_turn", "", "")), "");
    var s1 := Step(h, s, e1).value;
    var s2 := Step(h, s1, e2).value;
    t := Step(h, s2, e3).value;
    LeadsOne(h, s2, e3, t, [], t);
    LeadsOne(h, s1, e2, s2, [e3] + [], t);
    es := [e2] + ([e3] + []);
    LeadsOne(h, s, e1, s1, es, t);
    es := [e1] + es;
  }

  /** Two overlapping approvals of one pause complete three times where two are allowed, although
      every save arrives. */
  lemma OverlapPassesTheLimit(h: Config, tool: string, st: RunState) returns (es: seq<Event>, t: State)
    requires h.maxSteps == 2 && st.step == 0 && st.granted == [tool]
    requires tool in h.tools && h.tools[tool].requiresApproval
    ensures Leads(h, Initial(st), es, t) && t.completions == 3
  {
    var e1, s1 := TwoLoads(h, tool, st);
    var e2, s2 := FinishesResume(h, s1, 1);
    var e3;
    e3, t := FinishesResume(h, s2, 2);
    LeadsOn(h, Initial(st), e1, s1, e2, s2);
    LeadsOn(h, Initial(st), e1 + e2, s2, e3, t);
    es := e1 + e2 + e3;
  }
}
