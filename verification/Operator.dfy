/** The AgentSession controller (internal/operator/reconciler.go): one step of the phase machine per
    Reconcile, over an API server that holds sessions and pods by name. */
module Operator {
  import opened Wrappers

  datatype Phase = New | Provisioning | Running | Idle | Committing | Terminated | Unknown

  datatype Spec = Spec(idleTimeout: Option<int>, maxLifetime: Option<int>)

  datatype Status = Status(
    phase: Phase, podName: string, startedAt: Option<int>, lastActivity: Option<int>, terminatedAt: Option<int>)

  datatype Session = Session(spec: Spec, status: Status)

  datatype Pod = Pod(owner: string, ready: bool)

  datatype Cluster = Cluster(sessions: map<string, Session>, pods: map<string, Pod>)

  const NEW_STATUS := Status(New, "", None, None, None)

  const SECOND := 1000
  const DEFAULT_IDLE_TIMEOUT := 600 * SECOND
  const COMMIT_GRACE := 120 * SECOND

  /** The zero time, which the code takes for no time at all. */
  const ZERO_TIME := 0

  /** An API call: done; not done; done, but the caller sees an error. */
  datatype Reply = Up | Down | Lost

  /** How the API calls of one Reconcile go, as far as they are made. */
  datatype Faults = Faults(getSession: bool, getPod: bool, writePod: Reply, update: Reply)

  datatype Outcome = Requeue(after: int) | Failed

  function PodNameOf(session: string): string {
    session + "-sandbox"
  }

  function WithStatus(c: Cluster, name: string, st: Status): Cluster
    requires name in c.sessions
  {
    c.(sessions := c.sessions[name := Session(c.sessions[name].spec, st)])
  }

  /** Status().Update and the result of the Reconcile. */
  function Updated(c: Cluster, name: string, st: Status, after: int, reply: Reply): (Cluster, Outcome)
    requires name in c.sessions
  {
    (if reply == Down then c else WithStatus(c, name, st),
     if reply == Up then Requeue(if after > 0 then after else 0) else Failed)
  }

  function ToProvisioning(c: Cluster, name: string, now: int, f: Faults): (Cluster, Outcome)
    requires name in c.sessions
  {
    var pod := PodNameOf(name);
    var c1 := if f.writePod == Down || pod in c.pods then c else c.(pods := c.pods[pod := Pod(name, false)]);
    if f.writePod != Up then (c1, Failed)
    else
      var st := c.sessions[name].status.(phase := Provisioning, podName := pod, startedAt := Some(now));
      Updated(c1, name, st, 2 * SECOND, f.update)
  }

  function CheckPodReady(c: Cluster, name: string, now: int, f: Faults): (Cluster, Outcome)
    requires name in c.sessions
  {
    var st := c.sessions[name].status;
    if !f.getPod then (c, Failed)
    else if st.podName !in c.pods then ToProvisioning(c, name, now, f)
    else if c.pods[st.podName].ready then Updated(c, name, st.(phase := Running, lastActivity := Some(now)), 0, f.update)
    else Updated(c, name, st, 5 * SECOND, f.update)
  }

  predicate PastLifetime(s: Session, now: int) {
    s.spec.maxLifetime.Some? && s.status.startedAt.Some? && now - s.status.startedAt.value >= s.spec.maxLifetime.value
  }

  function IdleTimeout(s: Session): int {
    if s.spec.idleTimeout.Some? then s.spec.idleTimeout.value else DEFAULT_IDLE_TIMEOUT
  }

  predicate Quiet(s: Session, now: int) {
    var last := s.status.lastActivity;
    last.Some? && last.value != ZERO_TIME && now - last.value >= IdleTimeout(s)
  }

  function DetectIdle(c: Cluster, name: string, now: int, f: Faults): (Cluster, Outcome)
    requires name in c.sessions
  {
    var s := c.sessions[name];
    if PastLifetime(s, now) || Quiet(s, now) then Updated(c, name, s.status.(phase := Idle), 0, f.update)
    else
      var last := if s.status.lastActivity.Some? then s.status.lastActivity.value else ZERO_TIME;
      var remaining := IdleTimeout(s) - (now - last);
      Updated(c, name, s.status, if last != ZERO_TIME && remaining > 0 then remaining else IdleTimeout(s), f.update)
  }

  function BeginCommit(c: Cluster, name: string, f: Faults): (Cluster, Outcome)
    requires name in c.sessions
  {
    Updated(c, name, c.sessions[name].status.(phase := Committing), COMMIT_GRACE, f.update)
  }

  function FinishCommit(c: Cluster, name: string, now: int, f: Faults): (Cluster, Outcome)
    requires name in c.sessions
  {
    var st := c.sessions[name].status;
    if !f.getPod then (c, Failed)
    else
      var there := st.podName in c.pods;
      var c1 := if there && f.writePod != Down then c.(pods := c.pods - {st.podName}) else c;
      if there && f.writePod != Up then (c1, Failed)
      else Updated(c1, name, st.(phase := Terminated, terminatedAt := Some(now)), 0, f.update)
  }

  function Reconciled(c: Cluster, name: string, now: int, f: Faults): (Cluster, Outcome) {
    if !f.getSession then (c, Failed)
    else if name !in c.sessions then (c, Requeue(0))
    else match c.sessions[name].status.phase
      case New => ToProvisioning(c, name, now, f)
      case Provisioning => CheckPodReady(c, name, now, f)
      case Running => DetectIdle(c, name, now, f)
      case Idle => BeginCommit(c, name, f)
      case Committing => FinishCommit(c, name, now, f)
      case Terminated => (c, Requeue(0))
      case Unknown => (c, Requeue(0))
  }

  /** The controller at work: it reads the session, assigns fields of its own copy of the status,
      creates or deletes the pod, and writes the copy back. */
  class Controller {
    var sessions: map<string, Session>
    var pods: map<string, Pod>

    ghost function State(): Cluster
      reads this
    {
      Cluster(sessions, pods)
    }

    constructor ()
      ensures State() == Cluster(map[], map[])
    {
      sessions, pods := map[], map[];
    }

    method UpdateStatus(name: string, st: Status, after: int, reply: Reply) returns (out: Outcome)
      requires name in sessions
      modifies `sessions
      ensures (State(), out) == Updated(old(State()), name, st, after, reply)
    {
      if reply != Down {
        sessions := sessions[name := Session(sessions[name].spec, st)];
      }
      if reply != Up {
        return Failed;
      }
      out := Requeue(0);
      if after > 0 {
        out := Requeue(after);
      }
    }

    method Provision(name: string, st: Status, now: int, f: Faults) returns (out: Outcome)
      requires name in sessions && st == sessions[name].status
      modifies this
      ensures (State(), out) == ToProvisioning(old(State()), name, now, f)
    {
      var podName := PodNameOf(name);
      var copy := st;
      if f.writePod != Down && podName !in pods {
        pods := pods[podName := Pod(name, false)];
      }
      if f.writePod != Up {
        return Failed;
      }
      copy := copy.(phase := Provisioning);
      copy := copy.(podName := podName);
      copy := copy.(startedAt := Some(now));
      out := UpdateStatus(name, copy, 2 * SECOND, f.update);
    }

    method AwaitPod(name: string, st: Status, now: int, f: Faults) returns (out: Outcome)
      requires name in sessions && st == sessions[name].status
      modifies this
      ensures (State(), out) == CheckPodReady(old(State()), name, now, f)
    {
      if !f.getPod {
        return Failed;
      }
      if st.podName !in pods {
        out := Provision(name, st, now, f);
        return;
      }
      if pods[st.podName].ready {
        out := UpdateStatus(name, st.(phase := Running, lastActivity := Some(now)), 0, f.update);
        return;
      }
      out := UpdateStatus(name, st, 5 * SECOND, f.update);
    }

    method WatchIdle(name: string, st: Status, now: int, f: Faults) returns (out: Outcome)
      requires name in sessions && st == sessions[name].status
      modifies this
      ensures (State(), out) == DetectIdle(old(State()), name, now, f)
    {
      var spec := sessions[name].spec;
      var timeout := DEFAULT_IDLE_TIMEOUT;
      if spec.idleTimeout.Some? {
        timeout := spec.idleTimeout.value;
      }
      if spec.maxLifetime.Some? && st.startedAt.Some? && now - st.startedAt.value >= spec.maxLifetime.value {
        out := UpdateStatus(name, st.(phase := Idle), 0, f.update);
        return;
      }
      var last := ZERO_TIME;
      if st.lastActivity.Some? {
        last := st.lastActivity.value;
      }
      if last != ZERO_TIME && now - last >= timeout {
        out := UpdateStatus(name, st.(phase := Idle), 0, f.update);
        return;
      }
      var requeue := timeout;
      if last != ZERO_TIME {
        var remaining := timeout - (now - last);
        if remaining > 0 {
          requeue := remaining;
        }
      }
      out := UpdateStatus(name, st, requeue, f.update);
    }

    method Finish(name: string, st: Status, now: int, f: Faults) returns (out: Outcome)
      requires name in sessions && st == sessions[name].status
      modifies this
      ensures (State(), out) == FinishCommit(old(State()), name, now, f)
    {
      if !f.getPod {
        return Failed;
      }
      if st.podName in pods {
        if f.writePod != Down {
          pods := pods - {st.podName};
        }
        if f.writePod != Up {
          return Failed;
        }
      }
      out := UpdateStatus(name, st.(phase := Terminated, terminatedAt := Some(now)), 0, f.update);
    }

    method Reconcile(name: string, now: int, f: Faults) returns (out: Outcome)
      modifies this
      ensures (State(), out) == Reconciled(old(State()), name, now, f)
    {
      if !f.getSession {
        return Failed;
      }
      if name !in sessions {
        return Requeue(0);
      }
      var st := sessions[name].status;
      match st.phase
      case New => out := Provision(name, st, now, f);
      case Provisioning => out := AwaitPod(name, st, now, f);
      case Running => out := WatchIdle(name, st, now, f);
      case Idle => out := UpdateStatus(name, st.(phase := Committing), COMMIT_GRACE, f.update);
      case Committing => out := Finish(name, st, now, f);
      case Terminated => out := Requeue(0);
      case Unknown => out := Requeue(0);
    }
  }

  // ----- labels

  predicate Alphanumeric(c: char) {
    'a' <= c <= 'z' || 'A' <= c <= 'Z' || '0' <= c <= '9'
  }

  predicate LabelChar(c: char) {
    Alphanumeric(c) || c == '-' || c == '_' || c == '.'
  }

  /** What Kubernetes asks of a label value, but for its length. */
  ghost predicate LabelSafe(s: string) {
    s != "" && Alphanumeric(s[0]) && Alphanumeric(s[|s| - 1]) && forall i :: 0 <= i < |s| ==> LabelChar(s[i])
  }

  /** Edits a copy of the value in place. The result is safe; a safe value comes back as it was, and
      of any other nonempty value the length and all allowed inner characters stay. */
  method SanitizeLabel(v: string) returns (s: string)
    ensures LabelSafe(s) && (LabelSafe(v) ==> s == v)
    ensures v == "" ==> s == "none"
    ensures v != "" ==> |s| == |v| && forall i :: 0 < i < |v| - 1 ==> s[i] == if LabelChar(v[i]) then v[i] else '-'
    ensures v != "" && Alphanumeric(v[0]) ==> s[0] == v[0]
    ensures v != "" && Alphanumeric(v[|v| - 1]) ==> s[|v| - 1] == v[|v| - 1]
  {
    if v == "" {
      return "none";
    }
    var out := new char[|v|];
    for i := 0 to |v|
      invariant forall j :: 0 <= j < i ==> out[j] == if LabelChar(v[j]) then v[j] else '-'
    {
      out[i] := if LabelChar(v[i]) then v[i] else '-';
    }
    if out[0] == '-' || out[0] == '_' || out[0] == '.' {
      out[0] := 'x';
    }
    var last := out[|v| - 1];
    if last == '-' || last == '_' || last == '.' {
      out[|v| - 1] := 'x';
    }
    s := out[..];
  }
}
