/** Every run of the controller: Reconciles whose API calls may fail or lose their replies, while
    sessions come and go, pods become ready or vanish, and activity is reported. */
module OperatorRuns {
  import opened Wrappers
  import opened Operator

  datatype Event =
    | CreateSession(name: string, spec: Spec)
    | DeleteSession(name: string)
    | Activity(name: string, at: int)
    | PodReadiness(pod: string, ready: bool)
    | PodVanishes(pod: string)
    | Reconcile(name: string, now: int, faults: Faults)

  const Initial := Cluster(map[], map[])

  function Step(c: Cluster, e: Event): Option<Cluster> {
    match e
    case CreateSession(name, spec) =>
      if name in c.sessions then None else Some(c.(sessions := c.sessions[name := Session(spec, NEW_STATUS)]))
    case DeleteSession(name) => Some(c.(sessions := c.sessions - {name}))
    case Activity(name, at) =>
      if name in c.sessions then Some(WithStatus(c, name, c.sessions[name].status.(lastActivity := Some(at)))) else None
    case PodReadiness(pod, ready) =>
      if pod in c.pods then Some(c.(pods := c.pods[pod := Pod(c.pods[pod].owner, ready)])) else None
    case PodVanishes(pod) => Some(c.(pods := c.pods - {pod}))
    case Reconcile(name, now, faults) => Some(Reconciled(c, name, now, faults).0)
  }

  ghost predicate Linked(cs: seq<Cluster>, es: seq<Event>, i: nat)
    requires i < |es| < |cs|
  {
    Step(cs[i], es[i]) == Some(cs[i + 1])
  }

  ghost predicate Run(cs: seq<Cluster>, es: seq<Event>) {
    |cs| == |es| + 1 && cs[0] == Initial && forall i :: 0 <= i < |es| ==> Linked(cs, es, i)
  }

  function Rank(p: Phase): nat {
    match p
    case New => 0
    case Provisioning => 1
    case Running => 2
    case Idle => 3
    case Committing => 4
    case Terminated => 5
    case Unknown => 6
  }

  function RankOf(c: Cluster, name: string): nat
    requires name in c.sessions
  {
    Rank(c.sessions[name].status.phase)
  }

  // ----- invariants

  ghost predicate SessionOk(c: Cluster, name: string)
    requires name in c.sessions
  {
    var st := c.sessions[name].status;
    && st.phase != Unknown
    && (st.phase != New ==> st.podName == PodNameOf(name) && st.startedAt.Some?)
    && (Rank(st.phase) >= Rank(Running) ==> st.lastActivity.Some?)
    && (st.phase == Terminated ==> PodNameOf(name) !in c.pods)
  }

  /** Every pod bears the name its session gives it. */
  ghost predicate PodsOk(c: Cluster) {
    forall p :: p in c.pods ==> p == PodNameOf(c.pods[p].owner)
  }

  ghost predicate Inv(c: Cluster) {
    PodsOk(c) && forall name :: name in c.sessions ==> SessionOk(c, name)
  }

  lemma PodNamesDiffer(a: string, b: string)
    requires PodNameOf(a) == PodNameOf(b)
    ensures a == b
  {
    assert PodNameOf(a)[..|a|] == a && PodNameOf(b)[..|b|] == b;
  }

  lemma ReconcileSessions(c: Cluster, name: string, now: int, f: Faults)
    ensures var t := Reconciled(c, name, now, f).0;
      t.sessions == c.sessions || (name in c.sessions && name in t.sessions && t.sessions == c.sessions[name := t.sessions[name]])
  {}

  lemma ReconcilePods(c: Cluster, name: string, now: int, f: Faults)
    requires name in c.sessions ==> SessionOk(c, name)
    ensures var t := Reconciled(c, name, now, f).0;
      t.pods == c.pods || t.pods == c.pods[PodNameOf(name) := Pod(name, false)] || t.pods == c.pods - {PodNameOf(name)}
  {}

  /** A Reconcile touches its own session and its own pod only. */
  lemma ReconcileFrame(c: Cluster, name: string, now: int, f: Faults)
    requires Inv(c)
    ensures var t := Reconciled(c, name, now, f).0;
      && t.sessions.Keys == c.sessions.Keys
      && (forall n :: n in c.sessions && n != name ==> t.sessions[n] == c.sessions[n])
      && (forall p :: p != PodNameOf(name) ==> (p in t.pods <==> p in c.pods))
      && PodsOk(t)
  {
    if name in c.sessions { assert SessionOk(c, name); }
    ReconcileSessions(c, name, now, f);
    ReconcilePods(c, name, now, f);
  }

  lemma ReconcileOk(c: Cluster, name: string, now: int, f: Faults)
    requires Inv(c) && name in c.sessions
    ensures var t := Reconciled(c, name, now, f).0; name in t.sessions && SessionOk(t, name)
  {
    assert SessionOk(c, name);
  }

  lemma ReconcileInv(c: Cluster, name: string, now: int, f: Faults)
    requires Inv(c)
    ensures Inv(Reconciled(c, name, now, f).0)
  {
    var t := Reconciled(c, name, now, f).0;
    ReconcileFrame(c, name, now, f);
    forall n | n in t.sessions ensures SessionOk(t, n) {
      assert SessionOk(c, n);
      if n == name {
        ReconcileOk(c, name, now, f);
      } else if PodNameOf(n) == PodNameOf(name) {
        PodNamesDiffer(n, name);
      }
    }
  }

  lemma StepInv(c: Cluster, e: Event, t: Cluster)
    requires Inv(c) && Step(c, e) == Some(t)
    ensures Inv(t)
  {
    if e.Reconcile? {
      ReconcileInv(c, e.name, e.now, e.faults);
    } else {
      forall n | n in t.sessions ensures SessionOk(t, n) {
        if n in c.sessions { assert SessionOk(c, n); }
      }
    }
  }

  lemma {:induction false} InvHolds(cs: seq<Cluster>, es: seq<Event>, n: nat)
    requires Run(cs, es) && n <= |es|
    ensures Inv(cs[n])
    decreases n
  {
    if n > 0 {
      InvHolds(cs, es, n - 1);
      assert Linked(cs, es, n - 1);
      StepInv(cs[n - 1], es[n - 1], cs[n]);
    }
  }

  /** In every state of every run: a session has at most one pod, and none once it is Terminated;
      a Running session, and one past it, has its start and its last activity on record. */
  lemma PodsAndTimes(cs: seq<Cluster>, es: seq<Event>, n: nat)
    requires Run(cs, es) && n <= |es|
    ensures var c := cs[n];
      && (forall p, q :: p in c.pods && q in c.pods && c.pods[p].owner == c.pods[q].owner ==> p == q)
      && (forall name, p :: name in c.sessions && c.sessions[name].status.phase == Terminated && p in c.pods ==>
            c.pods[p].owner != name)
      && (forall name :: name in c.sessions && Rank(c.sessions[name].status.phase) >= Rank(Running) ==>
            c.sessions[name].status.startedAt.Some? && c.sessions[name].status.lastActivity.Some?)
  {
    InvHolds(cs, es, n);
    var c := cs[n];
    assert forall name :: name in c.sessions ==> SessionOk(c, name);
  }

  // ----- phases

  /** The phase stays or moves to the next one. */
  lemma ForwardStep(c: Cluster, e: Event, t: Cluster, name: string)
    requires Inv(c) && Step(c, e) == Some(t) && name in c.sessions && name in t.sessions
    ensures RankOf(c, name) <= RankOf(t, name) <= RankOf(c, name) + 1
    ensures t.sessions[name].spec == c.sessions[name].spec
    ensures RankOf(c, name) >= Rank(Running) ==> t.sessions[name].status.startedAt == c.sessions[name].status.startedAt
  {
    assert SessionOk(c, name);
    if e.Reconcile? && e.name != name {
      ReconcileFrame(c, e.name, e.now, e.faults);
    }
  }

  ghost predicate Present(cs: seq<Cluster>, name: string, i: nat, j: nat)
    requires i <= j < |cs|
  {
    forall n :: i <= n <= j ==> name in cs[n].sessions
  }

  function Reconciles(es: seq<Event>, name: string, i: nat, j: nat): nat
    requires i <= j <= |es|
  {
    if i == j then 0
    else Reconciles(es, name, i, j - 1) + if es[j - 1].Reconcile? && es[j - 1].name == name then 1 else 0
  }

  /** While a session exists its phase never moves back, and never further than one phase per
      Reconcile of it. */
  lemma {:induction false} PhasesInOrder(cs: seq<Cluster>, es: seq<Event>, name: string, i: nat, j: nat)
    requires Run(cs, es) && i <= j <= |es| && Present(cs, name, i, j)
    ensures RankOf(cs[i], name) <= RankOf(cs[j], name) <= RankOf(cs[i], name) + Reconciles(es, name, i, j)
    decreases j
  {
    if i < j {
      PhasesInOrder(cs, es, name, i, j - 1);
      RunMoves(cs, es, name, j - 1);
    }
  }

  lemma RunMoves(cs: seq<Cluster>, es: seq<Event>, name: string, n: nat)
    requires Run(cs, es) && n < |es| && name in cs[n].sessions && name in cs[n + 1].sessions
    ensures RankOf(cs[n], name) <= RankOf(cs[n + 1], name)
         <= RankOf(cs[n], name) + if es[n].Reconcile? && es[n].name == name then 1 else 0
  {
    InvHolds(cs, es, n);
    assert Linked(cs, es, n);
    if es[n].Reconcile? && es[n].name == name {
      ForwardStep(cs[n], es[n], cs[n + 1], name);
    } else {
      OnlyReconcileMoves(cs[n], es[n], cs[n + 1], name);
    }
  }

  lemma OnlyReconcileMoves(c: Cluster, e: Event, t: Cluster, name: string)
    requires Inv(c) && Step(c, e) == Some(t) && name in c.sessions && name in t.sessions
    requires !(e.Reconcile? && e.name == name)
    ensures RankOf(t, name) == RankOf(c, name)
  {
    if e.Reconcile? { ReconcileFrame(c, e.name, e.now, e.faults); }
  }

  // ----- the lifetime cap

  predicate Succeeds(c: Cluster, e: Event, name: string) {
    e.Reconcile? && e.name == name && Reconciled(c, name, e.now, e.faults).1 != Failed
  }

  function Successes(cs: seq<Cluster>, es: seq<Event>, name: string, i: nat, j: nat): nat
    requires i <= j <= |es| < |cs|
  {
    if i == j then 0 else Successes(cs, es, name, i, j - 1) + if Succeeds(cs[j - 1], es[j - 1], name) then 1 else 0
  }

  /** From Running on, a Reconcile that reports no error moves the phase on if the lifetime is over. */
  lemma SuccessMoves(c: Cluster, e: Event, name: string)
    requires Inv(c) && name in c.sessions && Succeeds(c, e, name)
    requires Rank(Running) <= RankOf(c, name) < Rank(Terminated) && PastLifetime(c.sessions[name], e.now)
    ensures RankOf(Reconciled(c, name, e.now, e.faults).0, name) == RankOf(c, name) + 1
  {}

  /** The session was Running at i, and every Reconcile of it since sees its lifetime over. */
  ghost predicate Expired(cs: seq<Cluster>, es: seq<Event>, name: string, i: nat, j: nat)
    requires i <= j <= |es| < |cs|
  {
    && Present(cs, name, i, j)
    && cs[i].sessions[name].status.phase == Running
    && forall n :: i <= n < j && es[n].Reconcile? && es[n].name == name ==> PastLifetime(cs[i].sessions[name], es[n].now)
  }

  lemma {:induction false} LifetimeRank(cs: seq<Cluster>, es: seq<Event>, name: string, i: nat, j: nat)
    requires Run(cs, es) && i <= j <= |es| && Expired(cs, es, name, i, j)
    ensures RankOf(cs[j], name) >= if Successes(cs, es, name, i, j) >= 3 then 5 else 2 + Successes(cs, es, name, i, j)
    ensures cs[j].sessions[name].spec == cs[i].sessions[name].spec
    ensures cs[j].sessions[name].status.startedAt == cs[i].sessions[name].status.startedAt
    decreases j
  {
    if i < j {
      LifetimeRank(cs, es, name, i, j - 1);
      InvHolds(cs, es, j - 1);
      var c, e, t := cs[j - 1], es[j - 1], cs[j];
      assert Linked(cs, es, j - 1);
      ForwardStep(c, e, t, name);
      if Succeeds(c, e, name) && RankOf(c, name) < Rank(Terminated) {
        assert PastLifetime(cs[i].sessions[name], e.now);
        SuccessMoves(c, e, name);
      }
    }
  }

  /** Past its maximum lifetime a Running session is Terminated after three Reconciles that report
      no error, whatever activity is reported, whatever other Reconciles fail and whatever happens
      to its pod meanwhile; and then it has no pod. */
  lemma ThreeReconcilesTerminate(cs: seq<Cluster>, es: seq<Event>, name: string, i: nat, j: nat)
    requires Run(cs, es) && i <= j <= |es| && Expired(cs, es, name, i, j)
    requires Successes(cs, es, name, i, j) >= 3
    ensures cs[j].sessions[name].status.phase == Terminated && PodNameOf(name) !in cs[j].pods
  {
    LifetimeRank(cs, es, name, i, j);
    InvHolds(cs, es, j);
    assert SessionOk(cs[j], name);
  }

  // ----- where the cap does not bind

  /** Past its lifetime a session is moved on by a Reconcile that reports no error if and only if it
      is not Terminated and not waiting for its pod: the cap is not looked at while Provisioning. */
  lemma CapBindsIff(c: Cluster, e: Event, name: string)
    requires Inv(c) && name in c.sessions && Succeeds(c, e, name) && PastLifetime(c.sessions[name], e.now)
    ensures var st := c.sessions[name].status;
      RankOf(Reconciled(c, name, e.now, e.faults).0, name) == RankOf(c, name) + 1 <==>
        st.phase != Terminated && (st.phase == Provisioning ==> st.podName in c.pods && c.pods[st.podName].ready)
  {
    assert SessionOk(c, name);
  }

  ghost predicate NeverReady(cs: seq<Cluster>, name: string, i: nat, j: nat)
    requires i <= j < |cs|
  {
    forall n :: i <= n <= j && PodNameOf(name) in cs[n].pods ==> !cs[n].pods[PodNameOf(name)].ready
  }

  lemma WaitingStays(c: Cluster, e: Event, t: Cluster, name: string)
    requires Inv(c) && Step(c, e) == Some(t) && name in c.sessions && name in t.sessions
    requires RankOf(c, name) <= Rank(Provisioning)
    requires PodNameOf(name) in c.pods ==> !c.pods[PodNameOf(name)].ready
    ensures RankOf(t, name) <= Rank(Provisioning)
  {
    assert SessionOk(c, name);
    if e.Reconcile? && e.name != name { ReconcileFrame(c, e.name, e.now, e.faults); }
  }

  /** A session whose pod never becomes ready is never Running and so never Terminated, however far
      past its maximum lifetime the clock goes and however many Reconciles succeed. */
  lemma {:induction false} NeverRunningNeverTerminated(cs: seq<Cluster>, es: seq<Event>, name: string, i: nat, j: nat)
    requires Run(cs, es) && i <= j <= |es| && Present(cs, name, i, j) && NeverReady(cs, name, i, j)
    requires RankOf(cs[i], name) <= Rank(Provisioning)
    ensures RankOf(cs[j], name) <= Rank(Provisioning)
    decreases j
  {
    if i < j {
      NeverRunningNeverTerminated(cs, es, name, i, j - 1);
      InvHolds(cs, es, j - 1);
      assert Linked(cs, es, j - 1);
      WaitingStays(cs[j - 1], es[j - 1], cs[j], name);
    }
  }

  /** Reconcile n of the session provisioned it at its clock's time, and it was not provisioned again
      up to state j. */
  ghost predicate ProvisionedAt(cs: seq<Cluster>, es: seq<Event>, name: string, n: nat, j: nat)
    requires n < j <= |es| < |cs|
  {
    && Present(cs, name, n, j)
    && es[n].Reconcile? && es[n].name == name && RankOf(cs[n], name) <= Rank(Provisioning) == RankOf(cs[n + 1], name)
    && forall m :: n < m <= j ==> cs[m].sessions[name].status.startedAt == Some(es[n].now)
  }

  lemma StartChanges(c: Cluster, e: Event, t: Cluster, name: string)
    requires Inv(c) && Step(c, e) == Some(t) && name in c.sessions && name in t.sessions
    ensures
      || t.sessions[name].status.startedAt == c.sessions[name].status.startedAt
      || (e.Reconcile? && e.name == name && RankOf(c, name) <= Rank(Provisioning) == RankOf(t, name)
          && t.sessions[name].status.startedAt == Some(e.now))
  {
    assert SessionOk(c, name);
    if e.Reconcile? && e.name != name { ReconcileFrame(c, e.name, e.now, e.faults); }
  }

  /** The lifetime counts from the last provisioning: the start on record is the clock's time at the
      last Reconcile that provisioned the session, for the first time or after it lost its pod. */
  lemma {:induction false} StartIsLastProvisioning(cs: seq<Cluster>, es: seq<Event>, name: string, i: nat, j: nat)
    returns (n: nat)
    requires Run(cs, es) && i <= j <= |es| && Present(cs, name, i, j)
    requires cs[i].sessions[name].status.startedAt.None? && cs[j].sessions[name].status.startedAt.Some?
    ensures i <= n < j && ProvisionedAt(cs, es, name, n, j)
    decreases j
  {
    RunStart(cs, es, name, j - 1);
    if cs[j].sessions[name].status.startedAt == cs[j - 1].sessions[name].status.startedAt {
      n := StartIsLastProvisioning(cs, es, name, i, j - 1);
      ProvisionedStill(cs, es, name, n, j);
    } else {
      n := j - 1;
    }
  }

  lemma ProvisionedStill(cs: seq<Cluster>, es: seq<Event>, name: string, n: nat, j: nat)
    requires n < j - 1 && j <= |es| < |cs| && ProvisionedAt(cs, es, name, n, j - 1) && name in cs[j].sessions
    requires cs[j].sessions[name].status.startedAt == cs[j - 1].sessions[name].status.startedAt
    ensures ProvisionedAt(cs, es, name, n, j)
  {}

  lemma RunStart(cs: seq<Cluster>, es: seq<Event>, name: string, n: nat)
    requires Run(cs, es) && n < |es| && name in cs[n].sessions && name in cs[n + 1].sessions
    ensures
      || cs[n + 1].sessions[name].status.startedAt == cs[n].sessions[name].status.startedAt
      || (es[n].Reconcile? && es[n].name == name && RankOf(cs[n], name) <= Rank(Provisioning) == RankOf(cs[n + 1], name)
          && cs[n + 1].sessions[name].status.startedAt == Some(es[n].now))
  {
    InvHolds(cs, es, n);
    assert Linked(cs, es, n);
    StartChanges(cs[n], es[n], cs[n + 1], name);
  }

  // ----- what one Reconcile does, by its API calls

  /** Does the session's phase make the Reconcile look for the pod, and then create or delete it? */
  predicate Looks(p: Phase) {
    p == Provisioning || p == Committing
  }

  predicate Creates(c: Cluster, name: string)
    requires name in c.sessions
  {
    var p := c.sessions[name].status.phase;
    p == New || (p == Provisioning && PodNameOf(name) !in c.pods)
  }

  predicate Deletes(c: Cluster, name: string)
    requires name in c.sessions
  {
    c.sessions[name].status.phase == Committing && PodNameOf(name) in c.pods
  }

  /** A Reconcile reports an error exactly if a call that it made failed, or the reply got lost. */
  lemma FailsIff(c: Cluster, name: string, now: int, f: Faults)
    requires Inv(c)
    ensures Reconciled(c, name, now, f).1 == Failed <==>
      || !f.getSession
      || (&& name in c.sessions && c.sessions[name].status.phase != Terminated
          && (|| (Looks(c.sessions[name].status.phase) && !f.getPod)
              || ((Creates(c, name) || Deletes(c, name)) && f.writePod != Up)
              || f.update != Up))
  {
    if name in c.sessions { assert SessionOk(c, name); }
  }

  /** The pods after a Reconcile: a New session, and a Provisioning one that lost its pod, gets one that
      is not ready; a Committing one loses its own; calls that fail or are not reached change nothing,
      and a lost reply does not undo a call. */
  lemma PodsAfter(c: Cluster, name: string, now: int, f: Faults)
    requires Inv(c) && name in c.sessions
    ensures var phase, pod := c.sessions[name].status.phase, PodNameOf(name);
      var reached := f.getSession && (Looks(phase) ==> f.getPod) && f.writePod != Down;
      Reconciled(c, name, now, f).0.pods ==
        if reached && Creates(c, name) && pod !in c.pods then c.pods[pod := Pod(name, false)]
        else if reached && Deletes(c, name) then c.pods - {pod}
        else c.pods
  {
    assert SessionOk(c, name);
  }

  /** The status after a Reconcile without error, and when it wants to be called again. */
  lemma StatusAfter(c: Cluster, e: Event, name: string)
    requires Inv(c) && name in c.sessions && Succeeds(c, e, name)
    ensures var (t, out) := Reconciled(c, name, e.now, e.faults);
      var was, st := c.sessions[name].status, t.sessions[name].status;
      var ready := PodNameOf(name) in c.pods && c.pods[PodNameOf(name)].ready;
      && (Creates(c, name) ==>
            && st == was.(phase := Provisioning, podName := name + "-sandbox", startedAt := Some(e.now))
            && out == Requeue(2 * 1000))
      && (was.phase == Provisioning && !Creates(c, name) ==>
            if ready then st == was.(phase := Running, lastActivity := Some(e.now)) && out == Requeue(0)
            else st == was && out == Requeue(5 * 1000))
      && (was.phase == Idle ==> st == was.(phase := Committing) && out == Requeue(120 * 1000))
      && (was.phase == Committing ==>
            st == was.(phase := Terminated, terminatedAt := Some(e.now)) && out == Requeue(0))
      && (was.phase == Terminated ==> st == was && out == Requeue(0))
  {
    assert SessionOk(c, name);
  }

  /** A status whose update did not reach the server is as it was; one whose reply got lost is as the
      Reconcile would have it without that loss. */
  lemma UpdateReaches(c: Cluster, name: string, now: int, f: Faults)
    ensures f.update == Down ==> Reconciled(c, name, now, f).0.sessions == c.sessions
    ensures f.update == Lost ==> Reconciled(c, name, now, f).0 == Reconciled(c, name, now, f.(update := Up)).0
  {}

  /** A session that is gone, Terminated or in no known phase is left alone for good. */
  lemma LeavesBe(c: Cluster, name: string, now: int, f: Faults)
    requires name in c.sessions ==> c.sessions[name].status.phase in {Terminated, Unknown}
    ensures Reconciled(c, name, now, f) == (c, if f.getSession then Requeue(0) else Failed)
  {}

  // ----- idleness

  /** In the session's own fields: its lifetime is over, or its activity is on record and lies at
      least the timeout back (ten minutes if the spec has none). */
  predicate LifetimeOver(s: Session, now: int) {
    match (s.spec.maxLifetime, s.status.startedAt)
    case (Some(life), Some(start)) => start + life <= now
    case _ => false
  }

  function Timeout(s: Session): int {
    match s.spec.idleTimeout
    case Some(t) => t
    case None => 600 * 1000
  }

  predicate OnRecord(s: Session) {
    s.status.lastActivity.Some? && s.status.lastActivity.value != ZERO_TIME
  }

  predicate ActiveAt(s: Session, now: int) {
    OnRecord(s) ==> now < s.status.lastActivity.value + Timeout(s)
  }

  /** A Reconcile of a Running session that reports no error moves it to Idle if and only if its
      lifetime is over or it was not active within the timeout. Otherwise it leaves the session as it
      is and asks to be called again at the instant the timeout runs out, or one timeout from now if
      no activity is on record. */
  lemma GoesIdleIff(c: Cluster, e: Event, name: string)
    requires name in c.sessions && c.sessions[name].status.phase == Running && Succeeds(c, e, name)
    ensures var s := c.sessions[name]; var (t, out) := Reconciled(c, name, e.now, e.faults);
      var moved := LifetimeOver(s, e.now) || !ActiveAt(s, e.now);
      && t == WithStatus(c, name, s.status.(phase := if moved then Idle else Running))
      && (moved ==> out == Requeue(0))
      && (!moved && OnRecord(s) ==> out == Requeue(s.status.lastActivity.value + Timeout(s) - e.now))
      && (!moved && !OnRecord(s) ==> out == Requeue(if Timeout(s) > 0 then Timeout(s) else 0))
  {}

  /** Reconcile n finds the activity that event m reported, and it is within the timeout. */
  ghost predicate Reported(cs: seq<Cluster>, es: seq<Event>, name: string, m: nat, n: nat)
    requires m < n < |es| < |cs| && es[n].Reconcile? && name in cs[n].sessions
  {
    && es[m].Activity? && es[m].name == name
    && (forall k :: m < k < n && es[k].Activity? ==> es[k].name != name)
    && es[n].now < es[m].at + Timeout(cs[n].sessions[name])
  }

  /** Before each Reconcile of the session from i on, activity was reported within the timeout, and
      its lifetime is not over. */
  ghost predicate KeptActive(cs: seq<Cluster>, es: seq<Event>, name: string, i: nat, j: nat)
    requires i <= j <= |es| < |cs| && Present(cs, name, i, j)
  {
    forall n :: i <= n < j && es[n].Reconcile? && es[n].name == name ==>
      && !LifetimeOver(cs[n].sessions[name], es[n].now)
      && exists m :: i <= m < n && Reported(cs, es, name, m, n)
  }

  /** A session that is Running and stays so keeps the activity that was last reported. */
  lemma RunningKeeps(c: Cluster, e: Event, t: Cluster, name: string)
    requires Inv(c) && Step(c, e) == Some(t) && name in c.sessions && name in t.sessions
    requires c.sessions[name].status.phase == Running
    ensures t.sessions[name].status.lastActivity ==
      if e.Activity? && e.name == name then Some(e.at) else c.sessions[name].status.lastActivity
  {
    if e.Reconcile? && e.name != name { ReconcileFrame(c, e.name, e.now, e.faults); }
  }

  lemma {:induction false} ActivityKept(cs: seq<Cluster>, es: seq<Event>, name: string, m: nat, n: nat)
    requires Run(cs, es) && m < n <= |es| && Present(cs, name, m, n)
    requires es[m].Activity? && es[m].name == name
    requires forall k :: m < k < n && es[k].Activity? ==> es[k].name != name
    requires forall k :: m <= k < n ==> cs[k].sessions[name].status.phase == Running
    ensures cs[n].sessions[name].status.lastActivity == Some(es[m].at)
    decreases n
  {
    InvHolds(cs, es, n - 1);
    assert Linked(cs, es, n - 1);
    RunningKeeps(cs[n - 1], es[n - 1], cs[n], name);
    if n > m + 1 { ActivityKept(cs, es, name, m, n - 1); }
  }

  /** A Reconcile that finds a Running session active leaves it Running, whatever fails. */
  lemma ActiveStays(c: Cluster, name: string, now: int, f: Faults)
    requires name in c.sessions && c.sessions[name].status.phase == Running
    requires !LifetimeOver(c.sessions[name], now) && ActiveAt(c.sessions[name], now)
    ensures Reconciled(c, name, now, f).0 == c
  {
    assert WithStatus(c, name, c.sessions[name].status) == c;
  }

  /** A Running session that is kept active stays Running. */
  lemma {:induction false} KeptActiveStaysRunning(cs: seq<Cluster>, es: seq<Event>, name: string, i: nat, j: nat)
    requires Run(cs, es) && i <= j <= |es| && Present(cs, name, i, j) && KeptActive(cs, es, name, i, j)
    requires cs[i].sessions[name].status.phase == Running
    ensures forall n :: i <= n <= j ==> cs[n].sessions[name].status.phase == Running
    decreases j
  {
    if i < j {
      KeptActiveStaysRunning(cs, es, name, i, j - 1);
      var n := j - 1;
      InvHolds(cs, es, n);
      assert Linked(cs, es, n);
      if es[n].Reconcile? && es[n].name == name {
        var m :| i <= m < n && Reported(cs, es, name, m, n);
        ActivityKept(cs, es, name, m, n);
        ActiveStays(cs[n], name, es[n].now, es[n].faults);
      } else {
        OnlyReconcileMoves(cs[n], es[n], cs[j], name);
        RankInjective(cs[n].sessions[name].status.phase, cs[j].sessions[name].status.phase);
      }
    }
  }

  lemma RankInjective(p: Phase, q: Phase)
    requires Rank(p) == Rank(q)
    ensures p == q
  {}

  /** Once Idle, a session is Terminated after two Reconciles that report no error, whatever activity
      is reported meanwhile. */
  lemma {:induction false} IdleEnds(cs: seq<Cluster>, es: seq<Event>, name: string, i: nat, j: nat)
    requires Run(cs, es) && i <= j <= |es| && Present(cs, name, i, j) && RankOf(cs[i], name) >= Rank(Idle)
    ensures RankOf(cs[j], name) >= if Successes(cs, es, name, i, j) >= 2 then 5 else 3 + Successes(cs, es, name, i, j)
    decreases j
  {
    if i < j {
      IdleEnds(cs, es, name, i, j - 1);
      InvHolds(cs, es, j - 1);
      assert Linked(cs, es, j - 1);
      ForwardStep(cs[j - 1], es[j - 1], cs[j], name);
    }
  }
}
