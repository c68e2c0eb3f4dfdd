/**
 Supervision agreement: what Argus tracks for a task is the run the task table names, until a Reconcile of Minos
 hibernates a task behind Argus's back.
 */
module Agreement {
  import opened Options
  import opened Tasks
  import opened TaskHistory
  import opened ArgusRules
  import opened Supervision
  import opened Runs
  import opened Invariants

  /** The entry is about the task's current run, or about the run a terminal task ended with. */
  predicate Mirrors(t: Task, e: Entry) {
    && (t.state == Running || t.state.Terminal())
    && t.podName == Some(e.podName) && t.runId == Some(e.runId) && t.startedAt == Some(e.startedAt)
  }

  ghost predicate Agrees(w: World) {
    forall id :: id in w.core.tracked ==> id in w.core.tasks && Mirrors(w.core.tasks[id], w.core.tracked[id])
  }

  /**
   Reconcile finds the pod of a tracked running task Succeeded, and hibernates the task while Argus still tracks it.
   */
  ghost predicate Disturbs(w: World, step: Step) {
    step.ReconcileStep? &&
    exists id :: id in w.core.tracked && id in w.core.tasks && w.core.tasks[id].state == Running &&
                 ReconcileAnswer(w.core, step.src, w.core.tasks[id]) == Seen(PhaseSucceeded)
  }

  lemma PassMirrors(c: Core, now: Time, order: seq<TaskId>, src: Source, id: TaskId)
    requires src.Arbitrary? && IsOrder(order, c.tracked.Keys)
    requires id in c.tracked && id in c.tasks && Mirrors(c.tasks[id], c.tracked[id])
    ensures var d := EvaluateAll(c, now, order, src);
            id in d.tracked ==> id in d.tasks && Mirrors(d.tasks[id], d.tracked[id])
  {
    EvaluateAllAt(c, now, order, src, id);
    var one := EvaluateOne(c, now, id, src);
    if id in one.tracked {
      assert one.tasks == c.tasks;
    }
  }

  lemma DiscoverMirrors(w: World, id: TaskId)
    requires Inv(w) && id in Discover(w.core, w.now).tracked
    requires id in w.core.tracked ==> id in w.core.tasks && Mirrors(w.core.tasks[id], w.core.tracked[id])
    ensures id in w.core.tasks && Mirrors(w.core.tasks[id], Discover(w.core, w.now).tracked[id])
  {
    if id !in w.core.tracked {
      assert RowOk(id, w.core.tasks[id], w.now);
    }
  }

  lemma TickAgrees(w: World, order: seq<TaskId>, src: Source)
    requires Inv(w) && Agrees(w) && Enabled(w, TickStep(order, src))
    ensures Agrees(Apply(w, TickStep(order, src)))
  {
    var c := Discover(w.core, w.now);
    var answers := Arbitrary(Asked(c, w.now, order, src));
    PassIsArbitrary(c, w.now, order, src);
    var d := EvaluateAll(c, w.now, order, answers);
    forall id | id in d.tracked ensures id in d.tasks && Mirrors(d.tasks[id], d.tracked[id]) {
      PassEntry(c, w.now, order, answers, id);
      DiscoverMirrors(w, id);
      PassMirrors(c, w.now, order, answers, id);
    }
  }

  lemma DispatchLeavesOthers(c: Core, id: TaskId, run: RunId, pod: PodName, launch: Launch, now: Time, other: TaskId)
    requires other != id
    ensures Agree(Dispatch(c, id, run, pod, launch, now).tasks, c.tasks, other)
  {
  }

  lemma LaunchAgrees(w: World, c: Core, d: Core, id: TaskId, run: RunId, pod: PodName, launch: Launch)
    requires Agrees(w) && id !in w.core.tracked
    requires c == w.core.(tasks := c.tasks) && forall k :: k != id ==> Agree(c.tasks, w.core.tasks, k)
    requires d == Dispatch(c, id, run, pod, launch, w.now)
    ensures d.tracked == w.core.tracked
    ensures forall k :: k in d.tracked ==> k in d.tasks && Mirrors(d.tasks[k], d.tracked[k])
  {
    forall k | k in d.tracked ensures k in d.tasks && Mirrors(d.tasks[k], d.tracked[k]) {
      DispatchLeavesOthers(c, id, run, pod, launch, w.now, k);
      assert Agree(c.tasks, w.core.tasks, k);
    }
  }

  lemma CommissionAgrees(w: World, id: TaskId, budget: Budget, run: RunId, pod: PodName, launch: Launch)
    requires Inv(w) && Agrees(w) && id !in w.core.tasks
    ensures Agrees(w.(core := Commission(w.core, id, budget, run, pod, launch, w.now)))
  {
    assert id !in w.core.tracked;
    if launch != Refused {
      var c := w.core.(tasks := Insert(w.core.tasks, NewTask(id, budget, w.now), w.now));
      LaunchAgrees(w, c, Dispatch(c, id, run, pod, launch, w.now), id, run, pod, launch);
    }
  }

  lemma RespawnAgrees(w: World, id: TaskId, run: RunId, pod: PodName, launch: Launch)
    requires Agrees(w)
    ensures Agrees(w.(core := Respawn(w.core, id, run, pod, launch, w.now)))
  {
    if id in w.core.tasks && w.core.tasks[id].state == AwaitingReview && w.core.tasks[id].budget.Some? {
      assert id !in w.core.tracked;
      LaunchAgrees(w, w.core, Dispatch(w.core, id, run, pod, launch, w.now), id, run, pod, launch);
    }
  }

  lemma MirrorsLasts(w: World, step: Step, t: Task, u: Task, e: Entry)
    requires Mirrors(t, e) && QuietChange(w, step, t, u)
    ensures Mirrors(u, e)
            || (step.ReconcileStep? && t.state == Running
                && ReconcileAnswer(w.core, step.src, t) == Seen(PhaseSucceeded))
  {
  }

  lemma QuietAgrees(w: World, step: Step)
    requires Inv(w) && Agrees(w) && Enabled(w, step) && Quiet(step) && !Disturbs(w, step)
    ensures Agrees(w.(core := ApplyCore(w, step)))
  {
    var d := ApplyCore(w, step);
    QuietEntries(w, step);
    forall id | id in d.tracked ensures id in d.tasks && Mirrors(d.tasks[id], d.tracked[id]) {
      assert Agree(d.tracked, w.core.tracked, id) && Mirrors(w.core.tasks[id], w.core.tracked[id]);
      QuietKeys(w, step, id);
      QuietRows(w, step, id);
      MirrorsLasts(w, step, w.core.tasks[id], d.tasks[id], w.core.tracked[id]);
    }
  }

  lemma QuietKeys(w: World, step: Step, id: TaskId)
    requires Quiet(step) && id in w.core.tasks
    ensures id in ApplyCore(w, step).tasks
  {
  }

  /** Agreement is about tasks and tracked pods only. */
  lemma AgreesOnCore(w: World, v: World)
    requires v.core == w.core
    ensures Agrees(w) <==> Agrees(v)
  {
  }

  lemma HeartbeatAgrees(w: World, id: TaskId)
    requires Agrees(w)
    ensures Agrees(w.(core := Heartbeat(w.core, id, w.now)))
  {
  }

  lemma OnlyReconcileDisturbs(w: World, step: Step)
    requires Inv(w) && Agrees(w) && Enabled(w, step) && !Disturbs(w, step)
    ensures Agrees(w.(core := ApplyCore(w, step)))
  {
    hide Agrees, Inv, Tick, Commission, Respawn, Heartbeat, Disturbs;
    match step
    case TickStep(order, src) =>
      TickAgrees(w, order, src);
      AgreesOnCore(Apply(w, step), w.(core := ApplyCore(w, step)));
    case CommissionStep(id, budget, run, pod, launch) => CommissionAgrees(w, id, budget, run, pod, launch);
    case RespawnStep(url, run, pod, launch) =>
      if FindByPR(w.core.tasks, url).Some? {
        RespawnAgrees(w, FindByPR(w.core.tasks, url).value, run, pod, launch);
      }
    case Advance(_) =>
    case HeartbeatStep(id) => HeartbeatAgrees(w, id);
    case _ => QuietAgrees(w, step);
  }

  /** A step keeps agreement exactly when it is not a Reconcile that finds a tracked run's pod Succeeded. */
  lemma AgreementStep(w: World, step: Step)
    requires Inv(w) && Agrees(w) && Enabled(w, step)
    ensures Agrees(Apply(w, step)) <==> !Disturbs(w, step)
  {
    hide Agrees, Inv, Enabled, Tick, Commission, RespawnByPR, PullRequestClosed, Restart, Reconcile, Sweep, Heartbeat;
    AgreesOnCore(Apply(w, step), w.(core := ApplyCore(w, step)));
    if Disturbs(w, step) {
      DisturbanceBreaks(w, step.src);
    } else {
      OnlyReconcileDisturbs(w, step);
    }
  }

  lemma ReconcileHibernates(w: World, src: Source, id: TaskId)
    requires Inv(w) && id in w.core.tasks && w.core.tasks[id].state == Running
    requires ReconcileAnswer(w.core, src, w.core.tasks[id]) == Seen(PhaseSucceeded)
    ensures Reconcile(w.core, src, w.now).tasks[id] == Moved(w.core.tasks[id], AwaitingReview, w.now)
  {
    assert TaskTied(w, w.core.tasks[id]) && RowOk(id, w.core.tasks[id], w.now);
  }

  lemma DisturbanceBreaks(w: World, src: Source)
    requires Inv(w) && Disturbs(w, ReconcileStep(src))
    ensures !Agrees(w.(core := Reconcile(w.core, src, w.now)))
  {
    var c := w.core;
    var id :| id in c.tracked && id in c.tasks && c.tasks[id].state == Running
        && ReconcileAnswer(c, src, c.tasks[id]) == Seen(PhaseSucceeded);
    ReconcileHibernates(w, src, id);
  }

  ghost predicate Undisturbed(w: World, steps: seq<Step>)
    decreases |steps|
  {
    steps == [] || (!Disturbs(w, steps[0]) && Undisturbed(Apply(w, steps[0]), steps[1..]))
  }

  /** Agreement over whole runs; a Reconcile before Argus tracks anything, as at the first start, never disturbs. */
  lemma {:induction false} RunAgrees(w: World, steps: seq<Step>)
    requires Inv(w) && Agrees(w) && EnabledAll(w, steps) && Undisturbed(w, steps)
    ensures Inv(Run(w, steps)) && Agrees(Run(w, steps))
    decreases |steps|
  {
    if steps != [] {
      StepInv(w, steps[0]);
      AgreementStep(w, steps[0]);
      RunAgrees(Apply(w, steps[0]), steps[1..]);
    }
  }

  /** Agreement in every state the run goes through. */
  ghost predicate AgreesThroughout(w: World, steps: seq<Step>)
    decreases |steps|
  {
    Agrees(w) && (steps == [] || AgreesThroughout(Apply(w, steps[0]), steps[1..]))
  }

  /** A run from agreement stays in it exactly if none of its steps is a disturbing Reconcile. */
  lemma {:induction false} AgreesThroughoutIffUndisturbed(w: World, steps: seq<Step>)
    requires Inv(w) && Agrees(w) && EnabledAll(w, steps)
    ensures AgreesThroughout(w, steps) <==> Undisturbed(w, steps)
    decreases |steps|
  {
    if steps != [] {
      hide Inv, Agrees, Enabled, Apply, Disturbs;
      var next := Apply(w, steps[0]);
      AgreementStep(w, steps[0]);
      StepInv(w, steps[0]);
      if Agrees(next) {
        AgreesThroughoutIffUndisturbed(next, steps[1..]);
      }
    }
  }

  /** Reconcile runs at the start, if at all. */
  predicate ReconciledAtStart(steps: seq<Step>) {
    forall i :: 0 < i < |steps| ==> !steps[i].ReconcileStep?
  }

  lemma {:induction false} UndisturbedWithoutReconcile(w: World, steps: seq<Step>)
    requires forall i :: 0 <= i < |steps| ==> !steps[i].ReconcileStep?
    ensures Undisturbed(w, steps)
    decreases |steps|
  {
    if steps != [] {
      forall i | 0 <= i < |steps[1..]| ensures !steps[1..][i].ReconcileStep? {
        assert steps[1..][i] == steps[i + 1];
      }
      UndisturbedWithoutReconcile(Apply(w, steps[0]), steps[1..]);
    }
  }

  /** From an empty start, with Reconcile only at the start, supervision agrees in every state of every run. */
  lemma AgreementFromStart(w: World, steps: seq<Step>)
    requires Initial(w) && EnabledAll(w, steps) && ReconciledAtStart(steps)
    ensures Inv(Run(w, steps)) && Agrees(Run(w, steps))
  {
    InitialInv(w);
    if steps != [] {
      assert !Disturbs(w, steps[0]);
      forall i | 0 <= i < |steps[1..]| ensures !steps[1..][i].ReconcileStep? {
        assert steps[1..][i] == steps[i + 1];
      }
      UndisturbedWithoutReconcile(Apply(w, steps[0]), steps[1..]);
    }
    RunAgrees(w, steps);
  }

  /** One event has been added, which ends this very run by this very pod's state, and the task went where it says. */
  ghost predicate JustEnded(before: seq<Event>, after: seq<Event>, t: Task, u: Task, now: Time) {
    exists e ::
      && after == before + [e] && Final(e.verdict) && Some(e.run) == t.runId && Some(e.pod) == t.podName
      && u == Moved(t, FinalState(e.verdict), now)
  }

  /** Only a final verdict takes a running task out of Running. */
  lemma VisitEnds(c: Core, now: Time, id: TaskId, src: Source)
    requires id in c.tasks && c.tasks[id].state == Running
    requires var d := EvaluateOne(c, now, id, src); id in d.tasks && d.tasks[id].state != Running
    requires id in c.tracked ==> Mirrors(c.tasks[id], c.tracked[id])
    ensures var d := EvaluateOne(c, now, id, src);
            JustEnded(EventsOf(c.log, id), EventsOf(d.log, id), c.tasks[id], d.tasks[id], now)
  {
    var v := VerdictFor(c, now, id, src);
    assert Final(v);
    var e := EventFor(c.tracked[id], id, v, now);
    EventsOfAppended(c.log, e, id);
    assert EventsOf(EvaluateOne(c, now, id, src).log, id) == EventsOf(c.log, id) + [e];
  }

  /** Under agreement, a tick takes a task out of Running only by judging, then, that task's own run and pod. */
  lemma ArgusJudgesOwnPod(w: World, order: seq<TaskId>, src: Source, id: TaskId)
    requires Inv(w) && Agrees(w) && IsOrder(order, Discover(w.core, w.now).tracked.Keys)
    requires id in w.core.tasks && w.core.tasks[id].state == Running
    requires var after := Tick(w.core, w.now, order, src).tasks; id in after && after[id].state != Running
    ensures var d := Tick(w.core, w.now, order, src);
            JustEnded(EventsOf(w.core.log, id), EventsOf(d.log, id), w.core.tasks[id], d.tasks[id], w.now)
  {
    hide Mirrors, EvaluateOne, EvaluateAll, EventsOf, JustEnded;
    var c := Discover(w.core, w.now);
    var answers := Arbitrary(Asked(c, w.now, order, src));
    PassIsArbitrary(c, w.now, order, src);
    EvaluateAllAt(c, w.now, order, answers, id);
    if id in c.tracked {
      DiscoverMirrors(w, id);
    }
    VisitEnds(c, w.now, id, answers);
  }

  lemma FindUnique(tasks: Table, id: TaskId, url: string)
    requires UniquePRs(tasks) && id in tasks && tasks[id].prUrl == Some(url)
    ensures FindByPR(tasks, url) == Some(id)
  {
    assert tasks[FindByPR(tasks, url).value].prUrl == tasks[id].prUrl;
  }
}
