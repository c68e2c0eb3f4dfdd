/** Argus kills no healthy pod, and after each pass nothing that should have been ended is still tracked. */
module HealthyPods {
  import opened Options
  import opened Tasks
  import opened TaskHistory
  import opened ArgusRules
  import opened Supervision
  import opened Runs
  import opened Invariants
  import opened Agreement
  import opened StartupOrder

  // ---- What a pass leaves tracked ----

  ghost predicate NoneTerminated(c: Core) {
    forall id :: id in c.tracked ==> !c.tracked[id].terminated
  }

  /** After a pass no tracked entry is over its cap, silent for too long, or about a pod seen Succeeded or Failed. */
  lemma NothingDueAfterPass(c: Core, now: Time, order: seq<TaskId>, src: Source, id: TaskId)
    requires src.Arbitrary? && IsOrder(order, c.tracked.Keys) && NoneTerminated(c)
    ensures var d := EvaluateAll(c, now, order, src);
            id in d.tracked ==>
              && id in c.tracked
              && !OverCap(d.tracked[id], now) && !Stalled(c.cfg, d.tracked[id], now)
              && AnswerFor(src, c.pods, id, c.tracked[id].podName) !in {Seen(PhaseSucceeded), Seen(PhaseFailed)}
  {
    EvaluateAllAt(c, now, order, src, id);
    PassEntry(c, now, order, src, id);
  }

  /** What still stands after a tick: no entry over its cap, silent for too long, or about a pod seen over. */
  ghost predicate NothingDue(w: World, order: seq<TaskId>, src: Source) {
    var d := Tick(w.core, w.now, order, src);
    forall id :: id in d.tracked ==>
      && !OverCap(d.tracked[id], w.now) && !Stalled(w.core.cfg, d.tracked[id], w.now)
      && AnswerFor(src, w.core.pods, id, d.tracked[id].podName) !in {Seen(PhaseSucceeded), Seen(PhaseFailed)}
      && AnswerFor(src, d.pods, id, d.tracked[id].podName) !in {Seen(PhaseSucceeded), Seen(PhaseFailed)}
  }

  /** For one entry, answers fixed. */
  lemma EntryNotDue(w: World, order: seq<TaskId>, src: Source, id: TaskId)
    requires Inv(w) && src.Arbitrary? && Enabled(w, TickStep(order, src))
    ensures var c := Discover(w.core, w.now);
            var d := EvaluateAll(c, w.now, order, src);
            id in d.tracked ==>
              && id in c.tracked && d.tracked[id].podName == c.tracked[id].podName
              && !OverCap(d.tracked[id], w.now) && !Stalled(w.core.cfg, d.tracked[id], w.now)
              && AnswerFor(src, c.pods, id, c.tracked[id].podName) !in {Seen(PhaseSucceeded), Seen(PhaseFailed)}
              && Agree(d.pods, c.pods, c.tracked[id].podName)
  {
    var c := Discover(w.core, w.now);
    forall k | k in c.tracked ensures !c.tracked[k].terminated {
      DiscoverTied(w, k);
    }
    NothingDueAfterPass(c, w.now, order, src, id);
    if id in EvaluateAll(c, w.now, order, src).tracked {
      TrackedPodsAreOwn(w);
      EvaluateAllAt(c, w.now, order, src, id);
      PassEntry(c, w.now, order, src, id);
      OwnPodSurvives(c, w.now, order, src, id);
    }
  }

  /** For one entry, answers as the source gives them. */
  lemma EntryNotDueAsked(w: World, order: seq<TaskId>, src: Source, id: TaskId)
    requires Inv(w) && Enabled(w, TickStep(order, src)) && id in Tick(w.core, w.now, order, src).tracked
    ensures var d := Tick(w.core, w.now, order, src);
            && !OverCap(d.tracked[id], w.now) && !Stalled(w.core.cfg, d.tracked[id], w.now)
            && AnswerFor(src, w.core.pods, id, d.tracked[id].podName) !in {Seen(PhaseSucceeded), Seen(PhaseFailed)}
            && Agree(d.pods, w.core.pods, d.tracked[id].podName)
  {
    hide OverCap, Stalled, EvaluateAll;
    var c := Discover(w.core, w.now);
    TrackedPodsAreOwn(w);
    PassForeseen(c, w.now, order, src);
    EntryNotDue(w, order, Arbitrary(Foreseen(c, src)), id);
  }

  /** A tick leaves nothing due, whether the dispatcher answers at will or from the live pod set. */
  lemma TickLeavesNothingDue(w: World, order: seq<TaskId>, src: Source)
    requires Inv(w) && Enabled(w, TickStep(order, src))
    ensures NothingDue(w, order, src)
  {
    hide OverCap, Stalled, Tick, Inv, IsOrder;
    var d := Tick(w.core, w.now, order, src);
    forall id | id in d.tracked
      ensures !OverCap(d.tracked[id], w.now) && !Stalled(w.core.cfg, d.tracked[id], w.now)
      ensures AnswerFor(src, w.core.pods, id, d.tracked[id].podName) !in {Seen(PhaseSucceeded), Seen(PhaseFailed)}
      ensures AnswerFor(src, d.pods, id, d.tracked[id].podName) !in {Seen(PhaseSucceeded), Seen(PhaseFailed)}
    {
      EntryNotDueAsked(w, order, src, id);
    }
  }

  ghost predicate NothingDueAfterEveryTick(w: World, steps: seq<Step>)
    decreases |steps|
  {
    steps == [] ||
    ((steps[0].TickStep? ==> NothingDue(w, steps[0].order, steps[0].src))
        && NothingDueAfterEveryTick(Apply(w, steps[0]), steps[1..]))
  }

  /** After every tick of every run nothing is tracked that should have been ended. */
  lemma {:induction false} NothingDueAfterTicks(w: World, steps: seq<Step>)
    requires Inv(w) && EnabledAll(w, steps)
    ensures NothingDueAfterEveryTick(w, steps)
    decreases |steps|
  {
    if steps != [] {
      if steps[0].TickStep? {
        TickLeavesNothingDue(w, steps[0].order, steps[0].src);
      }
      StepInv(w, steps[0]);
      NothingDueAfterTicks(Apply(w, steps[0]), steps[1..]);
    }
  }

  // ---- Healthy pods survive ----

  /** Answers a pod gives while it is Pending or Running; the dispatcher may also be out of reach. */
  predicate Alive(a: Answer) {
    a == Unreachable || a == Seen(PhasePending) || a == Seen(PhaseRunning)
  }

  /** The last sign of life of a run: its start, or the last heartbeat sent for the task. */
  function LastSign(w: World, id: TaskId): Time
    requires id in w.core.tasks && w.core.tasks[id].startedAt.Some?
  {
    var started := w.core.tasks[id].startedAt.value;
    if id in w.beats && w.beats[id] > started then w.beats[id] else started
  }

  /** Within its cap and heard from recently enough. */
  predicate InTime(w: World, id: TaskId)
    requires id in w.core.tasks && w.core.tasks[id].startedAt.Some? && w.core.tasks[id].budget.Some?
  {
    var t := w.core.tasks[id];
    var cap := LimitsOf(w.core.cfg, t.budget.value).maxWallClock;
    && (cap > 0 ==> w.now - t.startedAt.value < cap)
    && (w.core.cfg.stallThreshold > 0 ==> w.now - LastSign(w, id) < w.core.cfg.stallThreshold)
  }

  /**
   The entry does this run no harm: it is about this pod or one that is gone, and where cap and stall threshold are set
   it knows of no earlier start and of a sign of life from this run.
   */
  predicate InStep(c: Core, t: Task, e: Entry) {
    && (e.podName in c.pods ==> t.podName == Some(e.podName))
    && (e.limits.maxWallClock > 0 ==> t.startedAt == Some(e.startedAt))
    && (c.cfg.stallThreshold > 0 ==> t.startedAt.Some? && t.startedAt.value <= e.lastHeartbeat)
  }

  predicate InStepAt(c: Core, id: TaskId) {
    id in c.tracked ==> id in c.tasks && InStep(c, c.tasks[id], c.tracked[id])
  }

  /** Argus tracks this very run of the task, if any. */
  predicate MirroredAt(c: Core, id: TaskId) {
    id in c.tracked ==> id in c.tasks && Mirrors(c.tasks[id], c.tracked[id])
  }

  lemma MirroredIsInStep(w: World, id: TaskId)
    requires Inv(w) && MirroredAt(w.core, id)
    ensures InStepAt(w.core, id)
  {
    assert id in w.core.tracked ==> EntryTied(w, id, w.core.tracked[id]);
  }

  /**
   The run is on, or its task has been closed by a webhook meanwhile; its pod exists, and what Argus tracks for the task
   does it no harm.
   */
  ghost predicate Up(w: World, id: TaskId, pod: PodName) {
    && Inv(w)
    && id in w.core.tasks && (w.core.tasks[id].state == Running || w.core.tasks[id].state.Terminal())
    && w.core.tasks[id].podName == Some(pod) && w.core.tasks[id].startedAt.Some?
    && pod in w.core.pods
    && InStepAt(w.core, id)
  }

  /** Nothing about this step speaks against the pod: no bad phase, no lost heartbeat, no cap, no loss of the pod. */
  ghost predicate Harmless(w: World, step: Step, id: TaskId, pod: PodName) {
    match step
    case TickStep(_, src) =>
      && Alive(AnswerFor(src, w.core.pods, id, pod))
      && id in w.core.tasks && w.core.tasks[id].startedAt.Some? && w.core.tasks[id].budget.Some? && InTime(w, id)
    case RestartStep(src) => Alive(AnswerFor(src, w.core.pods, id, pod))
    case ReconcileStep(src) => Alive(AnswerFor(src, w.core.pods, id, pod))
    case PodStep(p, phase) => p == pod ==> phase.Some?
    case _ => true
  }

  lemma DiscoverInStep(w: World, id: TaskId)
    requires Inv(w) && InStepAt(w.core, id)
    ensures InStepAt(Discover(w.core, w.now), id)
  {
    if id in Discover(w.core, w.now).tracked && id !in w.core.tracked {
      assert RowOk(id, w.core.tasks[id], w.now);
    }
  }

  lemma NotSeenOver(c: Core, src: Source, id: TaskId, pod: PodName, e: Entry)
    requires Alive(AnswerFor(src, c.pods, id, pod)) && (e.podName in c.pods ==> e.podName == pod)
    ensures AnswerFor(src, c.pods, id, e.podName) !in {Seen(PhaseSucceeded), Seen(PhaseFailed)}
  {
  }

  lemma HealthyVerdict(w: World, c: Core, id: TaskId, src: Source)
    requires id in c.tracked && EntryTied(w, id, c.tracked[id]) && c.cfg == w.core.cfg && id in w.core.tasks
    requires InStep(c, w.core.tasks[id], c.tracked[id])
    requires w.core.tasks[id].startedAt.Some? && w.core.tasks[id].budget.Some? && InTime(w, id)
    requires AnswerFor(src, c.pods, id, c.tracked[id].podName) !in {Seen(PhaseSucceeded), Seen(PhaseFailed)}
    ensures !Final(VerdictFor(c, w.now, id, src))
  {
  }

  lemma PassInStep(c: Core, now: Time, order: seq<TaskId>, src: Source, id: TaskId)
    requires src.Arbitrary? && Distinct(order) && InStepAt(c, id) && !Final(VerdictFor(c, now, id, src))
    ensures InStepAt(EvaluateAll(c, now, order, src), id)
  {
    EvaluateAllAt(c, now, order, src, id);
    EvaluateAllPods(c, now, order, src);
    PassConfig(c, now, order, src);
  }

  lemma PassMirrored(w: World, order: seq<TaskId>, src: Source, id: TaskId)
    requires Inv(w) && src.Arbitrary? && IsOrder(order, Discover(w.core, w.now).tracked.Keys) && MirroredAt(w.core, id)
    ensures MirroredAt(EvaluateAll(Discover(w.core, w.now), w.now, order, src), id)
  {
    var c := Discover(w.core, w.now);
    PassEntry(c, w.now, order, src, id);
    if id in c.tracked {
      DiscoverMirrors(w, id);
      PassMirrors(c, w.now, order, src, id);
    }
  }

  lemma PassSparesHealthy(w: World, c: Core, order: seq<TaskId>, src: Source, id: TaskId, pod: PodName)
    requires c == Discover(w.core, w.now) && src.Arbitrary? && IsOrder(order, c.tracked.Keys)
    requires Up(w, id, pod) && w.core.tasks[id].budget.Some? && InTime(w, id)
    requires id in c.tracked ==>
               AnswerFor(src, c.pods, id, c.tracked[id].podName) !in {Seen(PhaseSucceeded), Seen(PhaseFailed)}
    ensures !Final(VerdictFor(c, w.now, id, src))
    ensures var d := EvaluateAll(c, w.now, order, src);
            && id in d.tasks && d.tasks[id] == w.core.tasks[id] && InStepAt(d, id)
            && (MirroredAt(w.core, id) ==> MirroredAt(d, id))
  {
    hide EvaluateAll, VerdictFor, Mirrors, InStep;
    DiscoverInStep(w, id);
    if id in c.tracked {
      DiscoverTied(w, id);
      HealthyVerdict(w, c, id, src);
    } else {
      NoVerdict(c, w.now, id, src);
    }
    PassInStep(c, w.now, order, src, id);
    PassJudges(c, w.now, order, src, id);
    if MirroredAt(w.core, id) {
      PassMirrored(w, order, src, id);
    }
  }

  lemma NoVerdict(c: Core, now: Time, id: TaskId, src: Source)
    requires id !in c.tracked
    ensures VerdictFor(c, now, id, src) == LeaveAlone
  {
  }

  lemma EntryHarmless(c: Core, src: Source, id: TaskId, pod: PodName)
    requires id in c.tracked && id in c.tasks && c.tasks[id].podName == Some(pod) && InStepAt(c, id)
    requires Alive(AnswerFor(src, c.pods, id, pod))
    ensures AnswerFor(src, c.pods, id, c.tracked[id].podName) !in {Seen(PhaseSucceeded), Seen(PhaseFailed)}
  {
    NotSeenOver(c, src, id, pod, c.tracked[id]);
  }

  /** A tick leaves a harmless run alone: no verdict ends it, its row does not change, its pod stays. */
  lemma TickSparesHealthy(w: World, order: seq<TaskId>, src: Source, id: TaskId, pod: PodName)
    requires Up(w, id, pod) && IsOrder(order, Discover(w.core, w.now).tracked.Keys)
    requires Harmless(w, TickStep(order, src), id, pod)
    ensures var d := Tick(w.core, w.now, order, src);
            && id in d.tasks && d.tasks[id] == w.core.tasks[id] && pod in d.pods && InStepAt(d, id)
            && (MirroredAt(w.core, id) ==> MirroredAt(d, id))
  {
    hide EvaluateAll, VerdictFor, MirroredAt, InStep, InTime;
    var c := Discover(w.core, w.now);
    TrackedPodsAreOwn(w);
    PassForeseen(c, w.now, order, src);
    var answers := Arbitrary(Foreseen(c, src));
    DiscoverInStep(w, id);
    if id in c.tracked {
      EntryHarmless(c, src, id, pod);
    }
    PassSparesHealthy(w, c, order, answers, id, pod);
    OthersSparePod(w, order, answers, id, pod);
  }

  lemma OthersSparePod(w: World, order: seq<TaskId>, src: Source, id: TaskId, pod: PodName)
    requires Inv(w) && src.Arbitrary? && IsOrder(order, Discover(w.core, w.now).tracked.Keys)
    requires pod in w.core.pods && id in w.core.tasks && w.core.tasks[id].podName == Some(pod)
    requires !Final(VerdictFor(Discover(w.core, w.now), w.now, id, src))
    ensures pod in Tick(w.core, w.now, order, src).pods
  {
    var c := Discover(w.core, w.now);
    assert TaskTied(w, w.core.tasks[id]) && RowOk(id, w.core.tasks[id], w.now);
    EvaluateAllPods(c, w.now, order, src);
    forall other | other in order && Final(VerdictFor(c, w.now, other, src)) ensures c.tracked[other].podName != pod {
      DiscoverTied(w, other);
    }
  }

  lemma CommissionSpares(w: World, step: Step, id: TaskId, pod: PodName)
    requires step.CommissionStep? && id in w.core.tasks && pod in w.core.pods && Enabled(w, step)
    ensures var d := ApplyCore(w, step);
            Agree(d.tasks, w.core.tasks, id) && d.tracked == w.core.tracked && pod in d.pods
  {
    var c := w.core.(tasks := Insert(w.core.tasks, NewTask(step.id, step.budget, w.now), w.now));
    DispatchLeavesOthers(c, step.id, step.run, step.pod, step.launch, w.now, id);
  }

  lemma LaunchSpares(w: World, step: Step, id: TaskId, pod: PodName)
    requires Up(w, id, pod) && Enabled(w, step) && (step.CommissionStep? || step.RespawnStep?)
    ensures var d := ApplyCore(w, step);
            Agree(d.tasks, w.core.tasks, id) && d.tracked == w.core.tracked && pod in d.pods
  {
    hide Inv, InStepAt, Commission;
    if step.CommissionStep? {
      CommissionSpares(w, step, id, pod);
    } else if FindByPR(w.core.tasks, step.url).Some? {
      var on := FindByPR(w.core.tasks, step.url).value;
      if on != id {
        DispatchLeavesOthers(w.core, on, step.run, step.pod, step.launch, w.now, id);
      }
    }
  }

  lemma LaunchAddsPod(w: World, step: Step)
    requires step.CommissionStep? || step.RespawnStep?
    ensures ApplyCore(w, step).pods.Keys <= w.core.pods.Keys + {step.pod}
  {
  }

  /** A fresh pod takes no tracked pod's name. */
  lemma LaunchInStep(w: World, step: Step, id: TaskId, pod: PodName)
    requires Up(w, id, pod) && Enabled(w, step) && (step.CommissionStep? || step.RespawnStep?)
    ensures InStepAt(ApplyCore(w, step), id)
    ensures MirroredAt(w.core, id) ==> MirroredAt(ApplyCore(w, step), id)
  {
    LaunchSpares(w, step, id, pod);
    LaunchAddsPod(w, step);
    StepConfig(w, step);
    hide ApplyCore, Mirrors;
    if id in w.core.tracked {
      assert EntryTied(w, id, w.core.tracked[id]);
    }
  }

  lemma HarmlessReconcile(w: World, src: Source, id: TaskId, pod: PodName)
    requires Up(w, id, pod) && Harmless(w, ReconcileStep(src), id, pod)
    ensures Reconcile(w.core, src, w.now).tasks[id] == w.core.tasks[id]
  {
    assert TaskTied(w, w.core.tasks[id]) && RowOk(id, w.core.tasks[id], w.now);
  }

  lemma QuietRowSpared(w: World, step: Step, id: TaskId, pod: PodName)
    requires Up(w, id, pod) && Enabled(w, step) && Quiet(step) && Harmless(w, step, id, pod)
    ensures var d := ApplyCore(w, step);
            && id in d.tasks && (d.tasks[id].state == Running || d.tasks[id].state.Terminal())
            && d.tasks[id].podName == Some(pod) && d.tasks[id].startedAt == w.core.tasks[id].startedAt
            && d.tasks[id].runId == w.core.tasks[id].runId
  {
    hide InStep;
    QuietKeys(w, step, id);
    QuietRows(w, step, id);
    if step.ReconcileStep? {
      HarmlessReconcile(w, step.src, id, pod);
    }
  }

  lemma QuietSpares(w: World, step: Step, id: TaskId, pod: PodName)
    requires Up(w, id, pod) && Enabled(w, step) && Quiet(step) && Harmless(w, step, id, pod)
    ensures var d := ApplyCore(w, step);
            && id in d.tasks && d.tasks[id].podName == Some(pod) && d.tasks[id].startedAt == w.core.tasks[id].startedAt
            && (d.tasks[id].state == Running || d.tasks[id].state.Terminal())
            && InStepAt(d, id) && (MirroredAt(w.core, id) ==> MirroredAt(d, id))
  {
    QuietRowSpared(w, step, id, pod);
    QuietEntries(w, step);
    StepConfig(w, step);
    hide ApplyCore;
    if id in ApplyCore(w, step).tracked {
      assert Agree(ApplyCore(w, step).tracked, w.core.tracked, id);
    }
  }

  lemma QuietKeepsPod(w: World, step: Step, id: TaskId, pod: PodName)
    requires Quiet(step) && Harmless(w, step, id, pod) && pod in w.core.pods
    ensures pod in ApplyCore(w, step).pods
  {
  }

  lemma HeartbeatSpares(w: World, on: TaskId, id: TaskId, pod: PodName)
    requires Up(w, id, pod)
    ensures var d := Heartbeat(w.core, on, w.now);
            && d.tasks == w.core.tasks && d.pods == w.core.pods
            && InStepAt(d, id) && (MirroredAt(w.core, id) ==> MirroredAt(d, id))
  {
  }

  /** A harmless step keeps the pod up. */
  lemma StepSparesHealthy(w: World, step: Step, id: TaskId, pod: PodName)
    requires Up(w, id, pod) && Enabled(w, step) && Harmless(w, step, id, pod)
    ensures Up(Apply(w, step), id, pod)
    ensures MirroredAt(w.core, id) ==> MirroredAt(Apply(w, step).core, id)
  {
    hide InStep, Mirrors;
    StepInv(w, step);
    if step.TickStep? {
      TickSparesHealthy(w, step.order, step.src, id, pod);
    } else if step.CommissionStep? || step.RespawnStep? {
      LaunchSpares(w, step, id, pod);
      LaunchInStep(w, step, id, pod);
    } else if step.HeartbeatStep? {
      HeartbeatSpares(w, step.id, id, pod);
    } else if Quiet(step) {
      QuietSpares(w, step, id, pod);
      QuietKeepsPod(w, step, id, pod);
    }
  }

  ghost predicate HarmlessAll(w: World, steps: seq<Step>, id: TaskId, pod: PodName)
    decreases |steps|
  {
    steps == [] || (Harmless(w, steps[0], id, pod) && HarmlessAll(Apply(w, steps[0]), steps[1..], id, pod))
  }

  /** No tick of the run changes the task's row. */
  ghost predicate TicksLeaveAlone(w: World, steps: seq<Step>, id: TaskId)
    decreases |steps|
  {
    steps == [] ||
    ((steps[0].TickStep? ==> Agree(Apply(w, steps[0]).core.tasks, w.core.tasks, id))
        && TicksLeaveAlone(Apply(w, steps[0]), steps[1..], id))
  }

  /**
   No healthy pod is killed. In every run, Argus restarts included, a pod whose phase stays Pending or Running whenever
   anyone asks, whose wall time stays below its cap and whose heartbeat gaps stay below the stall threshold at every
   tick, is still there at the end, and Argus never touched its task.
   */
  lemma {:induction false} HealthyPodSurvives(w: World, steps: seq<Step>, id: TaskId, pod: PodName)
    requires Up(w, id, pod) && EnabledAll(w, steps) && HarmlessAll(w, steps, id, pod)
    ensures Up(Run(w, steps), id, pod) && TicksLeaveAlone(w, steps, id)
    ensures MirroredAt(w.core, id) ==> MirroredAt(Run(w, steps).core, id)
    decreases |steps|
  {
    if steps != [] {
      StepSparesHealthy(w, steps[0], id, pod);
      if steps[0].TickStep? {
        TickSparesHealthy(w, steps[0].order, steps[0].src, id, pod);
      }
      HealthyPodSurvives(Apply(w, steps[0]), steps[1..], id, pod);
    }
  }

  /** The theorem applies from the moment a run is launched. */
  lemma LaunchedRunIsUp(w: World, id: TaskId, budget: Budget, run: RunId, pod: PodName)
    requires Inv(w) && Enabled(w, CommissionStep(id, budget, run, pod, Launched))
    ensures var v := Apply(w, CommissionStep(id, budget, run, pod, Launched));
            Up(v, id, pod) && MirroredAt(v.core, id)
  {
    StepInv(w, CommissionStep(id, budget, run, pod, Launched));
    assert pod !in w.core.pods && id !in w.core.tracked;
  }

  /** Under agreement it applies from every respawn on too. */
  lemma AgreeingRespawnIsUp(w: World, id: TaskId, url: string, run: RunId, pod: PodName)
    requires Inv(w) && Agrees(w)
    requires Enabled(w, RespawnStep(url, run, pod, Launched)) && FindByPR(w.core.tasks, url) == Some(id)
    requires w.core.tasks[id].state == AwaitingReview
    ensures var v := Apply(w, RespawnStep(url, run, pod, Launched));
            Up(v, id, pod) && MirroredAt(v.core, id)
  {
    StepInv(w, RespawnStep(url, run, pod, Launched));
    assert TaskTied(w, w.core.tasks[id]) && pod !in w.core.pods && id !in w.core.tracked;
  }
}
