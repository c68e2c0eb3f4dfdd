/** Which launched runs survive: exactly those that nothing Argus still tracks for their task can end. */
module Survival {
  import opened Options
  import opened Tasks
  import opened TaskHistory
  import opened ArgusRules
  import opened Supervision
  import opened Runs
  import opened Invariants
  import opened StartupOrder
  import opened HealthyPods

  /** In every run harmless to the pod it is still there at the end, and no tick touches its task. */
  ghost predicate Survives(w: World, id: TaskId, pod: PodName) {
    forall steps :: EnabledAll(w, steps) && HarmlessAll(w, steps, id, pod) ==>
      TicksLeaveAlone(w, steps, id) && pod in Run(w, steps).core.pods
  }

  /** The run has been launched at this instant. */
  ghost predicate JustLaunched(w: World, id: TaskId, pod: PodName) {
    && Inv(w) && id in w.core.tasks && w.core.tasks[id].state == Running
    && w.core.tasks[id].podName == Some(pod) && w.core.tasks[id].startedAt == Some(w.now)
    && pod in w.core.pods && w.core.pods[pod] == PhasePending
  }

  lemma UpSurvives(w: World, id: TaskId, pod: PodName)
    requires Up(w, id, pod)
    ensures Survives(w, id, pod)
  {
    forall steps | EnabledAll(w, steps) && HarmlessAll(w, steps, id, pod)
      ensures TicksLeaveAlone(w, steps, id) && pod in Run(w, steps).core.pods
    {
      HealthyPodSurvives(w, steps, id, pod);
    }
  }

  // ---- Harmless runs that end a run out of step ----

  /** What does not survive after a harmless step does not survive before it. */
  lemma DoomedBefore(w: World, step: Step, id: TaskId, pod: PodName)
    requires Enabled(w, step) && Harmless(w, step, id, pod) && !Survives(Apply(w, step), id, pod)
    ensures !Survives(w, id, pod)
  {
    hide Enabled, Harmless, Apply;
    var rest :| EnabledAll(Apply(w, step), rest) && HarmlessAll(Apply(w, step), rest, id, pod)
        && !(TicksLeaveAlone(Apply(w, step), rest, id) && pod in Run(Apply(w, step), rest).core.pods);
    var steps := [step] + rest;
    assert steps[0] == step && steps[1..] == rest;
    assert EnabledAll(w, steps) && HarmlessAll(w, steps, id, pod);
    assert !(TicksLeaveAlone(w, steps, id) && pod in Run(w, steps).core.pods);
  }

  /** A harmless tick that changes the row is one. */
  lemma TickDooms(w: World, order: seq<TaskId>, src: Source, id: TaskId, pod: PodName)
    requires Enabled(w, TickStep(order, src)) && Harmless(w, TickStep(order, src), id, pod)
    requires !Agree(Apply(w, TickStep(order, src)).core.tasks, w.core.tasks, id)
    ensures !Survives(w, id, pod)
  {
    hide Enabled, Harmless, Apply, Agree;
    var steps := [TickStep(order, src)];
    assert steps[1..] == [];
    assert EnabledAll(w, steps) && HarmlessAll(w, steps, id, pod);
    assert !TicksLeaveAlone(w, steps, id);
  }

  /** The rules end the run the tracked entry is about. */
  predicate Condemned(w: World, src: Source, id: TaskId)
    requires id in w.core.tracked
  {
    var e := w.core.tracked[id];
    Final(Judge(w.core.cfg, e, AnswerFor(src, w.core.pods, id, e.podName), w.now))
  }

  lemma DiscoverKeepsVerdict(c: Core, now: Time, id: TaskId, src: Source)
    requires id in c.tracked && !c.tracked[id].terminated
    ensures var d := Discover(c, now);
            && id in d.tracked && d.tracked[id] == c.tracked[id] && d.tasks == c.tasks && d.pods == c.pods
            && VerdictFor(d, now, id, src) ==
                Judge(c.cfg, c.tracked[id], AnswerFor(src, c.pods, id, c.tracked[id].podName), now)
  {
  }

  /** The verdict on the tracked entry moves the running task. */
  lemma VerdictMovesRow(w: World, order: seq<TaskId>, src: Source, id: TaskId)
    requires Inv(w) && Enabled(w, TickStep(order, src)) && id in w.core.tracked
    requires id in w.core.tasks && w.core.tasks[id].state == Running
    requires Condemned(w, src, id)
    ensures !Agree(Apply(w, TickStep(order, src)).core.tasks, w.core.tasks, id)
  {
    hide EvaluateAll, VerdictFor, Discover, Judge;
    var c := Discover(w.core, w.now);
    assert EntryTied(w, id, w.core.tracked[id]);
    TrackedPodsAreOwn(w);
    PassForeseen(c, w.now, order, src);
    DiscoverKeepsVerdict(w.core, w.now, id, src);
    DiscoverKeepsVerdict(w.core, w.now, id, Arbitrary(Foreseen(c, src)));
    PassJudges(c, w.now, order, Arbitrary(Foreseen(c, src)), id);
  }

  /** The dispatcher tells of every pod as it stands. */
  const LIVE := FromPods({})

  /** A run in time whose pod is pending, while the entry tracked for its task is due. */
  lemma DueEntryDooms(w: World, id: TaskId, pod: PodName)
    requires Inv(w) && id in w.core.tracked && id in w.core.tasks && w.core.tasks[id].state == Running
    requires pod in w.core.pods && w.core.pods[pod] == PhasePending
    requires w.core.tasks[id].startedAt.Some? && w.core.tasks[id].budget.Some? && InTime(w, id)
    requires Condemned(w, LIVE, id)
    ensures !Survives(w, id, pod)
  {
    hide Inv, Apply, InTime, Judge, Discover, Survives;
    var order := OrderOf(Discover(w.core, w.now).tracked.Keys);
    VerdictMovesRow(w, order, LIVE, id);
    TickDooms(w, order, LIVE, id, pod);
  }

  /** A run launched at this instant is in time. */
  lemma LaunchedInTime(w: World, id: TaskId, pod: PodName)
    requires JustLaunched(w, id, pod)
    ensures w.core.tasks[id].budget.Some? && InTime(w, id)
  {
    assert TaskTied(w, w.core.tasks[id]);
  }

  lemma PodFails(w: World, id: TaskId, pod: PodName, former: PodName)
    requires JustLaunched(w, id, pod) && former in w.core.pods && former != pod
    ensures var step := PodStep(former, Some(PhaseFailed));
            var v := Apply(w, step);
            && Enabled(w, step) && Harmless(w, step, id, pod) && JustLaunched(v, id, pod)
            && v.core.tracked == w.core.tracked && v.core.cfg == w.core.cfg && v.now == w.now
            && v.core.pods == w.core.pods[former := PhaseFailed]
  {
    StepInv(w, PodStep(former, Some(PhaseFailed)));
  }

  lemma FailedPodCondemns(w: World, id: TaskId)
    requires id in w.core.tracked && w.core.tracked[id].podName in w.core.pods
    requires w.core.pods[w.core.tracked[id].podName] == PhaseFailed
    ensures Condemned(w, LIVE, id)
  {
  }

  /** The old pod fails: Argus fails the task on its account. */
  lemma OldPodDooms(w: World, id: TaskId, pod: PodName)
    requires JustLaunched(w, id, pod) && id in w.core.tracked
    requires w.core.tracked[id].podName in w.core.pods && w.core.tracked[id].podName != pod
    ensures !Survives(w, id, pod)
  {
    var former := w.core.tracked[id].podName;
    var step := PodStep(former, Some(PhaseFailed));
    PodFails(w, id, pod, former);
    hide Apply, Survives, Harmless, Enabled, InTime, Condemned, Inv;
    FailedPodCondemns(Apply(w, step), id);
    LaunchedInTime(Apply(w, step), id, pod);
    DueEntryDooms(Apply(w, step), id, pod);
    DoomedBefore(w, step, id, pod);
  }

  function Later(a: Time, b: Time): Time {
    if a < b then b else a
  }

  lemma HeartbeatEntry(w: World, id: TaskId)
    requires id in w.core.tracked
    ensures var v := Apply(w, HeartbeatStep(id));
            && v.core.tasks == w.core.tasks && v.core.pods == w.core.pods && v.core.cfg == w.core.cfg && v.now == w.now
            && id in v.core.tracked && v.core.tracked[id] == w.core.tracked[id].(lastHeartbeat := w.now)
            && id in v.beats && v.beats[id] == w.now
  {
  }

  lemma InTimeAfterBeat(w: World, id: TaskId)
    requires id in w.core.tasks && w.core.tasks[id].startedAt.Some? && w.core.tasks[id].budget.Some?
    requires id in w.beats && w.beats[id] == w.now && w.core.tasks[id].startedAt.value <= w.now
    requires w.now - w.core.tasks[id].startedAt.value < LimitsOf(w.core.cfg, w.core.tasks[id].budget.value).maxWallClock
    ensures InTime(w, id)
  {
    hide LimitsOf;
  }

  /** After a heartbeat a run within its cap is in time; the entry stays past the cap. */
  lemma HeartbeatBuysTime(w: World, id: TaskId)
    requires Inv(w) && id in w.core.tracked && id in w.core.tasks && w.core.tasks[id].startedAt.Some?
    requires OverCap(w.core.tracked[id], w.now)
    requires w.now - w.core.tasks[id].startedAt.value < w.core.tracked[id].limits.maxWallClock
    ensures var v := Apply(w, HeartbeatStep(id));
            && Inv(v) && v.core.tasks == w.core.tasks && v.core.pods == w.core.pods && v.core.cfg == w.core.cfg
            && id in v.core.tracked && OverCap(v.core.tracked[id], v.now)
            && v.core.tasks[id].budget.Some? && InTime(v, id)
  {
    StepInv(w, HeartbeatStep(id));
    HeartbeatEntry(w, id);
    assert EntryTied(w, id, w.core.tracked[id]);
    assert RowOk(id, w.core.tasks[id], w.now);
    hide Apply, LimitsOf, Inv, EntryTied, InTime;
    InTimeAfterBeat(Apply(w, HeartbeatStep(id)), id);
  }

  /** The entry is past the cap though the run is not: a heartbeat and a tick. */
  lemma PastCapDooms(w: World, id: TaskId, pod: PodName)
    requires Inv(w) && id in w.core.tracked && id in w.core.tasks && w.core.tasks[id].state == Running
    requires pod in w.core.pods && w.core.pods[pod] == PhasePending && w.core.tasks[id].startedAt.Some?
    requires OverCap(w.core.tracked[id], w.now)
    requires w.now - w.core.tasks[id].startedAt.value < w.core.tracked[id].limits.maxWallClock
    ensures !Survives(w, id, pod)
  {
    HeartbeatBuysTime(w, id);
    hide Inv, Apply, InTime, OverCap, Survives;
    DueEntryDooms(Apply(w, HeartbeatStep(id)), id, pod);
    DoomedBefore(w, HeartbeatStep(id), id, pod);
  }

  /** The old start reaches the cap: Argus ends the run, however fresh its heartbeat. */
  lemma OldStartDooms(w: World, id: TaskId, pod: PodName)
    requires JustLaunched(w, id, pod) && id in w.core.tracked
    requires w.core.tracked[id].limits.maxWallClock > 0 && w.core.tracked[id].startedAt < w.now
    ensures !Survives(w, id, pod)
  {
    var e := w.core.tracked[id];
    var step := Advance(Later(w.now, e.startedAt + e.limits.maxWallClock));
    StepInv(w, step);
    PastCapDooms(Apply(w, step), id, pod);
    DoomedBefore(w, step, id, pod);
  }

  /** The old run's silence reaches the threshold: Argus ends the run, young as it is. */
  lemma OldSilenceDooms(w: World, id: TaskId, pod: PodName)
    requires JustLaunched(w, id, pod) && id in w.core.tracked
    requires w.core.tracked[id].limits.maxWallClock <= 0
    requires w.core.cfg.stallThreshold > 0 && w.core.tracked[id].lastHeartbeat < w.now
    ensures !Survives(w, id, pod)
  {
    var e := w.core.tracked[id];
    var step := Advance(Later(w.now, e.lastHeartbeat + w.core.cfg.stallThreshold));
    var v := Apply(w, step);
    StepInv(w, step);
    assert EntryTied(w, id, e) && TaskTied(w, w.core.tasks[id]);
    assert Stalled(v.core.cfg, v.core.tracked[id], v.now);
    DueEntryDooms(v, id, pod);
    DoomedBefore(w, step, id, pod);
  }

  // ---- Exactly who survives ----

  /** A run just launched survives exactly if what Argus tracks for its task is in step with it. */
  lemma SurvivesIffInStep(w: World, id: TaskId, pod: PodName)
    requires JustLaunched(w, id, pod)
    ensures Survives(w, id, pod) <==> InStepAt(w.core, id)
  {
    hide Survives;
    if InStepAt(w.core, id) {
      UpSurvives(w, id, pod);
    } else {
      var e := w.core.tracked[id];
      assert EntryTied(w, id, e);
      if e.podName in w.core.pods && e.podName != pod {
        OldPodDooms(w, id, pod);
      } else if e.limits.maxWallClock > 0 && e.startedAt != w.now {
        OldStartDooms(w, id, pod);
      } else {
        OldSilenceDooms(w, id, pod);
      }
    }
  }

  /** Every commissioned run survives. */
  lemma CommissionedRunSurvives(w: World, id: TaskId, budget: Budget, run: RunId, pod: PodName)
    requires Inv(w) && Enabled(w, CommissionStep(id, budget, run, pod, Launched))
    ensures Survives(Apply(w, CommissionStep(id, budget, run, pod, Launched)), id, pod)
  {
    LaunchedRunIsUp(w, id, budget, run, pod);
    UpSurvives(Apply(w, CommissionStep(id, budget, run, pod, Launched)), id, pod);
  }

  lemma RespawnLaunches(w: World, id: TaskId, url: string, run: RunId, pod: PodName)
    requires Inv(w) && Enabled(w, RespawnStep(url, run, pod, Launched)) && FindByPR(w.core.tasks, url) == Some(id)
    requires w.core.tasks[id].state == AwaitingReview
    ensures var v := Apply(w, RespawnStep(url, run, pod, Launched));
            && JustLaunched(v, id, pod)
            && v.now == w.now && v.core.tracked == w.core.tracked && v.core.cfg == w.core.cfg
            && v.core.pods == w.core.pods[pod := PhasePending]
            && (id in w.core.tracked ==> w.core.tracked[id].podName != pod && w.core.tracked[id].runId != run)
  {
    StepInv(w, RespawnStep(url, run, pod, Launched));
    assert TaskTied(w, w.core.tasks[id]) && pod !in w.core.pods;
    assert id in w.core.tracked ==> EntryTied(w, id, w.core.tracked[id]);
  }

  /**
   A run launched by a review or a mention survives exactly if an entry still tracked for its task names a pod that is
   gone and, where there is a cap, a start at this instant and, where there is a stall threshold, a sign of life at this
   instant. With cap and threshold disabled even a stale entry can end it only through its pod.
   */
  lemma RespawnedRunSurvives(w: World, id: TaskId, url: string, run: RunId, pod: PodName)
    requires Inv(w) && Enabled(w, RespawnStep(url, run, pod, Launched)) && FindByPR(w.core.tasks, url) == Some(id)
    requires w.core.tasks[id].state == AwaitingReview
    ensures Survives(Apply(w, RespawnStep(url, run, pod, Launched)), id, pod) <==>
            (id in w.core.tracked ==>
              && w.core.tracked[id].podName !in w.core.pods
              && (w.core.tracked[id].limits.maxWallClock > 0 ==> w.core.tracked[id].startedAt == w.now)
              && (w.core.cfg.stallThreshold > 0 ==> w.core.tracked[id].lastHeartbeat == w.now))
    ensures MirroredAt(Apply(w, RespawnStep(url, run, pod, Launched)).core, id) <==> id !in w.core.tracked
  {
    hide Survives, Apply;
    RespawnLaunches(w, id, url, run, pod);
    SurvivesIffInStep(Apply(w, RespawnStep(url, run, pod, Launched)), id, pod);
    if id in w.core.tracked {
      assert EntryTied(w, id, w.core.tracked[id]);
    }
  }
}
