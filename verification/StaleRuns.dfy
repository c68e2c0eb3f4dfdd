/**
 What a Reconcile that hibernates a task behind Argus's back leads to: Argus goes on judging the task by the pod of the
 run that is over, and ends the run a review starts next.
 */
module StaleRuns {
  import opened Options
  import opened Tasks
  import opened TaskHistory
  import opened ArgusRules
  import opened Supervision
  import opened Runs
  import opened Invariants
  import opened Agreement
  import opened StartupOrder

  /** Argus still tracks a run of the task that is over, while the task is running under another pod. */
  ghost predicate Stale(w: World, id: TaskId) {
    && id in w.core.tracked && id in w.core.tasks && w.core.tasks[id].state == Running
    && w.core.tasks[id].podName.Some? && w.core.tasks[id].podName.value in w.core.pods
    && w.core.tracked[id].podName != w.core.tasks[id].podName.value
  }

  /** The dispatcher calls the pod of the tracked run Succeeded. */
  predicate TrackedSucceeded(c: Core, src: Source, id: TaskId) {
    id in c.tracked && AnswerFor(src, c.pods, id, c.tracked[id].podName) == Seen(PhaseSucceeded)
  }

  lemma OnlyOwnersDeletePods(w: World, order: seq<TaskId>, src: Source, id: TaskId, pod: PodName)
    requires Inv(w) && IsOrder(order, Discover(w.core, w.now).tracked.Keys) && src.Arbitrary?
    requires pod in w.core.pods && w.owner[pod] == id
    requires id in w.core.tracked && w.core.tracked[id].podName != pod
    ensures pod in EvaluateAll(Discover(w.core, w.now), w.now, order, src).pods
  {
    var c := Discover(w.core, w.now);
    EvaluateAllPods(c, w.now, order, src);
    forall other | other in order && Final(VerdictFor(c, w.now, other, src)) ensures c.tracked[other].podName != pod {
      DiscoverTied(w, other);
    }
  }

  /** The visit to a running task whose tracked pod is called Succeeded hibernates it. */
  lemma VisitHibernates(c: Core, now: Time, id: TaskId, src: Source)
    requires TrackedSucceeded(c, src, id) && !c.tracked[id].terminated && id in c.tasks && c.tasks[id].state == Running
    ensures var d := EvaluateOne(c, now, id, src);
            id in d.tasks && d.tasks[id].state == AwaitingReview && id !in d.tracked
  {
  }

  /**
   A stale entry whose pod is seen Succeeded ends the new run: the task hibernates, its live pod stays unsupervised.
   */
  lemma StaleEntryEndsNewRun(w: World, order: seq<TaskId>, src: Source, id: TaskId)
    requires Inv(w) && Stale(w, id) && IsOrder(order, Discover(w.core, w.now).tracked.Keys)
    requires TrackedSucceeded(w.core, src, id)
    ensures var d := Tick(w.core, w.now, order, src);
            && id in d.tasks && d.tasks[id].state == AwaitingReview && id !in d.tracked
            && w.core.tasks[id].podName.value in d.pods
  {
    hide EvaluateOne, EvaluateAll, VerdictFor;
    var c := Discover(w.core, w.now);
    assert EntryTied(w, id, w.core.tracked[id]) && TaskTied(w, w.core.tasks[id]);
    assert RowOk(id, w.core.tasks[id], w.now);
    TrackedPodsAreOwn(w);
    PassForeseen(c, w.now, order, src);
    var answers := Arbitrary(Foreseen(c, src));
    assert TrackedSucceeded(c, answers, id);
    EvaluateAllAt(c, w.now, order, answers, id);
    VisitHibernates(c, w.now, id, answers);
    OnlyOwnersDeletePods(w, order, answers, id, w.core.tasks[id].podName.value);
  }

  lemma RespawnMakesStale(u: World, v: World, id: TaskId, run: RunId, pod: PodName)
    requires Inv(u) && id in u.core.tracked && u.core.tasks[id].state == AwaitingReview && FreshRun(u, run, pod)
    requires v.core == Respawn(u.core, id, run, pod, Launched, u.now)
    ensures Stale(v, id) && v.core.tasks[id].podName == Some(pod)
    ensures forall src :: TrackedSucceeded(u.core, src, id) ==> TrackedSucceeded(v.core, src, id)
  {
    assert TaskTied(u, u.core.tasks[id]) && EntryTied(u, id, u.core.tracked[id]) && RowOk(id, u.core.tasks[id], u.now);
    assert pod !in u.core.pods;
  }

  /** What a Minos restart followed by a qualifying review makes of a state. */
  ghost function RestartThenReview(w: World, src: Source, url: string, run: RunId, pod: PodName): World {
    Apply(Apply(w, ReconcileStep(src)), RespawnStep(url, run, pod, Launched))
  }

  /** A tracked running task whose pull request is reported; its pod, and the tracked one, are called Succeeded. */
  ghost predicate OverAndReported(w: World, src: Source, id: TaskId, url: string) {
    && TrackedSucceeded(w.core, src, id) && id in w.core.tasks && w.core.tasks[id].state == Running
    && ReconcileAnswer(w.core, src, w.core.tasks[id]) == Seen(PhaseSucceeded)
    && w.core.tasks[id].prUrl == Some(url)
  }

  lemma RestartThenReviewMakesStale(w: World, src: Source, id: TaskId, url: string, run: RunId, pod: PodName)
    requires Inv(w) && OverAndReported(w, src, id, url) && FreshRun(w, run, pod)
    ensures var v := RestartThenReview(w, src, url, run, pod);
            Inv(v) && Stale(v, id) && v.core.tasks[id].podName == Some(pod) && TrackedSucceeded(v.core, src, id)
  {
    var u := Apply(w, ReconcileStep(src));
    StepInv(w, ReconcileStep(src));
    assert u.core == Reconcile(w.core, src, w.now) && FreshRun(u, run, pod);
    ReconcileHibernates(w, src, id);
    FindUnique(u.core.tasks, id, url);
    var v := Apply(u, RespawnStep(url, run, pod, Launched));
    StepInv(u, RespawnStep(url, run, pod, Launched));
    RespawnMakesStale(u, v, id, run, pod);
  }

  /**
   From every state with a tracked run whose pod is seen Succeeded and whose pull request is reported: a Minos restart
   (Reconcile), a review that respawns the task, and a tick leave the task hibernating again while the pod of its new
   run lives on, tracked by nobody.
   */
  lemma ReconcileThenReviewLosesRun(w: World, src: Source, id: TaskId, url: string, run: RunId, pod: PodName,
          order: seq<TaskId>)
    requires Inv(w) && OverAndReported(w, src, id, url) && FreshRun(w, run, pod)
    requires var v := RestartThenReview(w, src, url, run, pod); IsOrder(order, Discover(v.core, v.now).tracked.Keys)
    ensures var v := RestartThenReview(w, src, url, run, pod);
            var d := Tick(v.core, v.now, order, src);
            id in d.tasks && d.tasks[id].state == AwaitingReview && id !in d.tracked && pod in d.pods
  {
    RestartThenReviewMakesStale(w, src, id, url, run, pod);
    StaleEntryEndsNewRun(RestartThenReview(w, src, url, run, pod), order, src, id);
  }
}
