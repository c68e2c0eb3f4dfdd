/**
 What each operation of Minos and Argus makes of a task, told from the task's row, its entry and its pod alone, branch
 by branch as the sources order them.
 */
module Outcomes {
  import opened Options
  import opened Tasks
  import opened ArgusRules
  import opened Supervision

  /** The row of a task that has just failed. */
  function FailedRow(t: Task, now: Time): Task {
    t.(state := Failed, finishedAt := Some(now), stateChangedAt := now, remindedAt := None)
  }

  function CompletedRow(t: Task, now: Time): Task {
    t.(state := Completed, finishedAt := Some(now), stateChangedAt := now, remindedAt := None)
  }

  function HibernatedRow(t: Task, now: Time): Task {
    t.(state := AwaitingReview, stateChangedAt := now, remindedAt := None)
  }

  function RunningRow(t: Task, run: RunId, pod: PodName, now: Time): Task {
    t.(state := Running, runId := Some(run), podName := Some(pod), startedAt := Some(now), stateChangedAt := now,
       remindedAt := None)
  }

  predicate Live(t: Task) {
    t.state == Queued || t.state == Running || t.state == AwaitingReview
  }

  // ---- Reconcile ----

  /**
   At a start of Minos: a running task without a pod name, or whose pod is missing, failed or of unknown phase, fails;
   one whose pod succeeded awaits review; one whose pod is pending, running or out of reach stays, and so does every
   other.
   */
  lemma ReconcileRules(c: Core, src: Source, now: Time, id: TaskId)
    requires id in c.tasks && c.tasks[id].id == id
    ensures var t, d := c.tasks[id], Reconcile(c, src, now);
            && d == c.(tasks := d.tasks) && d.tasks.Keys == c.tasks.Keys
            && d.tasks[id] ==
               if t.state != Running then t
               else if t.podName == None || t.podName == Some("") then FailedRow(t, now)
               else match AnswerFor(src, c.pods, id, t.podName.value)
                    case NoSuchPod => FailedRow(t, now)
                    case Unreachable => t
                    case Seen(phase) =>
                      match phase
                      case PhaseSucceeded => HibernatedRow(t, now)
                      case PhaseFailed => FailedRow(t, now)
                      case PhaseUnknown => FailedRow(t, now)
                      case PhasePending => t
                      case PhaseRunning => t
  {
  }

  // ---- Launches ----

  /** The pod cannot be had: the spec cannot be built, the spawn fails, or the name is taken. */
  predicate NoPod(c: Core, pod: PodName, launch: Launch) {
    launch == BuildFailed || launch == SpawnFailed || (launch == Launched && pod in c.pods)
  }

  /**
   dispatch: with a pod, the task runs under it from now on; without one, the task fails. Nothing else changes but that
   pod.
   */
  lemma DispatchRules(c: Core, id: TaskId, run: RunId, pod: PodName, launch: Launch, now: Time)
    requires id in c.tasks && (c.tasks[id].state == Queued || c.tasks[id].state == AwaitingReview)
    ensures var d := Dispatch(c, id, run, pod, launch, now);
            if NoPod(c, pod, launch) then d == c.(tasks := c.tasks[id := FailedRow(c.tasks[id], now)])
            else if launch == Launched then
              d == c.(tasks := c.tasks[id := RunningRow(c.tasks[id], run, pod, now)],
                      pods := c.pods[pod := PhasePending])
            else d == c
  {
  }

  /** A commission under a new id: the row starts queued, at this instant, with its budget, and is dispatched. */
  lemma CommissionRules(c: Core, id: TaskId, budget: Budget, run: RunId, pod: PodName, launch: Launch, now: Time)
    requires id !in c.tasks && launch != Refused
    ensures var t := Task(id, Queued, Some(budget), None, None, None, now, None, None, now, None);
            Commission(c, id, budget, run, pod, launch, now) ==
            if NoPod(c, pod, launch) then c.(tasks := c.tasks[id := FailedRow(t, now)])
            else c.(tasks := c.tasks[id := RunningRow(t, run, pod, now)], pods := c.pods[pod := PhasePending])
  {
    var t := Task(id, Queued, Some(budget), None, None, None, now, None, None, now, None);
    var inserted := c.(tasks := c.tasks[id := t]);
    assert Insert(c.tasks, NewTask(id, budget, now), now) == c.tasks[id := t];
    DispatchRules(inserted, id, run, pod, launch, now);
    assert c.tasks[id := t][id := FailedRow(t, now)] == c.tasks[id := FailedRow(t, now)];
    assert c.tasks[id := t][id := RunningRow(t, run, pod, now)] == c.tasks[id := RunningRow(t, run, pod, now)];
  }

  /** A review or a mention dispatches the task of the pull request if it awaits review, and does nothing otherwise. */
  lemma RespawnRules(c: Core, id: TaskId, url: string, run: RunId, pod: PodName, launch: Launch, now: Time)
    requires UniquePRs(c.tasks) && id in c.tasks && c.tasks[id].prUrl == Some(url) && c.tasks[id].budget.Some?
    ensures var t, d := c.tasks[id], RespawnByPR(c, url, run, pod, launch, now);
            if t.state != AwaitingReview || launch == Refused then d == c
            else if NoPod(c, pod, launch) then d == c.(tasks := c.tasks[id := FailedRow(t, now)])
            else d == c.(tasks := c.tasks[id := RunningRow(t, run, pod, now)], pods := c.pods[pod := PhasePending])
  {
    assert FindByPR(c.tasks, url) == Some(id) by {
      assert c.tasks[FindByPR(c.tasks, url).value].prUrl == c.tasks[id].prUrl;
    }
    if c.tasks[id].state == AwaitingReview {
      DispatchRules(c, id, run, pod, launch, now);
    }
  }

  /** Nor do they for a URL no task has reported. */
  lemma UnknownPullRequest(c: Core, url: string, run: RunId, pod: PodName, launch: Launch, now: Time, merged: bool)
    requires forall id :: id in c.tasks ==> c.tasks[id].prUrl != Some(url)
    ensures RespawnByPR(c, url, run, pod, launch, now) == c && PullRequestClosed(c, url, merged, now) == c
  {
    assert FindByPR(c.tasks, url) == None;
  }

  /**
   A closed pull request completes its task if it was merged and fails it if not; a terminal task stays as it is, and so
   does one that was never dispatched when its pull request is merged.
   */
  lemma ClosedRules(c: Core, id: TaskId, url: string, merged: bool, now: Time)
    requires UniquePRs(c.tasks) && id in c.tasks && c.tasks[id].prUrl == Some(url)
    ensures var t := c.tasks[id];
            PullRequestClosed(c, url, merged, now) ==
            if merged && (t.state == Running || t.state == AwaitingReview)
              then c.(tasks := c.tasks[id := CompletedRow(t, now)])
            else if !merged && Live(t) then c.(tasks := c.tasks[id := FailedRow(t, now)])
            else c
  {
    assert FindByPR(c.tasks, url) == Some(id) by {
      assert c.tasks[FindByPR(c.tasks, url).value].prUrl == c.tasks[id].prUrl;
    }
  }

  // ---- The sweeper ----

  /** Past the abandon age a task awaiting review fails; past the reminder age it is marked, unless it is already. */
  lemma SweepRules(tasks: Table, reminder: int, abandon: int, now: Time, id: TaskId)
    requires id in tasks
    ensures Sweep(tasks, reminder, abandon, now).Keys == tasks.Keys
    ensures var t := tasks[id];
            var waited := now - t.stateChangedAt;
            Sweep(tasks, reminder, abandon, now)[id] ==
            if t.state == AwaitingReview && abandon > 0 && waited >= abandon then FailedRow(t, now)
            else if t.state == AwaitingReview && reminder > 0 && waited >= reminder && t.remindedAt == None
              then t.(remindedAt := Some(now))
            else t
  {
  }

  // ---- Argus ----

  /**
   The run is over: its pod and its entry go, and an event tells why. A running task moves on; a failure also moves one
   that is not running but not terminal either.
   */
  ghost predicate Ended(c: Core, d: Core, now: Time, id: TaskId, v: Verdict, u: Task)
    requires id in c.tracked && id in c.tasks
  {
    var e := c.tracked[id];
    && d.tracked == c.tracked - {id} && d.persisted == c.persisted - {id} && d.pods == c.pods - {e.podName}
    && d.log == c.log + [Event(id, e.runId, e.podName, v, now - e.startedAt)]
    && d.tasks == if c.tasks[id].state == Running || (v != Hibernate && Live(c.tasks[id])) then c.tasks[id := u]
                  else c.tasks
  }

  /** A notice: its flag is set and kept, and an event tells of it; nothing else changes. */
  ghost predicate Noted(c: Core, d: Core, now: Time, id: TaskId, v: Verdict, f: Entry)
    requires id in c.tracked
  {
    var e := c.tracked[id];
    d == c.(tracked := c.tracked[id := f], persisted := c.persisted[id := f],
            log := c.log + [Event(id, e.runId, e.podName, v, now - e.startedAt)])
  }

  /**
   The rules, first come first served: a pod seen succeeded hibernates the task, one seen failed fails it; past the
   cap or silent for the stall threshold the run is terminated; past the escalation threshold, once, the thread is
   escalated; past the warning threshold, once, it is warned; otherwise nothing happens.
   */
  lemma VisitRules(c: Core, now: Time, id: TaskId, src: Source)
    requires id in c.tracked && !c.tracked[id].terminated && id in c.tasks
    ensures var e, t := c.tracked[id], c.tasks[id];
            var d := EvaluateOne(c, now, id, src);
            var a := AnswerFor(src, c.pods, id, e.podName);
            var wall, silent, cap := now - e.startedAt, now - e.lastHeartbeat, e.limits.maxWallClock;
            if a == Seen(PhaseSucceeded) then Ended(c, d, now, id, Hibernate, HibernatedRow(t, now))
            else if a == Seen(PhaseFailed) then Ended(c, d, now, id, MarkFailed, FailedRow(t, now))
            else if cap > 0 && wall >= cap then Ended(c, d, now, id, Terminate, FailedRow(t, now))
            else if c.cfg.stallThreshold > 0 && silent >= c.cfg.stallThreshold
              then Ended(c, d, now, id, Terminate, FailedRow(t, now))
            else if cap > 0 && !e.escalated && e.limits.escalationAt > 0 && wall >= e.limits.escalationAt
              then Noted(c, d, now, id, Escalate(PercentOf(wall, cap)), e.(escalated := true))
            else if cap > 0 && !e.warned && e.limits.warningAt > 0 && wall >= e.limits.warningAt
              then Noted(c, d, now, id, Warn(PercentOf(wall, cap)), e.(warned := true))
            else d == c
  {
    var v := VerdictFor(c, now, id, src);
    if Final(v) {
      assert EvaluateOne(c, now, id, src) == Finish(c, id, v, now);
    }
  }

  /**
   discover tracks exactly the running tasks with an envelope, a pod and a run that are not tracked yet: from the stored
   start, or the creation if none is stored, heard from at this instant and unflagged.
   */
  lemma DiscoverRules(c: Core, now: Time, id: TaskId)
    ensures var d := Discover(c, now);
            && d == c.(tracked := d.tracked, persisted := d.persisted)
            && (id in c.tracked ==> id in d.tracked && d.tracked[id] == c.tracked[id])
            && (id !in c.tracked ==>
                (id in d.tracked <==>
                 && id in c.tasks && c.tasks[id].state == Running
                 && c.tasks[id].budget.Some? && c.tasks[id].podName.Some? && c.tasks[id].runId.Some?))
            && (id !in c.tracked && id in d.tracked ==>
                var t := c.tasks[id];
                var start := if t.startedAt == None || t.startedAt == Some(ZERO_TIME) then t.createdAt
                             else t.startedAt.value;
                && id in d.persisted && d.persisted[id] == d.tracked[id]
                && d.tracked[id] == Entry(t.runId.value, t.podName.value, start, now,
                                          LimitsOf(c.cfg, t.budget.value), false, false, false))
  {
  }

  /**
   A restart keeps an entry, unchanged, exactly if the dispatcher does not name a terminal or an unknown phase for its
   pod: a missing pod and a dispatcher out of reach keep it.
   */
  lemma RestartRules(c: Core, src: Source, id: TaskId)
    ensures var d := Restart(c, src);
            && d == c.(tracked := d.tracked, persisted := d.persisted) && d.persisted == d.tracked
            && (id in d.tracked <==>
                && id in c.persisted
                && AnswerFor(src, c.pods, id, c.persisted[id].podName) !in
                   {Seen(PhaseSucceeded), Seen(PhaseFailed), Seen(PhaseUnknown)})
            && (id in d.tracked ==> d.tracked[id] == c.persisted[id])
  {
    assert Restart(c, src).tracked == Restart(c, src).persisted;
  }

  /** A heartbeat moves the last sign of life of a tracked task, in memory and in the persister, and nothing else. */
  lemma HeartbeatRules(c: Core, id: TaskId, now: Time)
    ensures Heartbeat(c, id, now) ==
            if id !in c.tracked then c
            else
              var e := c.tracked[id].(lastHeartbeat := now);
              c.(tracked := c.tracked[id := e], persisted := c.persisted[id := e])
  {
  }
}
