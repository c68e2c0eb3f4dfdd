/**
 Runs of the whole supervision protocol: commissions, respawns, webhooks, sweeps, heartbeats, Argus ticks, restarts of
 Argus between operations, Reconcile at any Minos start, and a cluster that changes pods on its own.
 */
module Runs {
  import opened Options
  import opened Tasks
  import opened TaskHistory
  import opened ArgusRules
  import opened Supervision

  /**
   `now` is the clock all daemons share. The last four fields observe the run and influence nothing: which task each
   pod name was minted for, the run ids in use, the last heartbeat sent for a task, and the reminders posted for a
   task since it last changed state.
   */
  datatype World = World(
    core: Core,
    now: Time,
    owner: map<PodName, TaskId>,
    runs: set<RunId>,
    beats: map<TaskId, Time>,
    posted: map<TaskId, nat>
  )

  datatype Step =
    | Advance(to: Time)
    | CommissionStep(id: TaskId, budget: Budget, run: RunId, pod: PodName, launch: Launch)
    | RespawnStep(url: string, run: RunId, pod: PodName, launch: Launch)
    | CloseStep(url: string, merged: bool)
    | ReportPRStep(id: TaskId, url: string)
    | HeartbeatStep(id: TaskId)
    | TickStep(order: seq<TaskId>, src: Source)
    | RestartStep(src: Source)
    | ReconcileStep(src: Source)
    | SweepStep(reminder: int, abandon: int)
    | PodStep(pod: PodName, phase: Option<Phase>)

  /** No element twice. */
  ghost predicate Distinct<T(!new)>(s: seq<T>) {
    forall i, j :: 0 <= i < j < |s| ==> s[i] != s[j]
  }

  /** Every tracked task is visited, none twice. */
  ghost predicate IsOrder(order: seq<TaskId>, ids: set<TaskId>) {
    Distinct(order) && forall id :: id in ids ==> id in order
  }

  ghost predicate FreshRun(w: World, run: RunId, pod: PodName) {
    run !in w.runs && pod !in w.owner && pod != ""
  }

  ghost predicate Enabled(w: World, step: Step) {
    match step
    case Advance(to) => w.now <= to
    case CommissionStep(id, _, run, pod, _) => id !in w.core.tasks && FreshRun(w, run, pod)
    case RespawnStep(_, run, pod, _) => FreshRun(w, run, pod)
    case TickStep(order, _) => IsOrder(order, Discover(w.core, w.now).tracked.Keys)
    case PodStep(pod, _) => pod in w.core.pods
    case _ => true
  }

  ghost function ApplyCore(w: World, step: Step): Core {
    var c := w.core;
    match step
    case Advance(_) => c
    case CommissionStep(id, budget, run, pod, launch) => Commission(c, id, budget, run, pod, launch, w.now)
    case RespawnStep(url, run, pod, launch) => RespawnByPR(c, url, run, pod, launch, w.now)
    case CloseStep(url, merged) => PullRequestClosed(c, url, merged, w.now)
    case ReportPRStep(id, url) => c.(tasks := SetPR(c.tasks, id, url))
    case HeartbeatStep(id) => Heartbeat(c, id, w.now)
    case TickStep(order, src) => Tick(c, w.now, order, src)
    case RestartStep(src) => Restart(c, src)
    case ReconcileStep(src) => Reconcile(c, src, w.now)
    case SweepStep(reminder, abandon) => c.(tasks := Sweep(c.tasks, reminder, abandon, w.now))
    case PodStep(pod, phase) =>
      c.(pods := if phase.None? then c.pods - {pod} else c.pods[pod := phase.value])
  }

  /** The task a launch step is about. */
  ghost function Launching(w: World, step: Step): Option<TaskId> {
    match step
    case CommissionStep(id, _, _, _, Launched) => Some(id)
    case RespawnStep(url, _, _, Launched) => FindByPR(w.core.tasks, url)
    case _ => None
  }

  predicate Reminds(w: World, step: Step, id: TaskId) {
    step.SweepStep? && id in w.core.tasks && ReminderDue(w.core.tasks[id], step.reminder, step.abandon, w.now)
  }

  /** Reminders posted for a task in its current stay: back to none whenever the task changes state. */
  function PostedAfter(w: World, step: Step, after: Core, id: TaskId): nat
    requires id in after.tasks
  {
    if id !in w.core.tasks || after.tasks[id].state != w.core.tasks[id].state then 0
    else (if id in w.posted then w.posted[id] else 0) + (if Reminds(w, step, id) then 1 else 0)
  }

  ghost function Apply(w: World, step: Step): World {
    var core := ApplyCore(w, step);
    var launching := Launching(w, step);
    World(
      core,
      if step.Advance? then step.to else w.now,
      if launching.Some? then w.owner[step.pod := launching.value] else w.owner,
      if launching.Some? then w.runs + {step.run} else w.runs,
      if step.HeartbeatStep? then w.beats[step.id := w.now] else w.beats,
      map id | id in core.tasks :: PostedAfter(w, step, core, id))
  }

  ghost predicate EnabledAll(w: World, steps: seq<Step>)
    decreases |steps|
  {
    steps == [] || (Enabled(w, steps[0]) && EnabledAll(Apply(w, steps[0]), steps[1..]))
  }

  ghost function Run(w: World, steps: seq<Step>): World
    decreases |steps|
  {
    if steps == [] then w else Run(Apply(w, steps[0]), steps[1..])
  }

  /** Before anything has happened; the clock is already past the zero time. */
  predicate Initial(w: World) {
    && w.now > ZERO_TIME
    && w.core == Core(w.core.cfg, map[], map[], map[], map[], [])
    && w.owner == map[] && w.runs == {} && w.beats == map[] && w.posted == map[]
  }

  // ---- The invariant ----

  ghost predicate TaskTied(w: World, t: Task) {
    && t.budget.Some?
    && (t.podName.Some? ==> t.podName.value != "" && t.podName.value in w.owner && w.owner[t.podName.value] == t.id)
    && (t.runId.Some? ==> t.runId.value in w.runs)
  }

  /** A tracked pod carries its own task's budget, an honest start and an honest last sign of life. */
  ghost predicate EntryTied(w: World, id: TaskId, e: Entry) {
    && id in w.core.tasks
    && w.core.tasks[id].budget.Some?
    && w.core.tasks[id].startedAt.Some?
    && e.limits == LimitsOf(w.core.cfg, w.core.tasks[id].budget.value) && !e.terminated
    && e.startedAt <= w.core.tasks[id].startedAt.value
    && e.startedAt <= e.lastHeartbeat <= w.now
    && (id in w.beats ==> w.beats[id] <= e.lastHeartbeat)
    && e.podName in w.owner && w.owner[e.podName] == id
    && e.runId in w.runs
  }

  ghost predicate Inv(w: World) {
    && TableOk(w.core.tasks, w.now)
    && (forall id :: id in w.core.tasks ==> TaskTied(w, w.core.tasks[id]))
    && (forall id :: id in w.core.tracked ==> EntryTied(w, id, w.core.tracked[id]))
    && w.core.persisted == w.core.tracked
    && w.core.pods.Keys <= w.owner.Keys
    && (forall id :: id in w.beats ==> w.beats[id] <= w.now)
  }
}
