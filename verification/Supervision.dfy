/**
 Task supervision as functions on values: what every operation of Argus and Minos does to the shared task table, the
 pod set, the tracked pods and their persisted copy. The classes in ArgusDaemon.dfy and MinosServer.dfy are proved
 to compute these functions; Runs.dfy lets them follow one another in any order.
 */
module Supervision {
  import opened Options
  import opened Tasks
  import opened ArgusRules

  /**
   Where PodPhase answers come from during one pass: any answers whatever, one per task asked about, or the pod set as
   it stands at the moment of asking, with some pods out of the dispatcher's reach.
   */
  datatype Source = Arbitrary(answers: map<TaskId, Answer>) | FromPods(down: set<PodName>)

  function AnswerFor(src: Source, pods: map<PodName, Phase>, id: TaskId, pod: PodName): Answer {
    match src
    case Arbitrary(answers) => if id in answers then answers[id] else Unreachable
    case FromPods(down) => if pod in down then Unreachable else if pod in pods then Seen(pods[pod]) else NoSuchPod
  }

  /** One audited action of Argus: the run it is about, and how long that run had lasted. */
  datatype Event = Event(task: TaskId, run: RunId, pod: PodName, verdict: Verdict, wall: int)

  datatype Core = Core(
    cfg: Config,
    tasks: Table,
    pods: map<PodName, Phase>,
    tracked: map<TaskId, Entry>,
    persisted: map<TaskId, Entry>,
    log: seq<Event>
  )

  // ---- Argus ----

  function Untrack(c: Core, id: TaskId): Core {
    c.(tracked := c.tracked - {id}, persisted := c.persisted - {id})
  }

  /** Storing an entry: in memory and, at once, in the persister. */
  function Keep(c: Core, id: TaskId, e: Entry): Core {
    c.(tracked := c.tracked[id := e], persisted := c.persisted[id := e])
  }

  function EventFor(e: Entry, id: TaskId, v: Verdict, now: Time): Event {
    Event(id, e.runId, e.podName, v, now - e.startedAt)
  }

  /** hibernate, markFailed and terminate: move the task if the state machine allows it, delete the pod, untrack. */
  function Finish(c: Core, id: TaskId, v: Verdict, now: Time): Core
    requires id in c.tracked && Final(v)
  {
    var e := c.tracked[id];
    Untrack(c.(tasks := Transition(c.tasks, id, FinalState(v), now),
               pods := c.pods - {e.podName},
               log := c.log + [EventFor(e, id, v, now)]), id)
  }

  /** An entry after a warning or an escalation. */
  function Marked(e: Entry, v: Verdict): Entry {
    match v
    case Warn(_) => e.(warned := true)
    case Escalate(_) => e.(escalated := true)
    case _ => e
  }

  function Notify(c: Core, id: TaskId, v: Verdict, now: Time): Core
    requires id in c.tracked
  {
    var e := c.tracked[id];
    Keep(c.(log := c.log + [EventFor(e, id, v, now)]), id, Marked(e, v))
  }

  function VerdictFor(c: Core, now: Time, id: TaskId, src: Source): Verdict {
    if id !in c.tracked || c.tracked[id].terminated then LeaveAlone
    else Judge(c.cfg, c.tracked[id], AnswerFor(src, c.pods, id, c.tracked[id].podName), now)
  }

  function EvaluateOne(c: Core, now: Time, id: TaskId, src: Source): Core {
    var v := VerdictFor(c, now, id, src);
    if v == LeaveAlone then c
    else if Final(v) then Finish(c, id, v, now)
    else Notify(c, id, v, now)
  }

  /** evaluate visits the tracked pods in the order its map iteration happened to give. */
  function EvaluateAll(c: Core, now: Time, order: seq<TaskId>, src: Source): Core
    decreases |order|
  {
    if order == [] then c else EvaluateAll(EvaluateOne(c, now, order[0], src), now, order[1..], src)
  }

  predicate Undiscovered(c: Core, id: TaskId) {
    id in c.tasks && c.tasks[id].state == Running && id !in c.tracked && Trackable(c.tasks[id])
  }

  function Discovered(c: Core, id: TaskId, now: Time): Entry
    requires Undiscovered(c, id)
  {
    NewEntry(c.cfg, c.tasks[id], DiscoveredStart(c.tasks[id]), now)
  }

  /** discover only adds entries. It never drops one whose task has left Running. */
  function Discover(c: Core, now: Time): Core {
    var found := map id | id in c.tasks && Undiscovered(c, id) :: Discovered(c, id, now);
    c.(tracked := c.tracked + found, persisted := c.persisted + found)
  }

  function Tick(c: Core, now: Time, order: seq<TaskId>, src: Source): Core {
    EvaluateAll(Discover(c, now), now, order, src)
  }

  function Heartbeat(c: Core, id: TaskId, now: Time): Core {
    if id in c.tracked then Keep(c, id, c.tracked[id].(lastHeartbeat := now)) else c
  }

  /** rehydrate drops a row only when the dispatcher names a terminal or an unknown phase for its pod. */
  predicate Drops(a: Answer) {
    a.Seen? && (a.phase == PhaseUnknown || a.phase.Terminal())
  }

  predicate Dropped(c: Core, id: TaskId, src: Source) {
    id in c.persisted && Drops(AnswerFor(src, c.pods, id, c.persisted[id].podName))
  }

  function Rehydrate(c: Core, src: Source): Core {
    var kept := map id | id in c.persisted && !Dropped(c, id, src) :: c.persisted[id];
    c.(tracked := c.tracked + kept, persisted := kept)
  }

  /** Argus stops between two operations and a new process starts from the persisted rows. */
  function Restart(c: Core, src: Source): Core {
    Rehydrate(c.(tracked := map[]), src)
  }

  // ---- Minos ----

  /** How far a launch got: refused before dispatch, a pod spec that cannot be built, a failed spawn, or a pod. */
  datatype Launch = Refused | BuildFailed | SpawnFailed | Launched

  function Dispatch(c: Core, id: TaskId, run: RunId, pod: PodName, launch: Launch, now: Time): Core {
    match launch
    case Refused => c
    case Launched =>
      if pod in c.pods then c.(tasks := Transition(c.tasks, id, Failed, now))
      else c.(pods := c.pods[pod := PhasePending],
              tasks := Transition(SetRun(c.tasks, id, run, pod), id, Running, now))
    case _ => c.(tasks := Transition(c.tasks, id, Failed, now))
  }

  function NewTask(id: TaskId, budget: Budget, now: Time): Task {
    Task(id, Queued, Some(budget), None, None, None, now, None, None, ZERO_TIME, None)
  }

  function Commission(c: Core, id: TaskId, budget: Budget, run: RunId, pod: PodName, launch: Launch, now: Time): Core {
    if id in c.tasks || launch == Refused then c
    else Dispatch(c.(tasks := Insert(c.tasks, NewTask(id, budget, now), now)), id, run, pod, launch, now)
  }

  function Respawn(c: Core, id: TaskId, run: RunId, pod: PodName, launch: Launch, now: Time): Core {
    if id in c.tasks && c.tasks[id].state == AwaitingReview && c.tasks[id].budget.Some?
    then Dispatch(c, id, run, pod, launch, now)
    else c
  }

  /** A qualifying review or an @mention on a pull request. */
  ghost function RespawnByPR(c: Core, url: string, run: RunId, pod: PodName, launch: Launch, now: Time): Core {
    match FindByPR(c.tasks, url)
    case None => c
    case Some(id) => Respawn(c, id, run, pod, launch, now)
  }

  /** pull_request closed: merged completes the task, unmerged fails it, a terminal task stays as it is. */
  ghost function PullRequestClosed(c: Core, url: string, merged: bool, now: Time): Core {
    match FindByPR(c.tasks, url)
    case None => c
    case Some(id) => c.(tasks := Transition(c.tasks, id, if merged then Completed else Failed, now))
  }

  /** Where Reconcile sends a running task, if anywhere. */
  function ReconcileTarget(t: Task, a: Answer): Option<State> {
    if t.podName == None || t.podName.value == "" then Some(Failed)
    else match a
         case NoSuchPod => Some(Failed)
         case Unreachable => None
         case Seen(PhaseSucceeded) => Some(AwaitingReview)
         case Seen(PhaseFailed) => Some(Failed)
         case Seen(PhaseUnknown) => Some(Failed)
         case _ => None
  }

  function ReconcileAnswer(c: Core, src: Source, t: Task): Answer {
    if t.podName == None then Unreachable else AnswerFor(src, c.pods, t.id, t.podName.value)
  }

  function ReconcileRow(c: Core, src: Source, t: Task, now: Time): Task {
    var target := ReconcileTarget(t, ReconcileAnswer(c, src, t));
    if t.state == Running && target.Some? then Moved(t, target.value, now) else t
  }

  function Reconcile(c: Core, src: Source, now: Time): Core {
    c.(tasks := map id | id in c.tasks :: ReconcileRow(c, src, c.tasks[id], now))
  }

  // ---- The hibernation sweeper ----

  predicate AbandonDue(t: Task, abandon: int, now: Time) {
    t.state == AwaitingReview && abandon > 0 && now - t.stateChangedAt >= abandon
  }

  predicate ReminderDue(t: Task, reminder: int, abandon: int, now: Time) {
    && t.state == AwaitingReview && !AbandonDue(t, abandon, now)
    && reminder > 0 && now - t.stateChangedAt >= reminder && t.remindedAt == None
  }

  function SweepRow(t: Task, reminder: int, abandon: int, now: Time): Task {
    if AbandonDue(t, abandon, now) then Moved(t, Failed, now)
    else if ReminderDue(t, reminder, abandon, now) then t.(remindedAt := Some(now))
    else t
  }

  function Sweep(tasks: Table, reminder: int, abandon: int, now: Time): Table {
    map id | id in tasks :: SweepRow(tasks[id], reminder, abandon, now)
  }
}
