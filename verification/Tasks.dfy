/**
 The task table of minos/storage: rows, the state machine, and what each store call does to the table
 (minos/storage/memstore/memstore.go). Times are integers counting nanoseconds; every call receives the
 instant at which the store read its clock.
 */
module Tasks {
  import opened Options

  type Time = int
  type TaskId = nat
  type RunId = nat
  type PodName = string

  /** Go's zero time, which the store reads as "not set". */
  const ZERO_TIME: Time := 0

  /** Blank is the empty string, which only appears in a row handed to InsertTask. */
  datatype State = Blank | Queued | Running | AwaitingReview | Completed | Failed {
    predicate Terminal() {
      this == Completed || this == Failed
    }
  }

  datatype Budget = Budget(maxWallClockSeconds: int, warningPct: int, escalationPct: int)

  /** `budget` is the budget block of the task's envelope; None models a row without an envelope. */
  datatype Task = Task(
    id: TaskId,
    state: State,
    budget: Option<Budget>,
    runId: Option<RunId>,
    podName: Option<PodName>,
    prUrl: Option<string>,
    createdAt: Time,
    startedAt: Option<Time>,
    finishedAt: Option<Time>,
    stateChangedAt: Time,
    remindedAt: Option<Time>
  )

  type Table = map<TaskId, Task>

  datatype Outcome = Done | NotFound | Conflict

  predicate ValidTransition(from: State, to: State) {
    match from
    case Queued => to == Running || to == Failed
    case Running => to == AwaitingReview || to == Completed || to == Failed
    case AwaitingReview => to == Running || to == Completed || to == Failed
    case _ => false
  }

  /** The row an accepted transition leaves behind. StartedAt is overwritten on every entry to Running. */
  function Moved(t: Task, to: State, now: Time): Task {
    t.(state := to,
       stateChangedAt := now,
       remindedAt := None,
       startedAt := if to == Running then Some(now) else t.startedAt,
       finishedAt := if to.Terminal() then Some(now) else t.finishedAt)
  }

  function TransitionOutcome(tasks: Table, id: TaskId, to: State): Outcome {
    if id !in tasks then NotFound
    else if !ValidTransition(tasks[id].state, to) then Conflict
    else Done
  }

  function Transition(tasks: Table, id: TaskId, to: State, now: Time): Table {
    if id in tasks && ValidTransition(tasks[id].state, to) then tasks[id := Moved(tasks[id], to, now)] else tasks
  }

  /** The defaults InsertTask fills in. */
  function Normalised(t: Task, now: Time): Task {
    var created := if t.createdAt == ZERO_TIME then now else t.createdAt;
    t.(createdAt := created,
       state := if t.state == Blank then Queued else t.state,
       stateChangedAt := if t.stateChangedAt == ZERO_TIME then created else t.stateChangedAt)
  }

  function Insert(tasks: Table, t: Task, now: Time): Table {
    if t.id in tasks then tasks else tasks[t.id := Normalised(t, now)]
  }

  function SetRun(tasks: Table, id: TaskId, run: RunId, pod: PodName): Table {
    if id in tasks then tasks[id := tasks[id].(runId := Some(run), podName := Some(pod))] else tasks
  }

  /** Some other row already carries the pull request URL. */
  predicate BoundElsewhere(tasks: Table, id: TaskId, url: string) {
    exists other :: other in tasks && other != id && tasks[other].prUrl == Some(url)
  }

  function SetPR(tasks: Table, id: TaskId, url: string): Table {
    if id in tasks && !BoundElsewhere(tasks, id, url) then tasks[id := tasks[id].(prUrl := Some(url))] else tasks
  }

  function MarkReminded(tasks: Table, id: TaskId, now: Time): Table {
    if id in tasks then tasks[id := tasks[id].(remindedAt := Some(now))] else tasks
  }

  /** SetTaskPR keeps this: a pull request URL names at most one task. */
  ghost predicate UniquePRs(tasks: Table) {
    forall a, b :: a in tasks && b in tasks && tasks[a].prUrl.Some? && tasks[a].prUrl == tasks[b].prUrl ==> a == b
  }

  /** The task FindTaskByPRURL resolves a URL to. */
  ghost function FindByPR(tasks: Table, url: string): (found: Option<TaskId>)
    ensures found.Some? ==> found.value in tasks && tasks[found.value].prUrl == Some(url)
    ensures found.None? ==> forall id :: id in tasks ==> tasks[id].prUrl != Some(url)
  {
    if id: TaskId :| id in tasks && tasks[id].prUrl == Some(url) then Some(id) else None
  }
}
