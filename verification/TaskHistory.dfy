/**
 What any interleaving of store calls keeps, whoever makes them: Minos, Argus, the webhook handlers and the
 sweeper all change tasks only through these calls.
 */
module TaskHistory {
  import opened Options
  import opened Tasks

  datatype Call =
    | InsertCall(t: Task)
    | TransitionCall(id: TaskId, to: State)
    | SetRunCall(id: TaskId, run: RunId, pod: PodName)
    | SetPRCall(id: TaskId, url: string)
    | RemindCall(id: TaskId)

  /** A call together with the instant at which the store's clock read. */
  datatype Timed = Timed(at: Time, call: Call)

  function Exec(tasks: Table, call: Call, now: Time): Table {
    match call
    case InsertCall(t) => Insert(tasks, t, now)
    case TransitionCall(id, to) => Transition(tasks, id, to, now)
    case SetRunCall(id, run, pod) => SetRun(tasks, id, run, pod)
    case SetPRCall(id, url) => SetPR(tasks, id, url)
    case RemindCall(id) => MarkReminded(tasks, id, now)
  }

  function ExecAll(tasks: Table, calls: seq<Timed>): Table
    decreases |calls|
  {
    if calls == [] then tasks
    else ExecAll(Exec(tasks, calls[0].call, calls[0].at), calls[1..])
  }

  /** A row as Commission hands it to InsertTask: never run, never finished. */
  predicate FreshRow(t: Task, now: Time) {
    && (t.state == Queued || t.state == Blank)
    && (t.createdAt == ZERO_TIME || t.createdAt == now)
    && t.stateChangedAt == ZERO_TIME
    && t.startedAt == None && t.finishedAt == None && t.remindedAt == None && t.prUrl == None
  }

  /**
   What the callers keep to: rows are inserted fresh, and only dispatch moves a task to Running, right after it has
   recorded the run and the pod.
   */
  predicate Disciplined(tasks: Table, call: Call, now: Time) {
    match call
    case InsertCall(t) => FreshRow(t, now)
    case TransitionCall(id, Running) => id in tasks ==> tasks[id].runId.Some? && tasks[id].podName.Some?
    case _ => true
  }

  predicate DisciplinedAll(tasks: Table, calls: seq<Timed>)
    decreases |calls|
  {
    calls == [] ||
    (Disciplined(tasks, calls[0].call, calls[0].at)
        && DisciplinedAll(Exec(tasks, calls[0].call, calls[0].at), calls[1..]))
  }

  /** The clock the callers share never runs backwards and starts after the zero time. */
  predicate Monotone(from: Time, calls: seq<Timed>)
    decreases |calls|
  {
    calls == [] || (from <= calls[0].at && Monotone(calls[0].at, calls[1..]))
  }

  function LastTime(from: Time, calls: seq<Timed>): Time {
    if calls == [] then from else calls[|calls| - 1].at
  }

  /** What holds of every row of every reachable table at instant `now`. */
  predicate RowOk(id: TaskId, t: Task, now: Time) {
    && t.id == id
    && t.state != Blank
    && ZERO_TIME < t.createdAt <= t.stateChangedAt <= now
    && (t.finishedAt.Some? <==> t.state.Terminal())
    && (t.startedAt.Some? ==> t.createdAt <= t.startedAt.value <= t.stateChangedAt)
    && (t.finishedAt.Some? ==> t.finishedAt.value == t.stateChangedAt)
    && (t.startedAt.Some? && t.finishedAt.Some? ==> t.startedAt.value <= t.finishedAt.value)
    && (t.state == Running || t.state == AwaitingReview ==> t.runId.Some? && t.podName.Some? && t.startedAt.Some?)
    && (t.remindedAt.Some? ==> t.stateChangedAt <= t.remindedAt.value <= now)
  }

  ghost predicate TableOk(tasks: Table, now: Time) {
    && ZERO_TIME < now
    && (forall id :: id in tasks ==> RowOk(id, tasks[id], now))
    && UniquePRs(tasks)
  }

  /** A row may turn into another: no field that history fixes has changed. */
  predicate Evolves(t: Task, u: Task) {
    && u.id == t.id && u.createdAt == t.createdAt && u.budget == t.budget
    && t.stateChangedAt <= u.stateChangedAt
    && Reaches(t.state, u.state)
    && (t.startedAt.Some? ==> u.startedAt.Some? && t.startedAt.value <= u.startedAt.value)
    && (t.prUrl.Some? ==> u.prUrl.Some?)
    && (t.state.Terminal() ==> u.state == t.state && u.startedAt == t.startedAt && u.finishedAt == t.finishedAt
                               && u.stateChangedAt == t.stateChangedAt)
  }

  /** Reachability in the state machine, tabulated; `ReachesIsPaths` shows that the table is right. */
  predicate Reaches(from: State, to: State) {
    from == to || match from
                  case Queued => to == Running || to == AwaitingReview || to.Terminal()
                  case Running => to == AwaitingReview || to.Terminal()
                  case AwaitingReview => to == Running || to.Terminal()
                  case _ => false
  }

  ghost predicate IsPath(path: seq<State>) {
    forall i :: 0 <= i < |path| - 1 ==> ValidTransition(path[i], path[i + 1])
  }

  /** The states a task goes through while `calls` are executed, repetitions left out. */
  function Trail(tasks: Table, id: TaskId, calls: seq<Timed>): (trail: seq<State>)
    requires id in tasks
    ensures |trail| > 0 && trail[0] == tasks[id].state
    decreases |calls|
  {
    if calls == [] then [tasks[id].state]
    else
      var next := Exec(tasks, calls[0].call, calls[0].at);
      var rest := Trail(next, id, calls[1..]);
      if next[id].state == tasks[id].state then rest else [tasks[id].state] + rest
  }

  lemma {:induction false} TrailIsPath(tasks: Table, id: TaskId, calls: seq<Timed>)
    requires id in tasks
    ensures IsPath(Trail(tasks, id, calls))
    ensures id in ExecAll(tasks, calls)
    ensures Trail(tasks, id, calls)[|Trail(tasks, id, calls)| - 1] == ExecAll(tasks, calls)[id].state
    decreases |calls|
  {
    if calls != [] {
      var next := Exec(tasks, calls[0].call, calls[0].at);
      TrailIsPath(next, id, calls[1..]);
      var rest := Trail(next, id, calls[1..]);
      if next[id].state != tasks[id].state {
        var trail := [tasks[id].state] + rest;
        forall i | 0 <= i < |trail| - 1 ensures ValidTransition(trail[i], trail[i + 1]) {
          if i > 0 {
            assert trail[i] == rest[i - 1] && trail[i + 1] == rest[i];
          }
        }
      }
    }
  }

  /** The table `Reaches` holds exactly the pairs some path of valid transitions joins. */
  lemma {:induction false} ReachesIsPaths(from: State, to: State)
    ensures Reaches(from, to) <==>
            exists path: seq<State> :: IsPath(path) && |path| > 0 && path[0] == from && path[|path| - 1] == to
  {
    if Reaches(from, to) {
      var path := if from == to then [from]
                  else if ValidTransition(from, to) then [from, to]
                  else [from, Running, to];
      assert IsPath(path);
    }
    forall path: seq<State> | IsPath(path) && |path| > 0 && path[0] == from && path[|path| - 1] == to
      ensures Reaches(from, to)
    {
      PathReaches(path);
    }
  }

  lemma {:induction false} PathReaches(path: seq<State>)
    requires IsPath(path) && |path| > 0
    ensures Reaches(path[0], path[|path| - 1])
    decreases |path|
  {
    if |path| > 1 {
      var rest := path[1..];
      assert forall i :: 0 <= i < |rest| - 1 ==> ValidTransition(rest[i], rest[i + 1]) by {
        forall i | 0 <= i < |rest| - 1 ensures ValidTransition(rest[i], rest[i + 1]) {
          assert ValidTransition(path[i + 1], path[i + 2]);
        }
      }
      PathReaches(rest);
      assert ValidTransition(path[0], path[1]);
    }
  }

  lemma EvolvesTransitive(t: Task, u: Task, v: Task)
    requires Evolves(t, u) && Evolves(u, v)
    ensures Evolves(t, v)
  {
  }

  /** A pull request URL stays with one task through every call. */
  lemma CallKeepsUniquePRs(tasks: Table, call: Call, now: Time)
    requires UniquePRs(tasks) && Disciplined(tasks, call, now)
    ensures UniquePRs(Exec(tasks, call, now))
  {
    var next := Exec(tasks, call, now);
    forall a, b | a in next && b in next && next[a].prUrl.Some? && next[a].prUrl == next[b].prUrl ensures a == b {
      if call.SetPRCall? && call.id in tasks && !BoundElsewhere(tasks, call.id, call.url) {
        assert forall other :: other in tasks && other != call.id ==> tasks[other].prUrl != Some(call.url);
      }
    }
  }

  lemma MoveKeeps(t: Task, to: State, before: Time, now: Time)
    requires RowOk(t.id, t, before) && before <= now && ValidTransition(t.state, to)
    requires to == Running || to == AwaitingReview ==> t.runId.Some? && t.podName.Some?
    requires to == AwaitingReview ==> t.state == Running
    ensures RowOk(t.id, Moved(t, to, now), now) && Evolves(t, Moved(t, to, now))
  {
  }

  lemma RowKeeps(tasks: Table, call: Call, before: Time, now: Time, id: TaskId)
    requires ZERO_TIME < before <= now && (id in tasks ==> RowOk(id, tasks[id], before))
    requires Disciplined(tasks, call, now) && id in Exec(tasks, call, now)
    ensures RowOk(id, Exec(tasks, call, now)[id], now)
    ensures id in tasks ==> Evolves(tasks[id], Exec(tasks, call, now)[id])
  {
    var u := Exec(tasks, call, now)[id];
    if id in tasks {
      if call.TransitionCall? && u != tasks[id] {
        MoveKeeps(tasks[id], call.to, before, now);
      }
    }
  }

  /** One disciplined call keeps every row in order and lets each row only evolve. */
  lemma CallKeeps(tasks: Table, call: Call, before: Time, now: Time)
    requires TableOk(tasks, before) && before <= now
    requires Disciplined(tasks, call, now)
    ensures TableOk(Exec(tasks, call, now), now)
    ensures forall id :: id in tasks ==> id in Exec(tasks, call, now) && Evolves(tasks[id], Exec(tasks, call, now)[id])
  {
    var next := Exec(tasks, call, now);
    CallKeepsUniquePRs(tasks, call, now);
    forall id | id in next ensures RowOk(id, next[id], now) && (id in tasks ==> Evolves(tasks[id], next[id])) {
      RowKeeps(tasks, call, before, now, id);
    }
  }

  /**
   Task history, over any disciplined interleaving of store calls under one clock: the table stays in order, so
   FinishedAt is set exactly in terminal states and live runs carry their pod and run id, and every row evolves, so
   terminal rows are frozen.
   */
  lemma {:induction false} HistoryKeeps(tasks: Table, calls: seq<Timed>, from: Time)
    requires TableOk(tasks, from) && Monotone(from, calls) && DisciplinedAll(tasks, calls)
    ensures TableOk(ExecAll(tasks, calls), LastTime(from, calls))
    ensures forall id :: id in tasks ==> id in ExecAll(tasks, calls) && Evolves(tasks[id], ExecAll(tasks, calls)[id])
    decreases |calls|
  {
    if calls != [] {
      var next := Exec(tasks, calls[0].call, calls[0].at);
      CallKeeps(tasks, calls[0].call, from, calls[0].at);
      HistoryKeeps(next, calls[1..], calls[0].at);
      forall id | id in tasks ensures Evolves(tasks[id], ExecAll(tasks, calls)[id]) {
        EvolvesTransitive(tasks[id], next[id], ExecAll(tasks, calls)[id]);
      }
    }
  }
}
