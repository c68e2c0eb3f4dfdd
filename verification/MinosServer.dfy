/**
 Minos's side of supervision as the source writes it: dispatch and respawn (minos/core/commission.go), the startup
 reconciliation (minos/core/reconcile.go), the hibernation sweeper (minos/core/hibernate.go) and the webhook handlers
 (minos/core/api.go), each a sequence of calls on the store and the dispatcher.
 */
module MinosServer {
  import opened Options
  import opened Tasks
  import opened ArgusRules
  import opened Supervision
  import opened Outcomes
  import opened Runs
  import opened TaskStores
  import opened Dispatchers

  /** A pass over `before` on its way to `after`: the tasks in `done` have been dealt with, the others not. */
  ghost predicate Halfway(before: Table, after: Table, done: set<TaskId>, tasks: Table) {
    && before.Keys == after.Keys == tasks.Keys
    && forall id :: id in before ==> tasks[id] == if id in done then after[id] else before[id]
  }

  lemma NoneDone(before: Table, after: Table)
    requires before.Keys == after.Keys
    ensures Halfway(before, after, {}, before)
  {
  }

  lemma OneMore(before: Table, after: Table, done: set<TaskId>, tasks: Table, rows: seq<Task>, i: nat, id: TaskId)
    requires Halfway(before, after, done, tasks) && id in before
    requires DistinctIds(rows) && i < |rows| && rows[i].id == id && Through(rows, i, done)
    ensures id in tasks && tasks[id] == before[id]
    ensures Halfway(before, after, done + {id}, tasks[id := after[id]]) && Through(rows, i + 1, done + {id})
  {
  }

  lemma AllDone(before: Table, after: Table, done: set<TaskId>, tasks: Table)
    requires Halfway(before, after, done, tasks)
    requires forall id :: id in before && id !in done ==> after[id] == before[id]
    ensures tasks == after
  {
    assert forall id :: id in before ==> tasks[id] == after[id];
  }

  /** The notices posted so far: one for each task dealt with that was due one. */
  ghost predicate Posted(list: seq<TaskId>, done: set<TaskId>, due: set<TaskId>) {
    Distinct(list) && forall id :: id in list <==> id in done && id in due
  }

  lemma OneMorePosted(list: seq<TaskId>, done: set<TaskId>, due: set<TaskId>, id: TaskId)
    requires Posted(list, done, due) && id !in done
    ensures Posted(if id in due then list + [id] else list, done + {id}, due)
  {
  }

  /** What a start of Minos makes of a row, given the pods as they stand. */
  predicate LeftByReconcile(t: Task, u: Task, pods: map<PodName, Phase>, now: Time) {
    if t.state != Running then u == t
    else if t.podName == None || t.podName == Some("") || t.podName.value !in pods then u == FailedRow(t, now)
    else if pods[t.podName.value] == PhaseFailed || pods[t.podName.value] == PhaseUnknown then u == FailedRow(t, now)
    else if pods[t.podName.value] == PhaseSucceeded then u == HibernatedRow(t, now)
    else u == t
  }

  /** Row by row, no row more and none less. */
  ghost predicate Reconciled(before: Table, after: Table, pods: map<PodName, Phase>, now: Time) {
    && after.Keys == before.Keys
    && forall id :: id in before ==> LeftByReconcile(before[id], after[id], pods, now)
  }

  lemma ReconcileLeaves(c: Core, now: Time)
    requires forall id :: id in c.tasks ==> c.tasks[id].id == id
    ensures Reconciled(c.tasks, Reconcile(c, FromPods({}), now).tasks, c.pods, now)
  {
    var tasks := Reconcile(c, FromPods({}), now).tasks;
    forall id | id in c.tasks ensures LeftByReconcile(c.tasks[id], tasks[id], c.pods, now) {
      ReconcileRules(c, FromPods({}), now, id);
    }
  }

  lemma ReconcileByRow(c: Core, now: Time)
    ensures var after := Reconcile(c, FromPods({}), now);
            && after == c.(tasks := after.tasks) && after.tasks.Keys == c.tasks.Keys
            && (forall id :: id in c.tasks ==> after.tasks[id] == ReconcileRow(c, FromPods({}), c.tasks[id], now))
            && (forall id :: id in c.tasks && c.tasks[id].state != Running ==> after.tasks[id] == c.tasks[id])
  {
  }

  /** What a sweep makes of a row. */
  predicate LeftBySweep(t: Task, u: Task, reminder: int, abandon: int, now: Time) {
    var waited := now - t.stateChangedAt;
    if t.state != AwaitingReview then u == t
    else if abandon > 0 && waited >= abandon then u == FailedRow(t, now)
    else if reminder > 0 && waited >= reminder && t.remindedAt == None then u == t.(remindedAt := Some(now))
    else u == t
  }

  /** Row by row, and who is told: the tasks that failed for want of a review, and those marked just now. */
  ghost predicate Swept(before: Table, after: Table, reminded: seq<TaskId>, abandoned: seq<TaskId>, reminder: int,
                        abandon: int, now: Time)
  {
    && after.Keys == before.Keys
    && (forall id :: id in before ==> LeftBySweep(before[id], after[id], reminder, abandon, now))
    && (forall id :: id in abandoned <==>
          id in before && before[id].state == AwaitingReview && after[id].state == Failed)
    && (forall id :: id in reminded <==> id in before && before[id].remindedAt == None && after[id].remindedAt.Some?)
  }

  lemma SweepIsSwept(before: Table, after: Table, reminded: seq<TaskId>, abandoned: seq<TaskId>, reminder: int,
          abandon: int, now: Time)
    requires after == Sweep(before, reminder, abandon, now)
    requires forall id :: id in reminded <==> id in before && ReminderDue(before[id], reminder, abandon, now)
    requires forall id :: id in abandoned <==> id in before && AbandonDue(before[id], abandon, now)
    ensures Swept(before, after, reminded, abandoned, reminder, abandon, now)
  {
    forall id | id in before ensures LeftBySweep(before[id], after[id], reminder, abandon, now) {
      SweepRules(before, reminder, abandon, now, id);
    }
  }

  class Minos {
    const store: TaskStore
    const dispatcher: Dispatcher

    constructor (store: TaskStore, dispatcher: Dispatcher)
      ensures this.store == store && this.dispatcher == dispatcher
    {
      this.store, this.dispatcher := store, dispatcher;
    }

    /** The shared state, with Argus's own part of it given. */
    ghost function View(argus: Core): Core
      reads store, dispatcher`pods
    {
      argus.(tasks := store.tasks, pods := dispatcher.pods)
    }

    /** How far a launch gets, given whether the pod spec can be built. */
    ghost function LaunchOf(buildable: bool): Launch
      reads dispatcher
    {
      if !buildable then BuildFailed else if dispatcher.spawnError then SpawnFailed else Launched
    }

    method LaunchRun(id: TaskId, run: RunId, pod: PodName, buildable: bool, now: Time, ghost argus: Core)
      returns (ok: bool)
      requires store.Valid()
      modifies store, dispatcher`pods
      ensures store.Valid()
      ensures View(argus) == Dispatch(old(View(argus)), id, run, pod, old(LaunchOf(buildable)), now)
      ensures old(id in store.tasks && (store.tasks[id].state == Queued || store.tasks[id].state == AwaitingReview)) ==>
                if buildable && !dispatcher.spawnError && pod !in old(dispatcher.pods)
                then ok && store.tasks == old(store.tasks)[id := RunningRow(old(store.tasks)[id], run, pod, now)]
                     && dispatcher.pods == old(dispatcher.pods)[pod := PhasePending]
                else !ok && store.tasks == old(store.tasks)[id := FailedRow(old(store.tasks)[id], now)]
                     && dispatcher.pods == old(dispatcher.pods)
      ensures ok ==> id in store.tasks && store.tasks[id].state == Running && store.tasks[id].runId == Some(run)
      ensures ok ==> pod in dispatcher.pods
    {
      var outcome;
      if !buildable {
        outcome := store.TransitionTask(id, Failed, now);
        return false;
      }
      var spawned := dispatcher.SpawnPod(pod);
      if !spawned {
        outcome := store.TransitionTask(id, Failed, now);
        return false;
      }
      outcome := store.SetTaskRun(id, run, pod);
      if outcome != Done {
        return false;
      }
      outcome := store.TransitionTask(id, Running, now);
      ok := outcome == Done;
    }

    method CommissionTask(id: TaskId, budget: Budget, run: RunId, pod: PodName, buildable: bool, now: Time,
            ghost argus: Core)
      returns (ok: bool)
      requires store.Valid()
      modifies store, dispatcher`pods
      ensures store.Valid()
      ensures View(argus) == Commission(old(View(argus)), id, budget, run, pod, old(LaunchOf(buildable)), now)
      ensures id in old(store.tasks) ==>
                !ok && store.tasks == old(store.tasks) && dispatcher.pods == old(dispatcher.pods)
      ensures id !in old(store.tasks) ==>
                var t := Task(id, Queued, Some(budget), None, None, None, now, None, None, now, None);
                if buildable && !dispatcher.spawnError && pod !in old(dispatcher.pods)
                then ok && store.tasks == old(store.tasks)[id := RunningRow(t, run, pod, now)]
                     && dispatcher.pods == old(dispatcher.pods)[pod := PhasePending]
                else !ok && store.tasks == old(store.tasks)[id := FailedRow(t, now)]
                     && dispatcher.pods == old(dispatcher.pods)
      ensures ok ==> id in store.tasks && store.tasks[id].state == Running
    {
      if id !in store.tasks {
        CommissionRules(View(argus), id, budget, run, pod, LaunchOf(buildable), now);
      }
      var outcome := store.InsertTask(NewTask(id, budget, now), now);
      if outcome != Done {
        return false;
      }
      ok := LaunchRun(id, run, pod, buildable, now, argus);
    }

    method RespawnTask(id: TaskId, run: RunId, pod: PodName, buildable: bool, now: Time, ghost argus: Core)
      returns (ok: bool)
      requires store.Valid()
      modifies store, dispatcher`pods
      ensures store.Valid()
      ensures View(argus) == Respawn(old(View(argus)), id, run, pod, old(LaunchOf(buildable)), now)
      ensures old(id !in store.tasks || store.tasks[id].state != AwaitingReview) ==>
                !ok && store.tasks == old(store.tasks) && dispatcher.pods == old(dispatcher.pods)
      ensures ok ==> id in store.tasks && store.tasks[id].state == Running && store.tasks[id].runId == Some(run)
    {
      var found := store.GetTask(id);
      if found == None || found.value.state != AwaitingReview || found.value.budget == None {
        return false;
      }
      ok := LaunchRun(id, run, pod, buildable, now, argus);
    }

    /** handlePullRequestReviewEvent and handleIssueCommentEvent, once the event has qualified. */
    method HandleReview(url: string, run: RunId, pod: PodName, buildable: bool, now: Time, ghost argus: Core)
      requires store.Valid()
      modifies store, dispatcher`pods
      ensures store.Valid()
      ensures old(UniquePRs(store.tasks)) ==>
                View(argus) == RespawnByPR(old(View(argus)), url, run, pod, old(LaunchOf(buildable)), now)
      ensures forall id :: old(UniquePRs(store.tasks)) && id in old(store.tasks) &&
                           old(store.tasks)[id].prUrl == Some(url) && old(store.tasks)[id].budget.Some? ==>
                if old(store.tasks)[id].state != AwaitingReview
                then store.tasks == old(store.tasks) && dispatcher.pods == old(dispatcher.pods)
                else if buildable && !dispatcher.spawnError && pod !in old(dispatcher.pods)
                then store.tasks == old(store.tasks)[id := RunningRow(old(store.tasks)[id], run, pod, now)]
                     && dispatcher.pods == old(dispatcher.pods)[pod := PhasePending]
                else store.tasks == old(store.tasks)[id := FailedRow(old(store.tasks)[id], now)]
                     && dispatcher.pods == old(dispatcher.pods)
    {
      var found := store.FindTaskByPRURL(url);
      if found == None || found.value.state != AwaitingReview {
        return;
      }
      var ok := RespawnTask(found.value.id, run, pod, buildable, now, argus);
    }

    /** handlePullRequestEvent for a closed pull request. */
    method HandleClosed(url: string, merged: bool, now: Time, ghost argus: Core)
      requires store.Valid()
      modifies store
      ensures store.Valid()
      ensures old(UniquePRs(store.tasks)) ==> View(argus) == PullRequestClosed(old(View(argus)), url, merged, now)
      ensures forall id :: old(UniquePRs(store.tasks)) && id in old(store.tasks) &&
                           old(store.tasks)[id].prUrl == Some(url) ==>
                var t := old(store.tasks)[id];
                store.tasks ==
                if merged && (t.state == Running || t.state == AwaitingReview)
                then old(store.tasks)[id := CompletedRow(t, now)]
                else if !merged && Live(t) then old(store.tasks)[id := FailedRow(t, now)]
                else old(store.tasks)
    {
      if UniquePRs(store.tasks) {
        forall id | id in store.tasks && store.tasks[id].prUrl == Some(url) {
          ClosedRules(View(argus), id, url, merged, now);
        }
      }
      var found := store.FindTaskByPRURL(url);
      if found == None || found.value.state == Completed || found.value.state == Failed {
        return;
      }
      var outcome := store.TransitionTask(found.value.id, if merged then Completed else Failed, now);
    }

    /** reconcileRunning: one running task against the live phase of its pod. */
    method ReconcileRunning(t: Task, now: Time, ghost c: Core)
      requires store.Valid() && t.id in store.tasks && store.tasks[t.id] == t && t.state == Running
      requires c.pods == dispatcher.pods
      modifies store
      ensures store.Valid()
      ensures store.tasks == old(store.tasks)[t.id := ReconcileRow(c, FromPods({}), t, now)]
    {
      var outcome;
      if t.podName == None || t.podName.value == "" {
        outcome := store.TransitionTask(t.id, Failed, now);
        return;
      }
      var answer := dispatcher.PodPhase(t.podName.value);
      if answer == NoSuchPod {
        outcome := store.TransitionTask(t.id, Failed, now);
        return;
      }
      match answer.phase
      case PhaseSucceeded => outcome := store.TransitionTask(t.id, AwaitingReview, now);
      case PhaseFailed => outcome := store.TransitionTask(t.id, Failed, now);
      case PhaseUnknown => outcome := store.TransitionTask(t.id, Failed, now);
      case _ =>
    }

    method ReconcileAll(now: Time, ghost argus: Core)
      requires store.Valid()
      modifies store
      ensures store.Valid() && View(argus) == Reconcile(old(View(argus)), FromPods({}), now)
      ensures Reconciled(old(store.tasks), store.tasks, dispatcher.pods, now)
    {
      ReconcileLeaves(View(argus), now);
      ReconcileByRow(View(argus), now);
      hide Halfway, Reconciled, Reconcile, ReconcileRow;
      ghost var c := View(argus);
      ghost var before := store.tasks;
      ghost var after := Reconcile(c, FromPods({}), now).tasks;
      ghost var done: set<TaskId> := {};
      NoneDone(before, after);
      var rows := store.ListTasks({Running}, 0);
      var i := 0;
      while i < |rows|
        invariant 0 <= i <= |rows| && store.Valid()
        invariant Halfway(before, after, done, store.tasks) && Through(rows, i, done)
      {
        var t := rows[i];
        Listed(before, Running, rows, i);
        OneMore(before, after, done, store.tasks, rows, i, t.id);
        ReconcileRunning(t, now, c);
        done := done + {t.id};
        i := i + 1;
      }
      Unlisted(before, Running, rows, done);
      AllDone(before, after, done, store.tasks);
    }

    /** abandonHibernated, remindHibernated or neither, and which of them it was. */
    method SweepOne(t: Task, reminder: int, abandon: int, now: Time) returns (abandoned: bool, reminded: bool)
      requires store.Valid() && t.id in store.tasks && store.tasks[t.id] == t && t.state == AwaitingReview
      modifies store
      ensures store.Valid() && store.tasks == old(store.tasks)[t.id := SweepRow(t, reminder, abandon, now)]
      ensures abandoned == AbandonDue(t, abandon, now) && reminded == ReminderDue(t, reminder, abandon, now)
    {
      var outcome;
      var waited := now - t.stateChangedAt;
      abandoned := abandon > 0 && waited >= abandon;
      reminded := !abandoned && reminder > 0 && waited >= reminder && t.remindedAt == None;
      if abandoned {
        outcome := store.TransitionTask(t.id, Failed, now);
      } else if reminded {
        outcome := store.MarkTaskReminded(t.id, now);
      }
    }

    /**
     SweepHibernation: abandon what has waited too long, remind about the rest once. `reminded` and `abandoned` are the
     tasks whose threads got a notice, each once.
     */
    method SweepHibernation(reminder: int, abandon: int, now: Time)
      returns (reminded: seq<TaskId>, abandoned: seq<TaskId>)
      requires store.Valid()
      modifies store
      ensures store.Valid() && store.tasks == Sweep(old(store.tasks), reminder, abandon, now)
      ensures Swept(old(store.tasks), store.tasks, reminded, abandoned, reminder, abandon, now)
      ensures forall id :: id in reminded <==>
              id in old(store.tasks) && ReminderDue(old(store.tasks)[id], reminder, abandon, now)
      ensures forall id :: id in abandoned <==> id in old(store.tasks) && AbandonDue(old(store.tasks)[id], abandon, now)
      ensures Distinct(reminded) && Distinct(abandoned)
    {
      reminded, abandoned := [], [];
      hide Halfway, Swept;
      ghost var before := store.tasks;
      ghost var after := Sweep(before, reminder, abandon, now);
      if reminder == 0 && abandon == 0 {
        assert after == before;
        SweepIsSwept(before, after, reminded, abandoned, reminder, abandon, now);
        return;
      }
      ghost var done: set<TaskId> := {};
      NoneDone(before, after);
      ghost var dueAbandon := set id | id in before && AbandonDue(before[id], abandon, now);
      ghost var dueReminder := set id | id in before && ReminderDue(before[id], reminder, abandon, now);
      var rows := store.ListTasks({AwaitingReview}, 0);
      var i := 0;
      while i < |rows|
        invariant 0 <= i <= |rows| && store.Valid()
        invariant Halfway(before, after, done, store.tasks) && Through(rows, i, done)
        invariant Posted(reminded, done, dueReminder) && Posted(abandoned, done, dueAbandon)
      {
        var t := rows[i];
        Listed(before, AwaitingReview, rows, i);
        OneMore(before, after, done, store.tasks, rows, i, t.id);
        OneMorePosted(reminded, done, dueReminder, t.id);
        OneMorePosted(abandoned, done, dueAbandon, t.id);
        var gone, told := SweepOne(t, reminder, abandon, now);
        abandoned := if gone then abandoned + [t.id] else abandoned;
        reminded := if told then reminded + [t.id] else reminded;
        done := done + {t.id};
        i := i + 1;
      }
      Unlisted(before, AwaitingReview, rows, done);
      AllDone(before, after, done, store.tasks);
      SweepIsSwept(before, after, reminded, abandoned, reminder, abandon, now);
    }
  }
}
