/** The hibernation sweeper: one reminder a stay, and nothing overdue left behind. */
module HibernationSweep {
  import opened Options
  import opened Tasks
  import opened ArgusRules
  import opened Supervision
  import opened Runs
  import opened Invariants

  /**
   After a sweep no task awaits review at or past the abandon age, and none at or past the reminder age is unmarked.
   */
  lemma SweepLeavesNothingDue(tasks: Table, reminder: int, abandon: int, now: Time, id: TaskId)
    requires id in tasks
    ensures var t := Sweep(tasks, reminder, abandon, now)[id];
            t.state == AwaitingReview ==>
              && (abandon > 0 ==> now - t.stateChangedAt < abandon)
              && (reminder > 0 && now - t.stateChangedAt >= reminder ==> t.remindedAt.Some?)
    ensures tasks[id].state != AwaitingReview ==> Sweep(tasks, reminder, abandon, now)[id] == tasks[id]
  {
  }

  /** The row's mark tells exactly whether a reminder has been posted since the task last changed state. */
  ghost predicate RemindersCounted(w: World) {
    forall id :: id in w.core.tasks ==>
      id in w.posted && w.posted[id] == (if w.core.tasks[id].remindedAt.Some? then 1 else 0)
  }

  /** How a row's mark follows a step: cleared by a change of state, set by a reminder, otherwise left. */
  predicate MarkFollows(t: Task, u: Task, reminded: bool) {
    if u.state != t.state then u.remindedAt == None
    else if reminded then t.remindedAt == None && u.remindedAt.Some?
    else u.remindedAt == t.remindedAt
  }

  lemma QuietMark(w: World, step: Step, id: TaskId)
    requires Quiet(step) && id in w.core.tasks
    ensures id in ApplyCore(w, step).tasks
    ensures MarkFollows(w.core.tasks[id], ApplyCore(w, step).tasks[id], Reminds(w, step, id))
  {
  }

  lemma DispatchMark(c: Core, on: TaskId, run: RunId, pod: PodName, launch: Launch, now: Time, id: TaskId)
    requires id in c.tasks
    ensures id in Dispatch(c, on, run, pod, launch, now).tasks
    ensures MarkFollows(c.tasks[id], Dispatch(c, on, run, pod, launch, now).tasks[id], false)
  {
  }

  lemma LaunchMark(w: World, step: Step, id: TaskId)
    requires Enabled(w, step) && (step.CommissionStep? || step.RespawnStep?) && id in ApplyCore(w, step).tasks
    ensures id in w.core.tasks ==> MarkFollows(w.core.tasks[id], ApplyCore(w, step).tasks[id], false)
    ensures id !in w.core.tasks ==> ApplyCore(w, step).tasks[id].remindedAt == None
  {
    if step.CommissionStep? && step.launch != Refused {
      var c := w.core.(tasks := Insert(w.core.tasks, NewTask(step.id, step.budget, w.now), w.now));
      DispatchMark(c, step.id, step.run, step.pod, step.launch, w.now, id);
    } else if step.RespawnStep? && FindByPR(w.core.tasks, step.url).Some? {
      DispatchMark(w.core, FindByPR(w.core.tasks, step.url).value, step.run, step.pod, step.launch, w.now, id);
    }
  }

  lemma TickMark(c: Core, now: Time, order: seq<TaskId>, src: Source, id: TaskId)
    requires Distinct(order)
    ensures var u := EvaluateAll(c, now, order, src).tasks;
            (id in u <==> id in c.tasks) && (id in u ==> MarkFollows(c.tasks[id], u[id], false))
  {
    var answers := Arbitrary(Asked(c, now, order, src));
    PassIsArbitrary(c, now, order, src);
    EvaluateAllAt(c, now, order, answers, id);
    PassRow(c, now, order, answers, id);
    var v := VerdictFor(c, now, id, answers);
    assert id in c.tasks && Final(v) ==> FinalState(v) == AwaitingReview || FinalState(v) == Failed;
  }

  lemma StepMark(w: World, step: Step, id: TaskId)
    requires Enabled(w, step) && id in ApplyCore(w, step).tasks
    ensures id in w.core.tasks ==> MarkFollows(w.core.tasks[id], ApplyCore(w, step).tasks[id], Reminds(w, step, id))
    ensures id !in w.core.tasks ==> ApplyCore(w, step).tasks[id].remindedAt == None
  {
    if Quiet(step) {
      if id in w.core.tasks {
        QuietMark(w, step, id);
      } else {
        QuietRows(w, step, id);
      }
    } else if step.TickStep? {
      TickMark(Discover(w.core, w.now), w.now, step.order, step.src, id);
    } else if step.CommissionStep? || step.RespawnStep? {
      LaunchMark(w, step, id);
    }
  }

  /**
   Each stay in awaiting-review gets at most one reminder, and every change of state re-arms it: along every run the
   reminders posted since the last change of state are counted by the row's mark.
   */
  lemma {:induction false} OneReminderAStay(w: World, steps: seq<Step>)
    requires RemindersCounted(w) && EnabledAll(w, steps)
    ensures RemindersCounted(Run(w, steps))
    ensures forall id :: id in Run(w, steps).core.tasks ==> Run(w, steps).posted[id] <= 1
    decreases |steps|
  {
    if steps != [] {
      var next := Apply(w, steps[0]);
      forall id | id in next.core.tasks
        ensures id in next.posted && next.posted[id] == (if next.core.tasks[id].remindedAt.Some? then 1 else 0)
      {
        StepMark(w, steps[0], id);
      }
      OneReminderAStay(next, steps[1..]);
    }
  }
}
