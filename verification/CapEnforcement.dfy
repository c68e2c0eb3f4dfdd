/** The wall-clock cap: no run outlives it past a tick of Argus. */
module CapEnforcement {
  import opened Tasks
  import opened TaskHistory
  import opened ArgusRules
  import opened Supervision
  import opened Runs
  import opened Invariants

  /** A running task whose last start lies at least its cap in the past. */
  predicate Overruns(t: Task, now: Time) {
    t.state == Running && t.budget.Some? && t.startedAt.Some? && Cap(t.budget.value) > 0
    && now - t.startedAt.value >= Cap(t.budget.value)
  }

  ghost predicate NoneOverruns(w: World) {
    forall id :: id in w.core.tasks ==> !Overruns(w.core.tasks[id], w.now)
  }

  /** A visit to an overrunning task ends its run, whatever the dispatcher answers. */
  lemma VisitEndsOverrun(c: Core, now: Time, id: TaskId, src: Source)
    requires id in c.tasks && Overruns(c.tasks[id], now)
    requires id in c.tracked && !c.tracked[id].terminated
    requires c.tracked[id].startedAt <= c.tasks[id].startedAt.value
    requires c.tracked[id].limits.maxWallClock == Cap(c.tasks[id].budget.value)
    ensures !Overruns(EvaluateOne(c, now, id, src).tasks[id], now)
  {
    assert OverCap(c.tracked[id], now);
    assert Final(VerdictFor(c, now, id, src));
  }

  lemma TickEnforcesCap(w: World, order: seq<TaskId>, src: Source)
    requires Inv(w) && Enabled(w, TickStep(order, src))
    ensures NoneOverruns(Apply(w, TickStep(order, src)))
  {
    var c := Discover(w.core, w.now);
    var answers := Arbitrary(Asked(c, w.now, order, src));
    PassIsArbitrary(c, w.now, order, src);
    var after := EvaluateAll(c, w.now, order, answers);
    forall id | id in after.tasks ensures !Overruns(after.tasks[id], w.now) {
      PassRow(c, w.now, order, answers, id);
      TickEndsOverrun(w, order, answers, id);
    }
  }

  lemma TickEndsOverrun(w: World, order: seq<TaskId>, src: Source, id: TaskId)
    requires Inv(w) && IsOrder(order, Discover(w.core, w.now).tracked.Keys) && src.Arbitrary?
    requires id in w.core.tasks
    ensures var after := Tick(w.core, w.now, order, src).tasks; id in after && !Overruns(after[id], w.now)
  {
    var c := Discover(w.core, w.now);
    var t := w.core.tasks[id];
    EvaluateAllAt(c, w.now, order, src, id);
    PassRow(c, w.now, order, src, id);
    if Overruns(t, w.now) {
      assert RowOk(id, t, w.now) && TaskTied(w, t);
      assert id in c.tracked;
      DiscoverTied(w, id);
      VisitEndsOverrun(c, w.now, id, src);
    }
  }

  /** `NoneOverruns` holds after each tick of a run. */
  ghost predicate CapAfterEveryTick(w: World, steps: seq<Step>)
    decreases |steps|
  {
    steps == [] ||
    ((steps[0].TickStep? ==> NoneOverruns(Apply(w, steps[0]))) && CapAfterEveryTick(Apply(w, steps[0]), steps[1..]))
  }

  /**
   In every run of commissions, respawns, webhooks, sweeps, heartbeats, Reconcile, pod changes and Argus restarts,
   whatever PodPhase answers, no task is still running at or past its cap when a tick of Argus ends.
   */
  lemma {:induction false} CapIsEnforced(w: World, steps: seq<Step>)
    requires Inv(w) && EnabledAll(w, steps)
    ensures CapAfterEveryTick(w, steps)
    decreases |steps|
  {
    if steps != [] {
      if steps[0].TickStep? {
        TickEnforcesCap(w, steps[0].order, steps[0].src);
      }
      StepInv(w, steps[0]);
      CapIsEnforced(Apply(w, steps[0]), steps[1..]);
    }
  }
}
