/**
 Which restarts of Argus make it repeat a notice: exactly those that drop a warned or escalated entry of a run still on
 and under its cap.
 */
module Forgetting {
  import opened Options
  import opened Tasks
  import opened TaskHistory
  import opened ArgusRules
  import opened Supervision
  import opened Runs
  import opened Invariants
  import opened Agreement
  import opened Notices

  /** Two warnings, or two escalations, about one run. */
  predicate Twice(first: Event, second: Event) {
    first.run == second.run &&
    ((first.verdict.Warn? && second.verdict.Warn?) || (first.verdict.Escalate? && second.verdict.Escalate?))
  }

  ghost predicate Repeats(events: seq<Event>) {
    exists i, j :: 0 <= i < j < |events| && Twice(events[i], events[j])
  }

  /** A notice of this kind about the run has been posted. */
  predicate Posted(events: seq<Event>, run: RunId, warning: bool) {
    exists i :: 0 <= i < |events| && events[i].run == run
        && (if warning then events[i].verdict.Warn? else events[i].verdict.Escalate?)
  }

  // ---- An entry about the task's current run started when the run did ----

  /** If the entry is about the task's current run, it names that run's pod and start. */
  predicate SameStart(t: Task, e: Entry) {
    t.runId == Some(e.runId) ==> t.podName == Some(e.podName) && t.startedAt == Some(e.startedAt)
  }

  predicate AlignedAt(c: Core, id: TaskId) {
    id in c.tracked ==> id in c.tasks && SameStart(c.tasks[id], c.tracked[id])
  }

  ghost predicate Aligned(w: World) {
    forall id :: AlignedAt(w.core, id)
  }

  lemma DiscoverAligned(w: World, id: TaskId)
    requires Inv(w) && AlignedAt(w.core, id)
    ensures AlignedAt(Discover(w.core, w.now), id)
  {
    if id in Discover(w.core, w.now).tracked {
      DiscoverTied(w, id);
      assert RowOk(id, w.core.tasks[id], w.now);
    }
  }

  /** No visit starts a run, nor changes which run an entry is about. */
  lemma PassAligned(c: Core, now: Time, order: seq<TaskId>, src: Source, id: TaskId)
    requires src.Arbitrary? && Distinct(order) && AlignedAt(c, id)
    ensures AlignedAt(EvaluateAll(c, now, order, src), id)
  {
    hide EvaluateAll, Judge, VerdictFor, AnswerFor;
    PassRow(c, now, order, src, id);
    PassEntry(c, now, order, src, id);
  }

  lemma TickAligned(w: World, order: seq<TaskId>, src: Source, id: TaskId)
    requires Inv(w) && AlignedAt(w.core, id) && Distinct(order)
    ensures AlignedAt(Tick(w.core, w.now, order, src), id)
  {
    hide AlignedAt, Discover, EvaluateAll, Inv;
    var c := Discover(w.core, w.now);
    PassIsArbitrary(c, w.now, order, src);
    DiscoverAligned(w, id);
    PassAligned(c, w.now, order, Arbitrary(Asked(c, w.now, order, src)), id);
  }

  lemma DispatchAligned(c: Core, on: TaskId, run: RunId, pod: PodName, launch: Launch, now: Time, id: TaskId)
    requires AlignedAt(c, id) && (id in c.tracked ==> c.tracked[id].runId != run)
    ensures AlignedAt(Dispatch(c, on, run, pod, launch, now), id)
  {
  }

  lemma LaunchAligned(w: World, step: Step, id: TaskId)
    requires Inv(w) && AlignedAt(w.core, id) && Enabled(w, step) && (step.CommissionStep? || step.RespawnStep?)
    ensures AlignedAt(ApplyCore(w, step), id)
  {
    assert id in w.core.tracked ==> EntryTied(w, id, w.core.tracked[id]);
    if step.CommissionStep? {
      var c := w.core.(tasks := Insert(w.core.tasks, NewTask(step.id, step.budget, w.now), w.now));
      DispatchAligned(c, step.id, step.run, step.pod, step.launch, w.now, id);
    } else if FindByPR(w.core.tasks, step.url).Some? {
      DispatchAligned(w.core, FindByPR(w.core.tasks, step.url).value, step.run, step.pod, step.launch, w.now, id);
    }
  }

  lemma QuietAligned(w: World, step: Step, id: TaskId)
    requires Inv(w) && AlignedAt(w.core, id) && Enabled(w, step) && Quiet(step)
    ensures AlignedAt(ApplyCore(w, step), id)
  {
    QuietEntries(w, step);
    if id in ApplyCore(w, step).tracked {
      assert Agree(ApplyCore(w, step).tracked, w.core.tracked, id);
      QuietKeys(w, step, id);
      QuietRows(w, step, id);
    }
  }

  /** Every step keeps entries aligned, a Reconcile that hibernates a task behind Argus's back included. */
  lemma StepAligned(w: World, step: Step)
    requires Inv(w) && Aligned(w) && Enabled(w, step)
    ensures Aligned(Apply(w, step))
  {
    forall id ensures AlignedAt(ApplyCore(w, step), id) {
      assert AlignedAt(w.core, id);
      if step.TickStep? {
        TickAligned(w, step.order, step.src, id);
      } else if step.CommissionStep? || step.RespawnStep? {
        LaunchAligned(w, step, id);
      } else if Quiet(step) {
        QuietAligned(w, step, id);
      }
    }
  }

  // ---- A flag means that a notice was due and was posted ----

  predicate WarningTold(e: Entry, events: seq<Event>, now: Time) {
    e.warned ==>
      e.limits.maxWallClock > 0 && e.limits.warningAt > 0 && now - e.startedAt >= e.limits.warningAt
          && Posted(events, e.runId, true)
  }

  predicate EscalationTold(e: Entry, events: seq<Event>, now: Time) {
    e.escalated ==>
      e.limits.maxWallClock > 0 && e.limits.escalationAt > 0 && now - e.startedAt >= e.limits.escalationAt
          && Posted(events, e.runId, false)
  }

  predicate Told(c: Core, now: Time, id: TaskId) {
    id in c.tracked ==>
      WarningTold(c.tracked[id], EventsOf(c.log, id), now) && EscalationTold(c.tracked[id], EventsOf(c.log, id), now)
  }

  ghost predicate AllTold(w: World) {
    forall id :: Told(w.core, w.now, id)
  }

  lemma PostedLater(events: seq<Event>, e: Event, run: RunId, warning: bool)
    ensures Posted(events + [e], run, warning) <==>
            Posted(events, run, warning) || (e.run == run && if warning then e.verdict.Warn? else e.verdict.Escalate?)
  {
    var more := events + [e];
    assert more[|events|] == e && forall i :: 0 <= i < |events| ==> more[i] == events[i];
  }

  lemma NoticeTold(c: Core, now: Time, id: TaskId, v: Verdict)
    requires Told(c, now, id) && id in c.tracked
    requires (v.Warn? && WarningDue(c.tracked[id], now)) || (v.Escalate? && EscalationDue(c.tracked[id], now))
    ensures Told(Notify(c, id, v, now), now, id)
  {
    var e := EventFor(c.tracked[id], id, v, now);
    EventsOfAppended(c.log, e, id);
    PostedLater(EventsOf(c.log, id), e, e.run, true);
    PostedLater(EventsOf(c.log, id), e, e.run, false);
  }

  lemma VisitTold(c: Core, now: Time, id: TaskId, src: Source)
    requires Told(c, now, id)
    ensures Told(EvaluateOne(c, now, id, src), now, id)
  {
    var v := VerdictFor(c, now, id, src);
    if v != LeaveAlone && !Final(v) {
      NoticeTold(c, now, id, v);
    }
  }

  /** The parts of an entry its flags are about. */
  predicate SameRun(e: Entry, f: Entry) {
    e.runId == f.runId && e.startedAt == f.startedAt && e.limits == f.limits && e.warned == f.warned
        && e.escalated == f.escalated
  }

  lemma ToldStays(c: Core, d: Core, now: Time, later: Time, id: TaskId)
    requires Told(c, now, id) && now <= later && EventsOf(d.log, id) == EventsOf(c.log, id)
    requires id in d.tracked ==> id in c.tracked && SameRun(d.tracked[id], c.tracked[id])
    ensures Told(d, later, id)
  {
  }

  lemma TickTold(c: Core, now: Time, order: seq<TaskId>, src: Source, id: TaskId)
    requires Told(c, now, id) && Distinct(order)
    ensures Told(Tick(c, now, order, src), now, id)
  {
    var d := Discover(c, now);
    var answers := Arbitrary(Asked(d, now, order, src));
    PassIsArbitrary(d, now, order, src);
    EvaluateAllAt(d, now, order, answers, id);
    VisitTold(d, now, id, answers);
    var one := if id in order then EvaluateOne(d, now, id, answers) else d;
    ToldStays(one, EvaluateAll(d, now, order, answers), now, now, id);
  }

  lemma EntriesKept(w: World, step: Step, id: TaskId)
    requires Enabled(w, step) && !step.TickStep? && w.core.persisted == w.core.tracked
             && id in ApplyCore(w, step).tracked
    ensures id in w.core.tracked && SameRun(ApplyCore(w, step).tracked[id], w.core.tracked[id])
  {
    if Quiet(step) {
      QuietEntries(w, step);
      assert Agree(ApplyCore(w, step).tracked, w.core.tracked, id);
    }
  }

  lemma StepTold(w: World, step: Step)
    requires Inv(w) && AllTold(w) && Enabled(w, step)
    ensures AllTold(Apply(w, step))
  {
    var v := Apply(w, step);
    forall id ensures Told(v.core, v.now, id) {
      assert Told(w.core, w.now, id);
      if step.TickStep? {
        TickTold(w.core, w.now, step.order, step.src, id);
      } else {
        SilentSteps(w, step);
        if id in v.core.tracked {
          EntriesKept(w, step, id);
        }
        ToldStays(w.core, v.core, w.now, v.now, id);
      }
    }
  }

  // ---- A forgetful restart repeats a notice ----

  /** What Argus knows of a run it has dropped and found again. */
  function Afresh(e: Entry, now: Time): Entry {
    e.(lastHeartbeat := now, warned := false, escalated := false)
  }

  lemma RestartRelearns(w: World, src: Source, id: TaskId)
    requires Inv(w) && AlignedAt(w.core, id) && ForgetsAt(w.core, w.now, src, id)
    ensures var d := Relearned(w.core, src, w.now);
            && id in w.core.tracked && id in d.tracked && d.log == w.core.log && d.cfg == w.core.cfg
            && d.tracked[id] == Afresh(w.core.tracked[id], w.now) && !OverCap(d.tracked[id], w.now)
  {
    var entry := w.core.tracked[id];
    assert EntryTied(w, id, entry) && RowOk(id, w.core.tasks[id], w.now);
    assert id !in Restart(w.core, src).tracked;
    assert Undiscovered(Restart(w.core, src), id);
  }

  /** Answers under which the run goes on; the other pods are out of reach. */
  function OnlyRunning(id: TaskId): Source {
    Arbitrary(map[id := Seen(PhaseRunning)])
  }

  /** The verdict on a run that has just been heard from and is under its cap is a notice, if one is due. */
  lemma NoticeDue(c: Core, now: Time, id: TaskId)
    requires id in c.tracked && !c.tracked[id].terminated && c.tracked[id].lastHeartbeat == now
             && !OverCap(c.tracked[id], now)
    ensures var e := c.tracked[id];
            var v := VerdictFor(c, now, id, OnlyRunning(id));
            if EscalationDue(e, now) then v.Escalate? else if WarningDue(e, now) then v.Warn? else v == LeaveAlone
  {
  }

  /** A run just heard from, under its cap, about which a notice is due. */
  predicate AboutToBeNoted(e: Entry, now: Time) {
    !e.terminated && e.lastHeartbeat == now && !OverCap(e, now) && (EscalationDue(e, now) || WarningDue(e, now))
  }

  /** What a pass over such a run posts: the escalation if it is due, the warning otherwise. */
  lemma PassNotes(c: Core, now: Time, order: seq<TaskId>, id: TaskId)
    requires Distinct(order) && id in order && id in c.tracked && AboutToBeNoted(c.tracked[id], now)
    ensures var d := EvaluateAll(c, now, order, OnlyRunning(id));
            var v := VerdictFor(c, now, id, OnlyRunning(id));
            && (if EscalationDue(c.tracked[id], now) then v.Escalate? else v.Warn?)
            && id in d.tracked && d.tracked[id] == Marked(c.tracked[id], v)
            && EventsOf(d.log, id) == EventsOf(c.log, id) + [EventFor(c.tracked[id], id, v, now)]
  {
    var v := VerdictFor(c, now, id, OnlyRunning(id));
    NoticeDue(c, now, id);
    EvaluateAllAt(c, now, order, OnlyRunning(id), id);
    EventsOfAppended(c.log, EventFor(c.tracked[id], id, v, now), id);
  }

  lemma PostedTwice(events: seq<Event>, e: Event)
    requires e.verdict.Warn? || e.verdict.Escalate?
    requires Posted(events, e.run, e.verdict.Warn?)
    ensures Repeats(events + [e])
  {
    var i :| 0 <= i < |events| && events[i].run == e.run
        && (if e.verdict.Warn? then events[i].verdict.Warn? else events[i].verdict.Escalate?);
    var more := events + [e];
    assert more[i] == events[i] && more[|events|] == e && Twice(more[i], more[|events|]);
  }

  /** A run that may follow: enabled, and with no further forgetful restart. */
  ghost predicate MayFollowRestart(v: World, steps: seq<Step>) {
    EnabledAll(v, steps) && GentleAll(v, steps)
  }

  ghost predicate RepeatsIn(w: World, id: TaskId) {
    Repeats(EventsOf(w.core.log, id))
  }

  lemma TickAsStep(v: World, order: seq<TaskId>, src: Source)
    requires IsOrder(order, Discover(v.core, v.now).tracked.Keys)
    ensures MayFollowRestart(v, [TickStep(order, src)])
    ensures Run(v, [TickStep(order, src)]) == Apply(v, TickStep(order, src))
  {
    assert [TickStep(order, src)][1..] == [];
  }

  lemma StepThenTick(v: World, step: Step, order: seq<TaskId>, src: Source)
    requires Enabled(v, step) && step.TickStep? && Enabled(Apply(v, step), TickStep(order, src))
    ensures MayFollowRestart(v, [step, TickStep(order, src)])
    ensures Run(v, [step, TickStep(order, src)]) == Apply(Apply(v, step), TickStep(order, src))
  {
    var rest := [TickStep(order, src)];
    assert [step, TickStep(order, src)][1..] == rest && rest[1..] == [];
    TickAsStep(Apply(v, step), order, src);
  }

  /** One tick after the restart repeats the escalation, or the warning if no escalation is due. */
  lemma OneTickRepeats(v: World, order: seq<TaskId>, id: TaskId)
    requires Enabled(v, TickStep(order, OnlyRunning(id)))
    requires var d := Discover(v.core, v.now);
             && id in d.tracked && AboutToBeNoted(d.tracked[id], v.now)
             && Posted(EventsOf(d.log, id), d.tracked[id].runId, !EscalationDue(d.tracked[id], v.now))
    ensures RepeatsIn(Apply(v, TickStep(order, OnlyRunning(id))), id)
  {
    var d := Discover(v.core, v.now);
    PassNotes(d, v.now, order, id);
    PostedTwice(EventsOf(d.log, id), EventFor(d.tracked[id], id, VerdictFor(d, v.now, id, OnlyRunning(id)), v.now));
  }

  lemma DiscoverKeepsEntry(c: Core, now: Time, id: TaskId)
    requires id in c.tracked
    ensures var d := Discover(c, now); id in d.tracked && d.tracked[id] == c.tracked[id] && d.log == c.log
  {
  }

  /** If an escalation comes first, the second tick repeats the warning. */
  lemma EscalationFirst(v: World, order: seq<TaskId>, id: TaskId)
    requires Enabled(v, TickStep(order, OnlyRunning(id)))
    requires var d := Discover(v.core, v.now);
             && id in d.tracked && AboutToBeNoted(d.tracked[id], v.now)
             && EscalationDue(d.tracked[id], v.now) && WarningDue(d.tracked[id], v.now)
             && Posted(EventsOf(d.log, id), d.tracked[id].runId, true)
    ensures var u := Apply(v, TickStep(order, OnlyRunning(id)));
            var d := Discover(u.core, u.now);
            && u.now == v.now && id in d.tracked && AboutToBeNoted(d.tracked[id], u.now)
            && !EscalationDue(d.tracked[id], u.now)
            && Posted(EventsOf(d.log, id), d.tracked[id].runId, true)
  {
    hide Discover, EvaluateAll, EventsOf, Posted, Judge, VerdictFor;
    var d := Discover(v.core, v.now);
    PassNotes(d, v.now, order, id);
    DiscoverKeepsEntry(EvaluateAll(d, v.now, order, OnlyRunning(id)), v.now, id);
    var e := EventFor(d.tracked[id], id, VerdictFor(d, v.now, id, OnlyRunning(id)), v.now);
    PostedLater(EventsOf(d.log, id), e, e.run, true);
  }

  /** A notice is due that has been posted about this run before. */
  predicate DueAgain(c: Core, now: Time, id: TaskId)
    requires id in c.tracked
  {
    || (EscalationDue(c.tracked[id], now) && Posted(EventsOf(c.log, id), c.tracked[id].runId, false))
    || (WarningDue(c.tracked[id], now) && Posted(EventsOf(c.log, id), c.tracked[id].runId, true))
  }

  /** The first tick after a forgetful restart finds the forgotten notice due again. */
  lemma ForgottenIsDue(w: World, src: Source, id: TaskId)
    requires Inv(w) && Aligned(w) && AllTold(w) && ForgetsAt(w.core, w.now, src, id)
    ensures var d := Relearned(w.core, src, w.now);
            id in d.tracked && AboutToBeNoted(d.tracked[id], w.now) && DueAgain(d, w.now, id)
  {
    assert AlignedAt(w.core, id);
    RestartRelearns(w, src, id);
    assert Told(w.core, w.now, id) && EntryTied(w, id, w.core.tracked[id]);
  }

  lemma ForgettingRepeats(w: World, src: Source, id: TaskId) returns (steps: seq<Step>)
    requires Inv(w) && Aligned(w) && AllTold(w) && ForgetsAt(w.core, w.now, src, id)
    ensures var v := Apply(w, RestartStep(src)); MayFollowRestart(v, steps) && RepeatsIn(Run(v, steps), id)
  {
    hide Inv, Aligned, AllTold, Restart, Discover, ForgetsAt, DueAgain, AboutToBeNoted, MayFollowRestart, RepeatsIn;
    var v := Apply(w, RestartStep(src));
    ForgottenIsDue(w, src, id);
    steps := TicksRepeat(v, id);
  }

  lemma TicksRepeat(v: World, id: TaskId) returns (steps: seq<Step>)
    requires var d := Discover(v.core, v.now);
             id in d.tracked && AboutToBeNoted(d.tracked[id], v.now) && DueAgain(d, v.now, id)
    ensures MayFollowRestart(v, steps) && RepeatsIn(Run(v, steps), id)
  {
    var d := Discover(v.core, v.now);
    var order := OrderOf(d.tracked.Keys);
    if Posted(EventsOf(d.log, id), d.tracked[id].runId, !EscalationDue(d.tracked[id], v.now)) {
      OneTickRepeats(v, order, id);
      TickAsStep(v, order, OnlyRunning(id));
      steps := [TickStep(order, OnlyRunning(id))];
    } else {
      EscalationFirst(v, order, id);
      var u := Apply(v, TickStep(order, OnlyRunning(id)));
      var next := OrderOf(Discover(u.core, u.now).tracked.Keys);
      OneTickRepeats(u, next, id);
      StepThenTick(v, TickStep(order, OnlyRunning(id)), next, OnlyRunning(id));
      steps := [TickStep(order, OnlyRunning(id)), TickStep(next, OnlyRunning(id))];
    }
  }

  lemma OrderlyNeverRepeats(events: seq<Event>)
    requires Orderly(events)
    ensures !Repeats(events)
  {
  }

  /** A later run without further forgetful restarts in which some notice comes a second time. */
  ghost predicate Repeating(v: World, steps: seq<Step>) {
    MayFollowRestart(v, steps) && exists id :: RepeatsIn(Run(v, steps), id)
  }

  /**
   In every gentle run, disturbing Reconciles included, a restart admits a later run that repeats a warning or an
   escalation exactly if it drops a warned or escalated entry of a run still on and under its cap.
   */
  lemma RestartRepeatsIffItForgets(w: World, src: Source)
    requires Inv(w) && Aligned(w) && AllNoticesOk(w) && AllTold(w)
    ensures (exists steps :: Repeating(Apply(w, RestartStep(src)), steps)) <==> Forgets(w.core, w.now, src)
  {
    var v := Apply(w, RestartStep(src));
    if Forgets(w.core, w.now, src) {
      var id :| ForgetsAt(w.core, w.now, src, id);
      var steps := ForgettingRepeats(w, src, id);
      assert Repeating(v, steps);
    } else {
      assert Gentle(w, RestartStep(src));
      StepInv(w, RestartStep(src));
      StepNotices(w, RestartStep(src));
      forall steps ensures !Repeating(v, steps) {
        if MayFollowRestart(v, steps) {
          NoticesStayOrderly(v, steps);
          forall id ensures !RepeatsIn(Run(v, steps), id) {
            assert NoticesOk(Run(v, steps).core, Run(v, steps).runs, Run(v, steps).now, id);
            OrderlyNeverRepeats(EventsOf(Run(v, steps).core.log, id));
          }
        }
      }
    }
  }

  /** The states it speaks of are the ones every gentle run from an initial world goes through. */
  lemma {:induction false} GentleRunsQualify(w: World, steps: seq<Step>)
    requires Inv(w) && Aligned(w) && AllNoticesOk(w) && AllTold(w)
    requires EnabledAll(w, steps) && GentleAll(w, steps)
    ensures var v := Run(w, steps); Inv(v) && Aligned(v) && AllNoticesOk(v) && AllTold(v)
    decreases |steps|
  {
    if steps != [] {
      StepInv(w, steps[0]);
      StepAligned(w, steps[0]);
      StepNotices(w, steps[0]);
      StepTold(w, steps[0]);
      GentleRunsQualify(Apply(w, steps[0]), steps[1..]);
    }
  }

  lemma InitialQualifies(w: World)
    requires Initial(w)
    ensures Inv(w) && Aligned(w) && AllNoticesOk(w) && AllTold(w)
  {
  }

  /** From an empty start: after any gentle run, a restart admits a repeated notice exactly if it is forgetful. */
  lemma ReachedRestartRepeatsIffItForgets(w: World, steps: seq<Step>, src: Source)
    requires Initial(w) && EnabledAll(w, steps) && GentleAll(w, steps)
    ensures var v := Run(w, steps);
            (exists later :: Repeating(Apply(v, RestartStep(src)), later)) <==> Forgets(v.core, v.now, src)
  {
    InitialQualifies(w);
    GentleRunsQualify(w, steps);
    RestartRepeatsIffItForgets(Run(w, steps), src);
  }
}
