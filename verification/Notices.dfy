/** Warnings and escalations: at most one of each per tracked run, none too late, and each quoting a true percentage. */
module Notices {
  import opened Options
  import opened Tasks
  import opened TaskHistory
  import opened ArgusRules
  import opened Supervision
  import opened Runs
  import opened Invariants
  import opened Agreement
  import opened CapEnforcement

  /** The second of two events about one run may not repeat the first, nor follow the run's end. */
  predicate MayFollow(first: Event, second: Event) {
    first.run == second.run ==>
      && !Final(first.verdict)
      && !(first.verdict.Warn? && second.verdict.Warn?)
      && !(first.verdict.Escalate? && second.verdict.Escalate?)
  }

  ghost predicate Orderly(events: seq<Event>) {
    forall i, j :: 0 <= i < j < |events| ==> MayFollow(events[i], events[j])
  }

  /** A notice was posted before the cap and, for budgets in range, quotes at least its threshold and at most 99. */
  predicate TrueNotice(cfg: Config, b: Budget, e: Event) {
    match e.verdict
    case Warn(pct) =>
      0 < Cap(b) && e.wall < Cap(b) && (SaneBudget(cfg, b) ==> Percentage(b.warningPct, cfg.warningPct) <= pct <= 99)
    case Escalate(pct) =>
      0 < Cap(b) && e.wall < Cap(b)
          && (SaneBudget(cfg, b) ==> Percentage(b.escalationPct, cfg.escalationPct) <= pct <= 99)
    case _ => true
  }

  /** The flag of the entry covers the notice. */
  predicate Flagged(entry: Entry, e: Event) {
    (e.verdict.Warn? ==> entry.warned) && (e.verdict.Escalate? ==> entry.escalated)
  }

  /** The task is still running this very run. */
  predicate StillOn(c: Core, id: TaskId, run: RunId) {
    id in c.tasks && c.tasks[id].state == Running && c.tasks[id].runId == Some(run)
  }

  /** While a run that had a notice is still on, Argus tracks it, unless it is past its cap and only to be ended. */
  predicate TrackedIfNoticed(c: Core, now: Time, id: TaskId, e: Event) {
    StillOn(c, id, e.run) ==>
      !Final(e.verdict) && (Overruns(c.tasks[id], now) || (id in c.tracked && c.tracked[id].runId == e.run))
  }

  /** What the entry remembers covers what was posted about its run, unless the run is only to be ended. */
  predicate Remembers(c: Core, now: Time, id: TaskId, e: Event) {
    id in c.tracked && c.tracked[id].runId == e.run ==>
      && !Final(e.verdict)
      && (Flagged(c.tracked[id], e)
          || (OverCap(c.tracked[id], now) && (StillOn(c, id, e.run) ==> Overruns(c.tasks[id], now))))
  }

  /** What each event posted about a task has to do with the present state. */
  predicate Accounted(c: Core, runs: set<RunId>, now: Time, id: TaskId, e: Event) {
    && e.run in runs && e.verdict != LeaveAlone
    && TrackedIfNoticed(c, now, id, e)
    && Remembers(c, now, id, e)
    && id in c.tasks && c.tasks[id].budget.Some?
    && TrueNotice(c.cfg, c.tasks[id].budget.value, e)
  }

  ghost predicate NoticesOk(c: Core, runs: set<RunId>, now: Time, id: TaskId) {
    Orderly(EventsOf(c.log, id)) && forall e :: e in EventsOf(c.log, id) ==> Accounted(c, runs, now, id, e)
  }

  /** The restart drops the entry of a run still on and under its cap about which something has been posted. */
  predicate ForgetsAt(c: Core, now: Time, src: Source, id: TaskId) {
    && Dropped(c, id, src) && StillOn(c, id, c.persisted[id].runId) && !Overruns(c.tasks[id], now)
    && (c.persisted[id].warned || c.persisted[id].escalated)
  }

  ghost predicate Forgets(c: Core, now: Time, src: Source) {
    exists id :: ForgetsAt(c, now, src, id)
  }

  /** A step that is no forgetful restart. */
  ghost predicate Gentle(w: World, step: Step) {
    step.RestartStep? ==> !Forgets(w.core, w.now, step.src)
  }

  lemma NoticeIsTrue(cfg: Config, b: Budget, entry: Entry, id: TaskId, answer: Answer, now: Time)
    requires entry.limits == LimitsOf(cfg, b)
    ensures TrueNotice(cfg, b, EventFor(entry, id, Judge(cfg, entry, answer, now), now))
  {
    var v := Judge(cfg, entry, answer, now);
    var wall := now - entry.startedAt;
    if SaneBudget(cfg, b) && v.Warn? {
      SaneThresholds(cfg, b, Percentage(b.warningPct, cfg.warningPct));
      QuotedPercentage(b, Percentage(b.warningPct, cfg.warningPct), wall);
    }
    if SaneBudget(cfg, b) && v.Escalate? {
      SaneThresholds(cfg, b, Percentage(b.escalationPct, cfg.escalationPct));
      QuotedPercentage(b, Percentage(b.escalationPct, cfg.escalationPct), wall);
    }
  }

  lemma OrderlyAppend(events: seq<Event>, e: Event)
    requires Orderly(events) && forall f :: f in events ==> MayFollow(f, e)
    ensures Orderly(events + [e])
  {
    var all := events + [e];
    forall i, j | 0 <= i < j < |all| ensures MayFollow(all[i], all[j]) {
      if j == |events| {
        assert all[i] == events[i];
      } else {
        assert all[i] == events[i] && all[j] == events[j];
      }
    }
  }

  /** Discovering a running task cannot meet an event of its current run. */
  lemma DiscoverNotices(w: World, id: TaskId)
    requires Inv(w) && NoticesOk(w.core, w.runs, w.now, id)
    ensures NoticesOk(Discover(w.core, w.now), w.runs, w.now, id)
  {
    var c := Discover(w.core, w.now);
    forall e | e in EventsOf(c.log, id) ensures Accounted(c, w.runs, w.now, id, e) {
      assert Accounted(w.core, w.runs, w.now, id, e);
    }
  }

  lemma FinishAccounts(c: Core, runs: set<RunId>, id: TaskId, v: Verdict, now: Time, f: Event)
    requires id in c.tracked && Final(v) && c.tracked[id].runId in runs
    requires id in c.tasks && c.tasks[id].budget.Some?
    requires f == EventFor(c.tracked[id], id, v, now) || Accounted(c, runs, now, id, f)
    ensures Accounted(Finish(c, id, v, now), runs, now, id, f)
  {
    assert c.tasks[id].state == Running ==> ValidTransition(Running, FinalState(v));
  }

  lemma NotifyAccounts(c: Core, runs: set<RunId>, id: TaskId, v: Verdict, now: Time, f: Event)
    requires id in c.tracked && !Final(v) && v != LeaveAlone && c.tracked[id].runId in runs
    requires id in c.tasks && c.tasks[id].budget.Some?
    requires Accounted(c, runs, now, id, f) ||
             (f == EventFor(c.tracked[id], id, v, now) && TrueNotice(c.cfg, c.tasks[id].budget.value, f))
    ensures Accounted(Notify(c, id, v, now), runs, now, id, f)
  {
  }

  lemma NewEventFollows(c: Core, runs: set<RunId>, id: TaskId, now: Time, src: Source, f: Event)
    requires VerdictFor(c, now, id, src) != LeaveAlone && Accounted(c, runs, now, id, f)
    ensures MayFollow(f, EventFor(c.tracked[id], id, VerdictFor(c, now, id, src), now))
  {
  }

  lemma VisitAccounts(c: Core, runs: set<RunId>, id: TaskId, now: Time, src: Source, f: Event)
    requires VerdictFor(c, now, id, src) != LeaveAlone && c.tracked[id].runId in runs
    requires id in c.tasks && c.tasks[id].budget.Some?
             && c.tracked[id].limits == LimitsOf(c.cfg, c.tasks[id].budget.value)
    requires Accounted(c, runs, now, id, f) || f == EventFor(c.tracked[id], id, VerdictFor(c, now, id, src), now)
    ensures Accounted(EvaluateOne(c, now, id, src), runs, now, id, f)
  {
    var v := VerdictFor(c, now, id, src);
    if Final(v) {
      FinishAccounts(c, runs, id, v, now, f);
    } else {
      NoticeIsTrue(c.cfg, c.tasks[id].budget.value, c.tracked[id], id,
          AnswerFor(src, c.pods, id, c.tracked[id].podName), now);
      NotifyAccounts(c, runs, id, v, now, f);
    }
  }

  lemma VisitNotices(c: Core, runs: set<RunId>, id: TaskId, now: Time, src: Source)
    requires NoticesOk(c, runs, now, id)
    requires id in c.tracked ==> c.tracked[id].runId in runs && id in c.tasks && c.tasks[id].budget.Some?
                                 && c.tracked[id].limits == LimitsOf(c.cfg, c.tasks[id].budget.value)
    ensures NoticesOk(EvaluateOne(c, now, id, src), runs, now, id)
  {
    var v := VerdictFor(c, now, id, src);
    var d := EvaluateOne(c, now, id, src);
    if v != LeaveAlone {
      var e := EventFor(c.tracked[id], id, v, now);
      var events := EventsOf(c.log, id);
      EventsOfAppended(c.log, e, id);
      assert d.log == c.log + [e];
      forall f | f in events ensures MayFollow(f, e) {
        NewEventFollows(c, runs, id, now, src, f);
      }
      OrderlyAppend(events, e);
      forall f | f in EventsOf(d.log, id) ensures Accounted(d, runs, now, id, f) {
        VisitAccounts(c, runs, id, now, src, f);
      }
    }
  }

  lemma SameNotices(c: Core, d: Core, runs: set<RunId>, now: Time, id: TaskId)
    requires NoticesOk(c, runs, now, id) && SameAt(d, c, id) && EventsOf(d.log, id) == EventsOf(c.log, id)
    ensures NoticesOk(d, runs, now, id)
  {
    forall e | e in EventsOf(d.log, id) ensures Accounted(d, runs, now, id, e) {
      assert Accounted(c, runs, now, id, e);
    }
  }

  lemma TickNotices(w: World, order: seq<TaskId>, src: Source, id: TaskId)
    requires Inv(w) && NoticesOk(w.core, w.runs, w.now, id) && Distinct(order)
    ensures NoticesOk(Tick(w.core, w.now, order, src), w.runs, w.now, id)
  {
    var c := Discover(w.core, w.now);
    var answers := Arbitrary(Asked(c, w.now, order, src));
    PassIsArbitrary(c, w.now, order, src);
    EvaluateAllAt(c, w.now, order, answers, id);
    DiscoverNotices(w, id);
    if id in c.tracked {
      DiscoverTied(w, id);
    }
    VisitNotices(c, w.runs, id, w.now, answers);
    var one := if id in order then EvaluateOne(c, w.now, id, answers) else c;
    SameNotices(one, EvaluateAll(c, w.now, order, answers), w.runs, w.now, id);
  }

  lemma DispatchAccounts(c: Core, runs: set<RunId>, on: TaskId, run: RunId, pod: PodName, launch: Launch, now: Time,
          id: TaskId, e: Event)
    requires Accounted(c, runs, now, id, e) && run !in runs
             && (on == id && on in c.tasks ==> c.tasks[on].state != Running)
    ensures Accounted(Dispatch(c, on, run, pod, launch, now), runs + {run}, now, id, e)
    ensures launch != Launched ==> Accounted(Dispatch(c, on, run, pod, launch, now), runs, now, id, e)
  {
  }

  lemma MoreRuns(c: Core, runs: set<RunId>, more: set<RunId>, now: Time, id: TaskId, e: Event)
    requires Accounted(c, runs, now, id, e) && runs <= more
    ensures Accounted(c, more, now, id, e)
  {
  }

  lemma LaunchAccounts(w: World, step: Step, id: TaskId, e: Event)
    requires Accounted(w.core, w.runs, w.now, id, e) && Enabled(w, step) && (step.CommissionStep? || step.RespawnStep?)
    ensures Accounted(ApplyCore(w, step), Apply(w, step).runs, Apply(w, step).now, id, e)
  {
    if step.CommissionStep? {
      var c := w.core.(tasks := Insert(w.core.tasks, NewTask(step.id, step.budget, w.now), w.now));
      DispatchAccounts(c, w.runs, step.id, step.run, step.pod, step.launch, w.now, id, e);
    } else {
      MoreRuns(w.core, w.runs, w.runs + {step.run}, w.now, id, e);
      var found := FindByPR(w.core.tasks, step.url);
      if found.Some? && w.core.tasks[found.value].state == AwaitingReview {
        DispatchAccounts(w.core, w.runs, found.value, step.run, step.pod, step.launch, w.now, id, e);
      }
    }
  }

  lemma HeartbeatAccounts(c: Core, runs: set<RunId>, on: TaskId, now: Time, id: TaskId, e: Event)
    requires Accounted(c, runs, now, id, e)
    ensures Accounted(Heartbeat(c, on, now), runs, now, id, e)
  {
  }

  lemma RestartAccounts(w: World, src: Source, id: TaskId, e: Event)
    requires Accounted(w.core, w.runs, w.now, id, e) && w.core.persisted == w.core.tracked
             && Gentle(w, RestartStep(src))
    ensures Accounted(Restart(w.core, src), w.runs, w.now, id, e)
  {
    assert !ForgetsAt(w.core, w.now, src, id);
  }

  lemma QuietAccounts(w: World, step: Step, id: TaskId, e: Event)
    requires Accounted(w.core, w.runs, w.now, id, e) && Quiet(step) && !step.RestartStep? && Enabled(w, step)
    ensures Accounted(ApplyCore(w, step), w.runs, w.now, id, e)
  {
    QuietKeys(w, step, id);
    QuietRows(w, step, id);
    assert ApplyCore(w, step).tracked == w.core.tracked && ApplyCore(w, step).cfg == w.core.cfg;
  }

  lemma LaterAccounts(c: Core, runs: set<RunId>, now: Time, later: Time, id: TaskId, e: Event)
    requires Accounted(c, runs, now, id, e) && now <= later
    ensures Accounted(c, runs, later, id, e)
  {
  }

  lemma OtherNotices(w: World, step: Step, id: TaskId)
    requires Inv(w) && Enabled(w, step) && Gentle(w, step) && !step.TickStep? && NoticesOk(w.core, w.runs, w.now, id)
    ensures NoticesOk(ApplyCore(w, step), Apply(w, step).runs, Apply(w, step).now, id)
  {
    SilentSteps(w, step);
    forall e | e in EventsOf(w.core.log, id)
        ensures Accounted(ApplyCore(w, step), Apply(w, step).runs, Apply(w, step).now, id, e) {
      assert Accounted(w.core, w.runs, w.now, id, e);
      if step.CommissionStep? || step.RespawnStep? {
        LaunchAccounts(w, step, id, e);
      } else if step.HeartbeatStep? {
        HeartbeatAccounts(w.core, w.runs, step.id, w.now, id, e);
      } else if step.RestartStep? {
        RestartAccounts(w, step.src, id, e);
      } else if step.Advance? {
        LaterAccounts(w.core, w.runs, w.now, step.to, id, e);
      } else {
        QuietAccounts(w, step, id, e);
      }
    }
  }

  lemma SilentSteps(w: World, step: Step)
    requires !step.TickStep?
    ensures ApplyCore(w, step).log == w.core.log
  {
  }

  ghost predicate AllNoticesOk(w: World) {
    forall id :: NoticesOk(w.core, w.runs, w.now, id)
  }

  ghost predicate GentleAll(w: World, steps: seq<Step>)
    decreases |steps|
  {
    steps == [] || (Gentle(w, steps[0]) && GentleAll(Apply(w, steps[0]), steps[1..]))
  }

  /** One step that is no forgetful restart keeps the notices in order. */
  lemma StepNotices(w: World, step: Step)
    requires Inv(w) && AllNoticesOk(w) && Enabled(w, step) && Gentle(w, step)
    ensures AllNoticesOk(Apply(w, step))
  {
    forall id ensures NoticesOk(ApplyCore(w, step), Apply(w, step).runs, Apply(w, step).now, id) {
      assert NoticesOk(w.core, w.runs, w.now, id);
      if step.TickStep? {
        TickNotices(w, step.order, step.src, id);
      } else {
        OtherNotices(w, step, id);
      }
    }
  }

  /**
   Over every run without a forgetful restart: each tracked run is warned about at most once and escalated at most once,
   nothing about it follows its end, and every notice is posted before the cap and quotes a percentage from its
   threshold to 99.
   */
  lemma {:induction false} NoticesStayOrderly(w: World, steps: seq<Step>)
    requires Inv(w) && AllNoticesOk(w) && EnabledAll(w, steps) && GentleAll(w, steps)
    ensures AllNoticesOk(Run(w, steps))
    decreases |steps|
  {
    if steps != [] {
      StepInv(w, steps[0]);
      StepNotices(w, steps[0]);
      NoticesStayOrderly(Apply(w, steps[0]), steps[1..]);
    }
  }

  /** A run that has been warned about and whose next notice could only be the warning. */
  predicate OnlyWarningDue(cfg: Config, entry: Entry, now: Time) {
    entry.warned && !OverCap(entry, now)
    && WarningDue(entry.(warned := false), now) && !EscalationDue(entry.(escalated := false), now)
  }

  /** The state a forgetful restart followed by discover leads to: the same run, tracked afresh. */
  function Relearned(c: Core, src: Source, now: Time): Core {
    Discover(Restart(c, src), now)
  }

  lemma RestartForgets(w: World, src: Source, id: TaskId)
    requires Inv(w) && Agrees(w) && id in w.core.tracked && w.core.tasks[id].state == Running
    requires AnswerFor(src, w.core.pods, id, w.core.tracked[id].podName) == Seen(PhaseUnknown)
    ensures var d := Relearned(w.core, src, w.now);
            && id in d.tracked && d.cfg == w.core.cfg && d.log == w.core.log
            && d.tracked[id] == w.core.tracked[id].(lastHeartbeat := w.now, warned := false, escalated := false)
  {
    var entry := w.core.tracked[id];
    assert EntryTied(w, id, entry) && Mirrors(w.core.tasks[id], entry) && RowOk(id, w.core.tasks[id], w.now);
    assert id !in Restart(w.core, src).tracked;
    assert Undiscovered(Restart(w.core, src), id);
  }

  lemma WarnsAgain(d: Core, now: Time, order: seq<TaskId>, src: Source, id: TaskId)
    requires Distinct(order) && id in order && src == Arbitrary(map[id := Seen(PhaseRunning)])
    requires id in d.tracked && !d.tracked[id].terminated && d.tracked[id].lastHeartbeat == now
    requires !OverCap(d.tracked[id], now) && WarningDue(d.tracked[id], now) && !EscalationDue(d.tracked[id], now)
    ensures var before := EventsOf(d.log, id);
            var after := EventsOf(EvaluateAll(d, now, order, src).log, id);
            |after| == |before| + 1 && after[|before|].verdict.Warn? && after[|before|].run == d.tracked[id].runId
  {
    EvaluateAllAt(d, now, order, src, id);
    var v := VerdictFor(d, now, id, src);
    assert v.Warn?;
    assert EvaluateOne(d, now, id, src) == Notify(d, id, v, now);
    EventsOfAppended(d.log, EventFor(d.tracked[id], id, v, now), id);
  }

  /**
   Gentleness is needed: a restart at a moment when the dispatcher calls the pod's phase unknown forgets the warning,
   and the next tick posts a second one about the same run.
   */
  lemma ForgetfulRestartWarnsAgain(w: World, src: Source, order: seq<TaskId>, id: TaskId)
    requires Inv(w) && Agrees(w) && id in w.core.tracked && w.core.tasks[id].state == Running
    requires OnlyWarningDue(w.core.cfg, w.core.tracked[id], w.now)
    requires AnswerFor(src, w.core.pods, id, w.core.tracked[id].podName) == Seen(PhaseUnknown)
    requires Distinct(order) && id in order
    ensures var before := EventsOf(w.core.log, id);
            var answers := Arbitrary(map[id := Seen(PhaseRunning)]);
            var after := EventsOf(EvaluateAll(Relearned(w.core, src, w.now), w.now, order, answers).log, id);
            |after| == |before| + 1 && after[|before|].verdict.Warn? && after[|before|].run == w.core.tracked[id].runId
  {
    RestartForgets(w, src, id);
    assert EntryTied(w, id, w.core.tracked[id]);
    WarnsAgain(Relearned(w.core, src, w.now), w.now, order, Arbitrary(map[id := Seen(PhaseRunning)]), id);
  }
}
