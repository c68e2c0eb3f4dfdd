/**
 Runs from an empty start in which the exceptional states of the other modules are reached, the dispatcher answering
 from the live pod set throughout: the new run of a reviewed task lost after a Minos restart, and a second warning after
 a forgetful restart of Argus.
 */
module Traces {
  import opened Options
  import opened Tasks
  import opened ArgusRules
  import opened Supervision
  import opened Runs
  import opened Invariants
  import opened StaleRuns
  import opened CrashTransparency
  import opened Forgetting

  const SECOND := NANOS_PER_SECOND
  const POD_A := "plugin-a"
  const POD_B := "plugin-b"
  const URL := "https://git/pr/1"

  /** No stall threshold; a cap of 100 seconds with a warning at 50 percent and an escalation at 80. */
  const CONFIG := Config(0, 50, 80)
  const BUDGET := Budget(100, 0, 0)

  function Start(): World {
    World(Core(CONFIG, map[], map[], map[], map[], []), 1, map[], {}, map[], map[])
  }

  /** The dispatcher tells of every pod as it stands. */
  const LIVE := FromPods({})

  lemma LimitsHere()
    ensures LimitsOf(CONFIG, BUDGET) == Limits(100 * SECOND, 50 * SECOND, 80 * SECOND)
  {
  }

  /** The row of the task once its first run is on. */
  function FirstRow(prUrl: Option<string>): Task {
    Task(0, Running, Some(BUDGET), Some(7), Some(POD_A), prUrl, 1, Some(1), None, 1, None)
  }

  /** What Argus tracks about that run. */
  function FirstEntry(found: Time, warned: bool): Entry {
    Entry(7, POD_A, 1, found, LimitsOf(CONFIG, BUDGET), warned, false, false)
  }

  const COMMISSIONED := CommissionStep(0, BUDGET, 7, POD_A, Launched)

  lemma Commissioned()
    ensures Enabled(Start(), COMMISSIONED)
    ensures var w := Apply(Start(), COMMISSIONED);
            && w.core == Core(CONFIG, map[0 := FirstRow(None)], map[POD_A := PhasePending], map[], map[], [])
            && w.now == 1 && w.owner == map[POD_A := 0] && w.runs == {7}
  {
  }

  /** Whatever else has happened, a tick that sees a world with this one run finds it. */
  lemma FoundByTick(c: Core, now: Time)
    requires c.cfg == CONFIG && c.tracked == map[] && c.persisted == map[]
    requires c.tasks.Keys == {0} && c.tasks[0] == FirstRow(c.tasks[0].prUrl)
    ensures Discover(c, now).tracked == map[0 := FirstEntry(now, false)]
    ensures Discover(c, now) ==
            c.(tracked := map[0 := FirstEntry(now, false)], persisted := map[0 := FirstEntry(now, false)])
  {
    assert Undiscovered(c, 0);
  }

  // ---- The run lost after a Minos restart and a review ----

  /** One run, tracked, its pull request reported; its pod's phase. */
  ghost predicate OneRun(v: World, phase: Phase) {
    && v.core.tasks == map[0 := FirstRow(Some(URL))] && v.core.tracked == map[0 := FirstEntry(1, false)]
    && v.core.pods == map[POD_A := phase]
    && v.now == 1 && v.owner == map[POD_A := 0] && v.runs == {7}
  }

  lemma ReportedAndTracked()
    ensures var w := Apply(Start(), COMMISSIONED);
            var u := Apply(w, ReportPRStep(0, URL));
            var v := Apply(u, TickStep([0], LIVE));
            Enabled(w, ReportPRStep(0, URL)) && Enabled(u, TickStep([0], LIVE)) && OneRun(v, PhasePending)
  {
    hide LimitsOf, Judge;
    Commissioned();
    var w := Apply(Start(), COMMISSIONED);
    var u := Apply(w, ReportPRStep(0, URL));
    assert u.core.tasks == map[0 := FirstRow(Some(URL))];
    FoundByTick(u.core, u.now);
    var d := Discover(u.core, u.now);
    OneVisit(d, u.now, LIVE);
    NothingDueYet(d, u.now);
  }

  lemma NothingDueYet(c: Core, now: Time)
    requires c.cfg == CONFIG && now == 1 && c.tracked == map[0 := FirstEntry(1, false)]
    requires c.pods == map[POD_A := PhasePending]
    ensures VerdictFor(c, now, 0, LIVE) == LeaveAlone
  {
    LimitsHere();
  }

  lemma OneVisit(c: Core, now: Time, src: Source)
    ensures EvaluateAll(c, now, [0], src) == EvaluateOne(c, now, 0, src)
  {
    assert [0][1..] == [];
  }

  const SUCCEEDED := PodStep(POD_A, Some(PhaseSucceeded))

  lemma PodSucceeds(v: World)
    requires OneRun(v, PhasePending)
    ensures Enabled(v, SUCCEEDED) && OneRun(Apply(v, SUCCEEDED), PhaseSucceeded)
  {
  }

  function FirstHalf(): seq<Step> {
    [COMMISSIONED, ReportPRStep(0, URL), TickStep([0], LIVE), SUCCEEDED]
  }

  function SecondHalf(): seq<Step> {
    [ReconcileStep(LIVE), RespawnStep(URL, 8, POD_B, Launched), TickStep([0], LIVE)]
  }

  /** Commission, pull request, tick; the pod succeeds; Reconcile, review, tick. */
  function LosingRun(): seq<Step> {
    FirstHalf() + SecondHalf()
  }

  lemma RunOf1(w: World, a: Step)
    requires Enabled(w, a)
    ensures EnabledAll(w, [a]) && Run(w, [a]) == Apply(w, a)
  {
    assert [a][1..] == [];
    assert Run(Apply(w, a), []) == Apply(w, a);
  }

  lemma RunOf2(w: World, a: Step, b: Step)
    requires Enabled(w, a) && Enabled(Apply(w, a), b)
    ensures EnabledAll(w, [a, b]) && Run(w, [a, b]) == Apply(Apply(w, a), b)
  {
    assert [a, b][1..] == [b];
    RunOf1(Apply(w, a), b);
  }

  lemma RunOf3(w: World, a: Step, b: Step, c: Step)
    requires Enabled(w, a) && Enabled(Apply(w, a), b) && Enabled(Apply(Apply(w, a), b), c)
    ensures EnabledAll(w, [a, b, c]) && Run(w, [a, b, c]) == Apply(Apply(Apply(w, a), b), c)
  {
    assert [a, b, c][1..] == [b, c];
    RunOf2(Apply(w, a), b, c);
  }

  lemma RunOf4(w: World, a: Step, b: Step, c: Step, d: Step)
    requires Enabled(w, a) && Enabled(Apply(w, a), b) && Enabled(Apply(Apply(w, a), b), c)
    requires Enabled(Apply(Apply(Apply(w, a), b), c), d)
    ensures EnabledAll(w, [a, b, c, d]) && Run(w, [a, b, c, d]) == Apply(Apply(Apply(Apply(w, a), b), c), d)
  {
    assert [a, b, c, d][1..] == [b, c, d];
    RunOf3(Apply(w, a), b, c, d);
  }

  lemma {:induction false} RunsJoined(w: World, first: seq<Step>, second: seq<Step>)
    requires EnabledAll(w, first) && EnabledAll(Run(w, first), second)
    ensures EnabledAll(w, first + second) && Run(w, first + second) == Run(Run(w, first), second)
    decreases |first|
  {
    if first == [] {
      assert first + second == second;
    } else {
      assert (first + second)[1..] == first[1..] + second;
      RunsJoined(Apply(w, first[0]), first[1..], second);
    }
  }

  lemma FirstHalfRuns()
    ensures EnabledAll(Start(), FirstHalf()) && OneRun(Run(Start(), FirstHalf()), PhaseSucceeded)
  {
    hide Run, EnabledAll, Apply, Enabled, OneRun, Start;
    Commissioned();
    ReportedAndTracked();
    PodSucceeds(Apply(Apply(Apply(Start(), COMMISSIONED), ReportPRStep(0, URL)), TickStep([0], LIVE)));
    RunOf4(Start(), COMMISSIONED, ReportPRStep(0, URL), TickStep([0], LIVE), SUCCEEDED);
  }

  lemma RespawnKeepsEntries(c: Core, url: string, run: RunId, pod: PodName, now: Time)
    ensures var d := RespawnByPR(c, url, run, pod, Launched, now);
            d.tracked == c.tracked && d.tasks.Keys == c.tasks.Keys
  {
  }

  lemma ReviewedWorld(v: World)
    requires OneRun(v, PhaseSucceeded)
    ensures var r := RestartThenReview(v, LIVE, URL, 8, POD_B);
            r.core.tracked.Keys == {0} && r.core.tasks.Keys == {0}
  {
    hide RespawnByPR;
    var u := Reconcile(v.core, LIVE, v.now);
    assert u.tracked == v.core.tracked && u.tasks.Keys == {0};
    RespawnKeepsEntries(u, URL, 8, POD_B, v.now);
  }

  lemma SecondRunIsFresh(v: World)
    requires OneRun(v, PhaseSucceeded)
    ensures FreshRun(v, 8, POD_B)
            && Enabled(Apply(v, ReconcileStep(LIVE)), RespawnStep(URL, 8, POD_B, Launched))
  {
    hide Reconcile, FirstRow, FirstEntry;
    assert POD_B != POD_A && POD_B != "";
  }

  lemma OnlyTaskIsOrder(c: Core, now: Time)
    requires c.tasks.Keys == {0} && c.tracked.Keys == {0}
    ensures IsOrder([0], Discover(c, now).tracked.Keys)
  {
    assert Discover(c, now).tracked.Keys == {0};
  }

  lemma FirstRunIsOver(v: World)
    requires OneRun(v, PhaseSucceeded)
    ensures OverAndReported(v, LIVE, 0, URL)
  {
  }

  lemma SecondHalfLoses(v: World)
    requires Inv(v) && OneRun(v, PhaseSucceeded)
    ensures var d := Run(v, SecondHalf()).core;
            && EnabledAll(v, SecondHalf())
            && 0 in d.tasks && d.tasks[0].state == AwaitingReview && 0 !in d.tracked && POD_B in d.pods
  {
    hide Discover, Tick, Reconcile, RespawnByPR, OverAndReported, OneRun, FreshRun, Run, EnabledAll, Inv;
    var r := RestartThenReview(v, LIVE, URL, 8, POD_B);
    FirstRunIsOver(v);
    ReviewedWorld(v);
    SecondRunIsFresh(v);
    OnlyTaskIsOrder(r.core, r.now);
    ReconcileThenReviewLosesRun(v, LIVE, 0, URL, 8, POD_B, [0]);
    RunOf3(v, ReconcileStep(LIVE), RespawnStep(URL, 8, POD_B, Launched), TickStep([0], LIVE));
  }

  /** From an initial world: the task awaits review again while the live pod of its new run is tracked by nobody. */
  lemma LostRunIsReached()
    ensures Initial(Start()) && EnabledAll(Start(), LosingRun())
    ensures var d := Run(Start(), LosingRun()).core;
            0 in d.tasks && d.tasks[0].state == AwaitingReview && 0 !in d.tracked && POD_B in d.pods
  {
    hide OneRun, FirstHalf, SecondHalf, Run, EnabledAll, Inv;
    FirstHalfRuns();
    InitialInv(Start());
    RunInv(Start(), FirstHalf());
    SecondHalfLoses(Run(Start(), FirstHalf()));
    RunsJoined(Start(), FirstHalf(), SecondHalf());
  }

  // ---- The second warning ----

  const LATER: Time := 1 + 60 * SECOND

  function WarningEvent(): Event {
    Event(0, 7, POD_A, Warn(60), 60 * SECOND)
  }

  /** The core after the commission, 60 seconds, and a tick, the pod being in some phase. */
  function WarnedCore(phase: Phase): Core {
    Core(CONFIG, map[0 := FirstRow(None)], map[POD_A := phase], map[0 := FirstEntry(LATER, true)],
        map[0 := FirstEntry(LATER, true)], [WarningEvent()])
  }

  lemma SixtyPercent(c: Core)
    requires c.cfg == CONFIG && c.pods == map[POD_A := PhasePending] && c.tracked == map[0 := FirstEntry(LATER, false)]
    ensures VerdictFor(c, LATER, 0, LIVE) == Warn(60)
  {
    LimitsHere();
  }

  /** The world after the commission, 60 seconds, and a tick. */
  ghost function Warned(): World {
    Apply(Apply(Apply(Start(), COMMISSIONED), Advance(LATER)), TickStep([0], LIVE))
  }

  lemma WarnedWorld()
    ensures var w := Apply(Start(), COMMISSIONED);
            Enabled(w, Advance(LATER)) && Enabled(Apply(w, Advance(LATER)), TickStep([0], LIVE))
    ensures Warned().now == LATER && Warned().core == WarnedCore(PhasePending)
  {
    hide LimitsOf, Judge;
    Commissioned();
    var u := Apply(Apply(Start(), COMMISSIONED), Advance(LATER));
    FoundByTick(u.core, u.now);
    var d := Discover(u.core, u.now);
    OneVisit(d, u.now, LIVE);
    SixtyPercent(d);
  }

  lemma RestartEmpties(c: Core, src: Source)
    requires c.persisted.Keys == {0} && Dropped(c, 0, src)
    ensures Restart(c, src) == c.(tracked := map[], persisted := map[])
  {
    assert forall id :: id in c.persisted ==> Dropped(c, id, src);
  }

  const UNKNOWN := PodStep(POD_A, Some(PhaseUnknown))
  const RUNNING := PodStep(POD_A, Some(PhaseRunning))

  /** The pod's phase unknown at the restart, and known again afterwards. */
  ghost function Forgotten(): World {
    Apply(Apply(Apply(Warned(), UNKNOWN), RestartStep(LIVE)), RUNNING)
  }

  lemma RestartDropsIt(u: World)
    requires u.core == WarnedCore(PhaseUnknown) && u.now == LATER
    ensures Apply(u, RestartStep(LIVE)).core == u.core.(tracked := map[], persisted := map[])
            && Apply(u, RestartStep(LIVE)).now == LATER
  {
    hide LimitsOf;
    RestartEmpties(u.core, LIVE);
  }

  lemma RunsAgain(u: World)
    requires u.core == WarnedCore(PhaseUnknown).(tracked := map[], persisted := map[]) && u.now == LATER
    ensures var v := Apply(u, RUNNING);
            Enabled(u, RUNNING) && v.now == LATER
            && v.core == WarnedCore(PhaseRunning).(tracked := map[], persisted := map[])
  {
  }

  lemma PodGetsUnknown(w: World)
    requires w.core == WarnedCore(PhasePending) && w.now == LATER
    ensures var u := Apply(w, UNKNOWN); Enabled(w, UNKNOWN) && u.core == WarnedCore(PhaseUnknown) && u.now == LATER
  {
  }

  /** Argus looks around again. */
  lemma ForgottenWorld()
    ensures var u := Apply(Warned(), UNKNOWN);
            Enabled(Warned(), UNKNOWN) && Enabled(u, RestartStep(LIVE)) && Enabled(Apply(u, RestartStep(LIVE)), RUNNING)
    ensures var v := Forgotten();
            && v.now == LATER && v.core.pods == map[POD_A := PhaseRunning]
            && Discover(v.core, v.now).tracked == map[0 := FirstEntry(LATER, false)]
            && Discover(v.core, v.now).pods == v.core.pods
            && Discover(v.core, v.now).log == [WarningEvent()]
  {
    hide LimitsOf, Warned, Apply, Discover;
    WarnedWorld();
    var u := Apply(Warned(), UNKNOWN);
    PodGetsUnknown(Warned());
    RestartDropsIt(u);
    RunsAgain(Apply(u, RestartStep(LIVE)));
    FoundByTick(Forgotten().core, LATER);
  }

  lemma ForgottenWarningDue()
    ensures AboutToBeNoted(FirstEntry(LATER, false), LATER) && !EscalationDue(FirstEntry(LATER, false), LATER)
    ensures Posted(EventsOf([WarningEvent()], 0), 7, true)
  {
    LimitsHere();
    assert EventsOf([], 0) == [];
    EventsOfAppended([], WarningEvent(), 0);
    assert [] + [WarningEvent()] == [WarningEvent()];
    assert EventsOf([WarningEvent()], 0)[0] == WarningEvent();
  }

  /** The live pod set tells of this pod what the answer Running would. */
  lemma SeenRunning(v: World)
    requires var d := Discover(v.core, v.now);
             d.tracked == map[0 := FirstEntry(LATER, false)] && d.pods == map[POD_A := PhaseRunning]
    ensures ApplyCore(v, TickStep([0], LIVE)) == ApplyCore(v, TickStep([0], OnlyRunning(0)))
  {
    var d := Discover(v.core, v.now);
    OneVisit(d, v.now, LIVE);
    OneVisit(d, v.now, OnlyRunning(0));
    SameAnswerSameVisit(d, v.now, 0, LIVE, OnlyRunning(0));
  }

  /** Commission, 60 seconds, a tick that warns; the pod's phase gets unknown; a restart; it runs again; a tick. */
  function WarningRun(): seq<Step> {
    [COMMISSIONED, Advance(LATER), TickStep([0], LIVE)] + [UNKNOWN, RestartStep(LIVE), RUNNING, TickStep([0], LIVE)]
  }

  /** The tick after that posts the warning again. */
  lemma WarnsAgainLive()
    ensures Enabled(Forgotten(), TickStep([0], LIVE))
    ensures RepeatsIn(Apply(Forgotten(), TickStep([0], LIVE)), 0)
  {
    hide Discover, EvaluateAll, EventsOf, AboutToBeNoted, Posted, Repeats, EscalationDue, Forgotten;
    ForgottenWorld();
    ForgottenWarningDue();
    SeenRunning(Forgotten());
    OneTickRepeats(Forgotten(), [0], 0);
  }

  /** From an initial world: a second warning about the same run. */
  lemma SecondWarningIsReached()
    ensures Initial(Start()) && EnabledAll(Start(), WarningRun())
    ensures Repeats(EventsOf(Run(Start(), WarningRun()).core.log, 0))
  {
    hide Apply, ApplyCore, Enabled, Run, EnabledAll, EventsOf, Repeats;
    var tick := TickStep([0], LIVE);
    WarnedWorld();
    Commissioned();
    RunOf3(Start(), COMMISSIONED, Advance(LATER), tick);
    ForgottenWorld();
    WarnsAgainLive();
    RunOf4(Warned(), UNKNOWN, RestartStep(LIVE), RUNNING, tick);
    RunsJoined(Start(), [COMMISSIONED, Advance(LATER), tick], [UNKNOWN, RestartStep(LIVE), RUNNING, tick]);
  }
}
