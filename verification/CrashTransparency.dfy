/**
 Crashes of Argus between operations: the persisted rows are the tracked rows, so a restart loses only entries whose pod
 the dispatcher names over or unknown, and for every other task the run goes on as if there had been no crash.
 */
module CrashTransparency {
  import opened Options
  import opened Tasks
  import opened TaskHistory
  import opened ArgusRules
  import opened Supervision
  import opened Runs
  import opened Invariants
  import opened Agreement
  import opened StartupOrder

  /** Which pull request each task has reported. */
  function PullRequests(tasks: Table): map<TaskId, Option<string>> {
    map id | id in tasks :: tasks[id].prUrl
  }

  /** The pods minted for a task are in the same state. */
  ghost predicate SamePods(owner: map<PodName, TaskId>, c: Core, d: Core, id: TaskId) {
    forall p :: p in owner && owner[p] == id ==> Agree(c.pods, d.pods, p)
  }

  /**
   Two worlds that look alike from one task: its row, its entry, its events and the pods minted for it. Pods of other
   tasks may differ; pull requests and pod names belong to the same tasks in both.
   */
  ghost predicate Twins(w: World, v: World, id: TaskId) {
    && w.now == v.now
    && SameAt(w.core, v.core, id)
    && EventsOf(w.core.log, id) == EventsOf(v.core.log, id)
    && PullRequests(w.core.tasks) == PullRequests(v.core.tasks)
    && w.owner == v.owner
    && SamePods(w.owner, w.core, v.core, id)
  }

  /** A restart loses exactly the entries the dispatcher speaks against. */
  lemma RestartLosesOnlyDropped(w: World, src: Source, id: TaskId)
    requires Inv(w)
    ensures var d := Restart(w.core, src);
            && (id in d.tracked <==>
                id in w.core.tracked && !Drops(AnswerFor(src, w.core.pods, id, w.core.tracked[id].podName)))
            && (id in d.tracked ==> d.tracked[id] == w.core.tracked[id])
            && d.tasks == w.core.tasks && d.pods == w.core.pods && d.log == w.core.log
  {
  }

  /** A visit depends on the source only through the answer about the task visited. */
  lemma SameAnswerSameVisit(c: Core, now: Time, id: TaskId, a: Source, b: Source)
    requires id in c.tracked ==>
               AnswerFor(a, c.pods, id, c.tracked[id].podName) == AnswerFor(b, c.pods, id, c.tracked[id].podName)
    ensures VerdictFor(c, now, id, a) == VerdictFor(c, now, id, b)
    ensures EvaluateOne(c, now, id, a) == EvaluateOne(c, now, id, b)
  {
  }

  /** What a pass makes of a task, its answers fixed and told by the visit to that task alone, in any order. */
  lemma TwinPass(c: Core, d: Core, now: Time, order: seq<TaskId>, other: seq<TaskId>, a: Source, b: Source, id: TaskId)
    requires a.Arbitrary? && b.Arbitrary? && Distinct(order) && Distinct(other)
    requires id in c.tracked ==> id in order && id in other
    requires SameAt(c, d, id) && EventsOf(c.log, id) == EventsOf(d.log, id)
    requires id in c.tracked ==>
               AnswerFor(a, c.pods, id, c.tracked[id].podName) == AnswerFor(b, d.pods, id, c.tracked[id].podName)
    ensures SameAt(EvaluateAll(c, now, order, a), EvaluateAll(d, now, other, b), id)
    ensures EventsOf(EvaluateAll(c, now, order, a).log, id) == EventsOf(EvaluateAll(d, now, other, b).log, id)
  {
    EvaluateAllAt(c, now, order, a, id);
    EvaluateAllAt(d, now, other, b, id);
    if id in c.tracked {
      EvaluateOneLocal(c, d, now, id, a);
      SameAnswerSameVisit(d, now, id, a, b);
    }
  }

  /** A visit ends the run of a task under this pod. */
  predicate Ends(c: Core, now: Time, src: Source, id: TaskId, p: PodName) {
    Final(VerdictFor(c, now, id, src)) && id in c.tracked && c.tracked[id].podName == p
  }

  /** A pass deletes a pod exactly if it ends the run of the task the pod was minted for. */
  lemma OwnPodAfterPass(w: World, order: seq<TaskId>, src: Source, p: PodName)
    requires Inv(w) && src.Arbitrary? && IsOrder(order, Discover(w.core, w.now).tracked.Keys)
    requires p in w.owner
    ensures var c := Discover(w.core, w.now);
            var pods := EvaluateAll(c, w.now, order, src).pods;
            if Ends(c, w.now, src, w.owner[p], p) then p !in pods else Agree(pods, w.core.pods, p)
  {
    var c := Discover(w.core, w.now);
    EvaluateAllPods(c, w.now, order, src);
    forall other | other in order && Final(VerdictFor(c, w.now, other, src)) && c.tracked[other].podName == p
      ensures other == w.owner[p]
    {
      DiscoverTied(w, other);
    }
  }

  /** The answer a pass is going to get about a task is the same in twin worlds. */
  lemma TwinAnswers(w: World, v: World, src: Source, id: TaskId)
    requires Twins(w, v, id) && Inv(w) && id in Discover(w.core, w.now).tracked
    ensures var c, d := Discover(w.core, w.now), Discover(v.core, v.now);
            id in d.tracked && c.tracked[id] == d.tracked[id]
            && AnswerFor(src, c.pods, id, c.tracked[id].podName) == AnswerFor(src, d.pods, id, c.tracked[id].podName)
  {
    TwinDiscover(w.core, v.core, w.now, id);
    DiscoverTied(w, id);
    var p := Discover(w.core, w.now).tracked[id].podName;
    assert Agree(w.core.pods, v.core.pods, p);
  }

  /** Each world visits its pods in an order of its own. */
  lemma TwinTick(w: World, v: World, order: seq<TaskId>, other: seq<TaskId>, src: Source, id: TaskId)
    requires Twins(w, v, id) && Inv(w) && Inv(v)
    requires Enabled(w, TickStep(order, src)) && Enabled(v, TickStep(other, src))
    ensures var c, d := Tick(w.core, w.now, order, src), Tick(v.core, v.now, other, src);
            SameAt(c, d, id) && EventsOf(c.log, id) == EventsOf(d.log, id) && SamePods(w.owner, c, d, id)
  {
    var c, d := Discover(w.core, w.now), Discover(v.core, v.now);
    TwinDiscover(w.core, v.core, w.now, id);
    TrackedPodsAreOwn(w);
    TrackedPodsAreOwn(v);
    PassForeseen(c, w.now, order, src);
    PassForeseen(d, v.now, other, src);
    var a, b := Arbitrary(Foreseen(c, src)), Arbitrary(Foreseen(d, src));
    if id in c.tracked {
      TwinAnswers(w, v, src, id);
    }
    TwinPass(c, d, w.now, order, other, a, b, id);
    TwinVerdicts(c, d, w.now, a, b, id);
    forall p | p in w.owner && w.owner[p] == id
      ensures Agree(EvaluateAll(c, w.now, order, a).pods, EvaluateAll(d, v.now, other, b).pods, p)
    {
      assert Agree(w.core.pods, v.core.pods, p);
      TwinEnds(c, d, w.now, a, b, id, p);
      TwinPodAfterPass(w, v, order, other, a, b, p);
    }
  }

  lemma TwinPodAfterPass(w: World, v: World, order: seq<TaskId>, other: seq<TaskId>, a: Source, b: Source, p: PodName)
    requires Inv(w) && Inv(v) && Enabled(w, TickStep(order, a)) && Enabled(v, TickStep(other, b))
    requires a.Arbitrary? && b.Arbitrary? && p in w.owner && p in v.owner && w.owner[p] == v.owner[p]
    requires Agree(w.core.pods, v.core.pods, p)
    requires Ends(Discover(w.core, w.now), w.now, a, w.owner[p], p) <==>
             Ends(Discover(v.core, v.now), v.now, b, v.owner[p], p)
    ensures var c, d := Discover(w.core, w.now), Discover(v.core, v.now);
            Agree(EvaluateAll(c, w.now, order, a).pods, EvaluateAll(d, v.now, other, b).pods, p)
  {
    hide Ends;
    OwnPodAfterPass(w, order, a, p);
    OwnPodAfterPass(v, other, b, p);
  }

  lemma TwinEnds(c: Core, d: Core, now: Time, a: Source, b: Source, id: TaskId, p: PodName)
    requires SameAt(c, d, id) && VerdictFor(c, now, id, a) == VerdictFor(d, now, id, b)
    ensures Ends(c, now, a, id, p) <==> Ends(d, now, b, id, p)
  {
  }

  lemma TwinVerdicts(c: Core, d: Core, now: Time, a: Source, b: Source, id: TaskId)
    requires SameAt(c, d, id)
    requires id in c.tracked ==>
               AnswerFor(a, c.pods, id, c.tracked[id].podName) == AnswerFor(b, d.pods, id, c.tracked[id].podName)
    ensures VerdictFor(c, now, id, a) == VerdictFor(d, now, id, b)
  {
  }

  lemma TwinDiscover(c: Core, d: Core, now: Time, id: TaskId)
    requires SameAt(c, d, id)
    ensures SameAt(Discover(c, now), Discover(d, now), id)
  {
    assert Undiscovered(c, id) <==> Undiscovered(d, id);
    if id in c.tasks {
      assert c.tasks[id] == d.tasks[id];
    }
  }

  lemma TwinRestart(w: World, v: World, src: Source, id: TaskId)
    requires Twins(w, v, id) && Inv(w)
    ensures SameAt(Restart(w.core, src), Restart(v.core, src), id)
  {
    if id in w.core.tracked {
      assert EntryTied(w, id, w.core.tracked[id]);
      assert Agree(w.core.pods, v.core.pods, w.core.tracked[id].podName);
    }
    assert Dropped(w.core, id, src) <==> Dropped(v.core, id, src);
  }

  lemma TwinDispatch(c: Core, d: Core, on: TaskId, run: RunId, pod: PodName, launch: Launch, now: Time, id: TaskId)
    requires SameAt(c, d, id) && pod !in c.pods && pod !in d.pods
    ensures SameAt(Dispatch(c, on, run, pod, launch, now), Dispatch(d, on, run, pod, launch, now), id)
  {
    if on == id && id in c.tasks {
      assert c.tasks[id] == d.tasks[id];
    }
  }

  lemma SameRowReconciled(c: Core, d: Core, src: Source, t: Task, now: Time)
    requires t.podName.Some? ==>
               AnswerFor(src, c.pods, t.id, t.podName.value) == AnswerFor(src, d.pods, t.id, t.podName.value)
    ensures ReconcileRow(c, src, t, now) == ReconcileRow(d, src, t, now)
  {
  }

  lemma TwinReconcile(w: World, v: World, src: Source, id: TaskId)
    requires Twins(w, v, id) && Inv(w)
    ensures SameAt(Reconcile(w.core, src, w.now), Reconcile(v.core, src, v.now), id)
  {
    if id in w.core.tasks {
      var t := w.core.tasks[id];
      assert TaskTied(w, t) && RowOk(id, t, w.now);
      if t.podName.Some? {
        assert Agree(w.core.pods, v.core.pods, t.podName.value);
      }
      SameRowReconciled(w.core, v.core, src, t, w.now);
      ReconciledAt(w.core, src, w.now, id);
      ReconciledAt(v.core, src, v.now, id);
    }
  }

  lemma ReconciledAt(c: Core, src: Source, now: Time, id: TaskId)
    requires id in c.tasks
    ensures id in Reconcile(c, src, now).tasks
            && Reconcile(c, src, now).tasks[id] == ReconcileRow(c, src, c.tasks[id], now)
  {
  }

  lemma SameFind(w: World, v: World, id: TaskId, url: string)
    requires Twins(w, v, id) && UniquePRs(w.core.tasks)
    ensures FindByPR(w.core.tasks, url) == FindByPR(v.core.tasks, url)
  {
    var a, b := PullRequests(w.core.tasks), PullRequests(v.core.tasks);
    assert forall k :: k in w.core.tasks <==> k in a;
    assert forall k :: k in v.core.tasks <==> k in b;
    var found := FindByPR(v.core.tasks, url);
    if found.Some? {
      assert a[found.value] == b[found.value];
      FindUnique(w.core.tasks, found.value, url);
    }
  }

  /** How a step changes which pull requests are reported. */
  function PullRequestsAfter(prs: map<TaskId, Option<string>>, step: Step): map<TaskId, Option<string>> {
    match step
    case CommissionStep(id, _, _, _, launch) => if launch == Refused then prs else prs[id := None]
    case ReportPRStep(id, url) =>
      if id in prs && !(exists k :: k in prs && k != id && prs[k] == Some(url)) then prs[id := Some(url)] else prs
    case _ => prs
  }

  lemma DispatchKeepsPullRequests(c: Core, id: TaskId, run: RunId, pod: PodName, launch: Launch, now: Time)
    ensures PullRequests(Dispatch(c, id, run, pod, launch, now).tasks) == PullRequests(c.tasks)
  {
  }

  lemma PassKeepsPullRequests(c: Core, now: Time, order: seq<TaskId>, src: Source)
    requires Distinct(order)
    ensures PullRequests(EvaluateAll(c, now, order, src).tasks) == PullRequests(c.tasks)
  {
    var answers := Arbitrary(Asked(c, now, order, src));
    PassIsArbitrary(c, now, order, src);
    var d := EvaluateAll(c, now, order, answers);
    forall id ensures Agree(PullRequests(d.tasks), PullRequests(c.tasks), id) {
      PassRow(c, now, order, answers, id);
    }
    MapsEqual(PullRequests(d.tasks), PullRequests(c.tasks));
  }

  lemma PullRequestsStep(w: World, step: Step)
    requires Enabled(w, step)
    ensures PullRequests(ApplyCore(w, step).tasks) == PullRequestsAfter(PullRequests(w.core.tasks), step)
  {
    match step
    case CommissionStep(id, budget, run, pod, launch) =>
      if launch != Refused {
        var c := w.core.(tasks := Insert(w.core.tasks, NewTask(id, budget, w.now), w.now));
        DispatchKeepsPullRequests(c, id, run, pod, launch, w.now);
      }
    case RespawnStep(url, run, pod, launch) =>
      if FindByPR(w.core.tasks, url).Some? {
        DispatchKeepsPullRequests(w.core, FindByPR(w.core.tasks, url).value, run, pod, launch, w.now);
      }
    case TickStep(order, src) => PassKeepsPullRequests(Discover(w.core, w.now), w.now, order, src);
    case ReportPRStep(id, url) => ReportedPullRequests(w.core.tasks, id, url);
    case _ =>
      assert PullRequests(ApplyCore(w, step).tasks) == PullRequests(w.core.tasks);
  }

  lemma ReportedPullRequests(tasks: Table, id: TaskId, url: string)
    ensures PullRequests(SetPR(tasks, id, url)) == PullRequestsAfter(PullRequests(tasks), ReportPRStep(id, url))
  {
    var prs := PullRequests(tasks);
    if BoundElsewhere(tasks, id, url) {
      var k :| k in tasks && k != id && tasks[k].prUrl == Some(url);
      assert k in prs && prs[k] == Some(url);
    }
  }

  lemma LogOnlyGrowsInTicks(w: World, step: Step)
    requires !step.TickStep?
    ensures ApplyCore(w, step).log == w.core.log
  {
  }

  lemma TwinCommission(w: World, v: World, id: TaskId, step: Step)
    requires step.CommissionStep? && SameAt(w.core, v.core, id) && w.now == v.now
    requires w.core.pods.Keys <= w.owner.Keys && v.core.pods.Keys <= v.owner.Keys
    requires Enabled(w, step) && Enabled(v, step)
    ensures SameAt(ApplyCore(w, step), ApplyCore(v, step), id)
  {
    var c := w.core.(tasks := Insert(w.core.tasks, NewTask(step.id, step.budget, w.now), w.now));
    var d := v.core.(tasks := Insert(v.core.tasks, NewTask(step.id, step.budget, v.now), v.now));
    assert SameAt(c, d, id);
    TwinDispatch(c, d, step.id, step.run, step.pod, step.launch, w.now, id);
  }

  lemma TwinRespawn(w: World, v: World, id: TaskId, step: Step)
    requires step.RespawnStep? && Twins(w, v, id) && Inv(w) && Inv(v) && Enabled(w, step) && Enabled(v, step)
    ensures SameAt(ApplyCore(w, step), ApplyCore(v, step), id)
  {
    SameFind(w, v, id, step.url);
    var found := FindByPR(w.core.tasks, step.url);
    if found == Some(id) {
      assert w.core.tasks[id] == v.core.tasks[id];
      TwinDispatch(w.core, v.core, id, step.run, step.pod, step.launch, w.now, id);
    } else if found.Some? {
      RespawnLeavesOthers(w.core, found.value, step.run, step.pod, step.launch, w.now, id);
      RespawnLeavesOthers(v.core, found.value, step.run, step.pod, step.launch, w.now, id);
    }
  }

  lemma RespawnLeavesOthers(c: Core, on: TaskId, run: RunId, pod: PodName, launch: Launch, now: Time, id: TaskId)
    requires id != on
    ensures SameAt(Respawn(c, on, run, pod, launch, now), c, id)
  {
  }

  lemma TwinClose(w: World, v: World, id: TaskId, url: string, merged: bool)
    requires Twins(w, v, id) && Inv(w)
    ensures SameAt(PullRequestClosed(w.core, url, merged, w.now), PullRequestClosed(v.core, url, merged, w.now), id)
  {
    SameFind(w, v, id, url);
    var found := FindByPR(w.core.tasks, url);
    if found.Some? {
      var target := if merged then Completed else Failed;
      assert found.value == id ==> w.core.tasks[id] == v.core.tasks[id];
      TwinTransition(w.core.tasks, v.core.tasks, found.value, target, w.now, id);
    }
  }

  lemma TwinTransition(a: Table, b: Table, on: TaskId, to: State, now: Time, id: TaskId)
    requires Agree(a, b, id)
    ensures Agree(Transition(a, on, to, now), Transition(b, on, to, now), id)
  {
  }

  lemma TwinHeartbeat(c: Core, d: Core, on: TaskId, now: Time, id: TaskId)
    requires SameAt(c, d, id)
    ensures SameAt(Heartbeat(c, on, now), Heartbeat(d, on, now), id)
  {
  }

  lemma TwinSweep(c: Core, d: Core, reminder: int, abandon: int, now: Time, id: TaskId)
    requires SameAt(c, d, id)
    ensures Agree(Sweep(c.tasks, reminder, abandon, now), Sweep(d.tasks, reminder, abandon, now), id)
  {
  }

  lemma TwinSameStep(w: World, v: World, id: TaskId, step: Step)
    requires Twins(w, v, id) && Inv(w) && Inv(v) && Enabled(w, step) && Enabled(v, step)
    requires !step.TickStep? && !step.CommissionStep? && !step.RespawnStep?
    ensures SameAt(ApplyCore(w, step), ApplyCore(v, step), id)
  {
    match step
    case CloseStep(url, merged) => TwinClose(w, v, id, url, merged);
    case HeartbeatStep(on) => TwinHeartbeat(w.core, v.core, on, w.now, id);
    case SweepStep(reminder, abandon) => TwinSweep(w.core, v.core, reminder, abandon, w.now, id);
    case RestartStep(src) => TwinRestart(w, v, src, id);
    case ReconcileStep(src) => TwinReconcile(w, v, src, id);
    case ReportPRStep(on, url) => TwinReport(w, v, id, on, url);
    case _ =>
  }

  lemma TwinReport(w: World, v: World, id: TaskId, on: TaskId, url: string)
    requires Twins(w, v, id)
    ensures Agree(SetPR(w.core.tasks, on, url), SetPR(v.core.tasks, on, url), id)
  {
    var a, b := PullRequests(w.core.tasks), PullRequests(v.core.tasks);
    forall k ensures k in w.core.tasks <==> k in v.core.tasks
             ensures k in w.core.tasks ==> w.core.tasks[k].prUrl == v.core.tasks[k].prUrl
    {
      assert k in a <==> k in b;
      assert k in a ==> a[k] == b[k];
    }
    assert BoundElsewhere(w.core.tasks, on, url) <==> BoundElsewhere(v.core.tasks, on, url);
  }

  lemma DispatchedPods(c: Core, id: TaskId, run: RunId, pod: PodName, launch: Launch, now: Time, p: PodName)
    requires pod !in c.pods
    ensures var pods := Dispatch(c, id, run, pod, launch, now).pods;
            if p == pod && launch == Launched then p in pods && pods[p] == PhasePending else Agree(pods, c.pods, p)
  {
  }

  lemma TwinPodCommissioned(w: World, v: World, id: TaskId, step: Step, p: PodName)
    requires step.CommissionStep? && Twins(w, v, id) && Inv(w) && Inv(v) && Enabled(w, step) && Enabled(v, step)
    requires var owner := Apply(w, step).owner; p in owner && owner[p] == id
    ensures Agree(ApplyCore(w, step).pods, ApplyCore(v, step).pods, p)
  {
    var c := w.core.(tasks := Insert(w.core.tasks, NewTask(step.id, step.budget, w.now), w.now));
    var d := v.core.(tasks := Insert(v.core.tasks, NewTask(step.id, step.budget, v.now), v.now));
    assert p in w.owner ==> Agree(w.core.pods, v.core.pods, p);
    DispatchedPods(c, step.id, step.run, step.pod, step.launch, w.now, p);
    DispatchedPods(d, step.id, step.run, step.pod, step.launch, v.now, p);
  }

  lemma TwinPodRespawned(w: World, v: World, id: TaskId, step: Step, p: PodName)
    requires step.RespawnStep? && Twins(w, v, id) && Inv(w) && Inv(v) && Enabled(w, step) && Enabled(v, step)
    requires var owner := Apply(w, step).owner; p in owner && owner[p] == id
    ensures Agree(ApplyCore(w, step).pods, ApplyCore(v, step).pods, p)
  {
    SameFind(w, v, id, step.url);
    var found := FindByPR(w.core.tasks, step.url);
    assert p in w.owner ==> Agree(w.core.pods, v.core.pods, p);
    if found.Some? {
      assert found.value == id ==> w.core.tasks[id] == v.core.tasks[id];
      DispatchedPods(w.core, found.value, step.run, step.pod, step.launch, w.now, p);
      DispatchedPods(v.core, found.value, step.run, step.pod, step.launch, v.now, p);
    }
  }

  lemma QuietPods(w: World, step: Step, p: PodName)
    requires !step.TickStep? && !step.CommissionStep? && !step.RespawnStep? && !step.PodStep?
    ensures ApplyCore(w, step).pods == w.core.pods
  {
  }

  /** The pods of a task after a step that is no tick. */
  lemma TwinPods(w: World, v: World, id: TaskId, step: Step)
    requires Twins(w, v, id) && Inv(w) && Inv(v) && Enabled(w, step) && Enabled(v, step) && !step.TickStep?
    ensures SamePods(Apply(w, step).owner, ApplyCore(w, step), ApplyCore(v, step), id)
  {
    var owner := Apply(w, step).owner;
    forall p | p in owner && owner[p] == id ensures Agree(ApplyCore(w, step).pods, ApplyCore(v, step).pods, p) {
      if step.CommissionStep? {
        TwinPodCommissioned(w, v, id, step, p);
      } else if step.RespawnStep? {
        TwinPodRespawned(w, v, id, step, p);
      } else {
        assert owner == w.owner && Agree(w.core.pods, v.core.pods, p);
        if !step.PodStep? {
          QuietPods(w, step, p);
          QuietPods(v, step, p);
        }
      }
    }
  }

  lemma TwinOwners(w: World, v: World, id: TaskId, step: Step)
    requires Twins(w, v, id) && UniquePRs(w.core.tasks)
    ensures Apply(w, step).owner == Apply(v, step).owner
  {
    if step.RespawnStep? {
      SameFind(w, v, id, step.url);
    }
  }

  /** The same operation; a tick visits its pods in any order, as Go's map iteration does. */
  predicate SameOperation(step: Step, other: Step) {
    other == step || (step.TickStep? && other.TickStep? && other.src == step.src)
  }

  predicate SameOperations(steps: seq<Step>, others: seq<Step>) {
    |others| == |steps| && forall i :: 0 <= i < |steps| ==> SameOperation(steps[i], others[i])
  }

  /** One step keeps twins twins, and adds the same events about the task to both logs. */
  lemma TwinStep(w: World, v: World, id: TaskId, step: Step)
    requires Twins(w, v, id) && Inv(w) && Inv(v) && Enabled(w, step) && Enabled(v, step) && !step.TickStep?
    ensures Twins(Apply(w, step), Apply(v, step), id)
  {
    PullRequestsStep(w, step);
    PullRequestsStep(v, step);
    TwinOwners(w, v, id, step);
    TwinPods(w, v, id, step);
    LogOnlyGrowsInTicks(w, step);
    LogOnlyGrowsInTicks(v, step);
    if step.CommissionStep? {
      TwinCommission(w, v, id, step);
    } else if step.RespawnStep? {
      TwinRespawn(w, v, id, step);
    } else {
      TwinSameStep(w, v, id, step);
    }
  }

  lemma TwinOperation(w: World, v: World, id: TaskId, step: Step, other: Step)
    requires Twins(w, v, id) && Inv(w) && Inv(v) && Enabled(w, step) && Enabled(v, other)
    requires SameOperation(step, other)
    ensures Twins(Apply(w, step), Apply(v, other), id)
  {
    if step.TickStep? {
      PullRequestsStep(w, step);
      PullRequestsStep(v, other);
      TwinTick(w, v, step.order, other.order, step.src, id);
    } else {
      TwinStep(w, v, id, step);
    }
  }

  lemma RestSame(steps: seq<Step>, others: seq<Step>)
    requires SameOperations(steps, others) && steps != []
    ensures SameOperation(steps[0], others[0]) && SameOperations(steps[1..], others[1..])
  {
  }

  /** Twins stay twins through the same operations, whatever orders the ticks of either happen to visit the pods in. */
  lemma {:induction false} TwinRuns(w: World, v: World, id: TaskId, steps: seq<Step>, others: seq<Step>)
    requires Twins(w, v, id) && Inv(w) && Inv(v) && EnabledAll(w, steps) && EnabledAll(v, others)
    requires SameOperations(steps, others)
    ensures Twins(Run(w, steps), Run(v, others), id)
    decreases |steps|
  {
    if steps != [] {
      RestSame(steps, others);
      TwinOperation(w, v, id, steps[0], others[0]);
      StepInv(w, steps[0]);
      StepInv(v, others[0]);
      TwinRuns(Apply(w, steps[0]), Apply(v, others[0]), id, steps[1..], others[1..]);
    }
  }

  /**
   Crash transparency. A crash between operations and the restart that follows are invisible to every task whose entry
   the restart does not drop: after any later run, whether the dispatcher answers from the live pod set or at will, and
   whatever orders the ticks of either process visit the pods in, its row, its entry, its pods and every warning,
   escalation and termination Argus ever recorded for it are the ones of the run without the crash.
   */
  lemma CrashIsTransparent(w: World, src: Source, id: TaskId, steps: seq<Step>, others: seq<Step>)
    requires Inv(w) && !Dropped(w.core, id, src) && SameOperations(steps, others)
    requires EnabledAll(w, steps) && EnabledAll(Apply(w, RestartStep(src)), others)
    ensures Twins(Run(w, steps), Run(Apply(w, RestartStep(src)), others), id)
  {
    var v := Apply(w, RestartStep(src));
    StepInv(w, RestartStep(src));
    RestartLosesOnlyDropped(w, src, id);
    assert Twins(w, v, id);
    TwinRuns(w, v, id, steps, others);
  }
}
