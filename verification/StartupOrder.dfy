/**
 Startup order: at one instant, Reconcile followed by a pass of Argus and the pass followed by Reconcile leave the same
 tasks, pods and tracked pods, whichever orders the passes visit the pods in.
 */
module StartupOrder {
  import opened Options
  import opened Tasks
  import opened ArgusRules
  import opened Supervision
  import opened Runs
  import opened Invariants
  import opened TaskHistory
  import opened Agreement

  /** Tracked pods have pairwise different names. */
  ghost predicate OwnPods(tracked: map<TaskId, Entry>) {
    forall a, b :: a in tracked && b in tracked && tracked[a].podName == tracked[b].podName ==> a == b
  }

  /** Every running task is tracked under its own pod. */
  ghost predicate RunningTracked(c: Core) {
    forall id :: id in c.tasks && c.tasks[id].state == Running ==>
      id in c.tracked && c.tracked[id].podName != "" && c.tasks[id].podName == Some(c.tracked[id].podName)
  }

  /** The dispatcher's answers about the tracked pods as they stand before a pass. */
  function Snapshot(c: Core, down: set<PodName>): map<TaskId, Answer> {
    map id | id in c.tracked :: AnswerFor(FromPods(down), c.pods, id, c.tracked[id].podName)
  }

  /** The fixed answers tell what the pod set says about the pods still to be visited. */
  ghost predicate Foretells(c: Core, order: seq<TaskId>, down: set<PodName>, answers: map<TaskId, Answer>) {
    forall id :: id in order && id in c.tracked ==>
      id in answers && answers[id] == AnswerFor(FromPods(down), c.pods, id, c.tracked[id].podName)
  }

  lemma OneVisitKeepsForetelling(c: Core, now: Time, order: seq<TaskId>, down: set<PodName>, answers: map<TaskId,
          Answer>)
    requires Distinct(order) && order != [] && OwnPods(c.tracked) && Foretells(c, order, down, answers)
    ensures EvaluateOne(c, now, order[0], FromPods(down)) == EvaluateOne(c, now, order[0], Arbitrary(answers))
    ensures var d := EvaluateOne(c, now, order[0], FromPods(down));
            OwnPods(d.tracked) && Foretells(d, order[1..], down, answers)
  {
    var head, rest := order[0], order[1..];
    TailDistinct(order);
    assert head in order;
    var d := EvaluateOne(c, now, head, FromPods(down));
    assert EvaluateOne(c, now, head, FromPods(down)) == EvaluateOne(c, now, head, Arbitrary(answers));
    forall id | id in d.tracked ensures id in c.tracked && d.tracked[id].podName == c.tracked[id].podName {
    }
    forall id | id in rest && id in d.tracked
      ensures id in answers && answers[id] == AnswerFor(FromPods(down), d.pods, id, d.tracked[id].podName)
    {
      assert id in order && id != head;
    }
  }

  /** While pods are distinct, deleting one cannot change what the dispatcher says about another. */
  lemma {:induction false} PassSeesSnapshot(c: Core, now: Time, order: seq<TaskId>, down: set<PodName>,
          answers: map<TaskId, Answer>)
    requires Distinct(order) && OwnPods(c.tracked) && Foretells(c, order, down, answers)
    ensures EvaluateAll(c, now, order, FromPods(down)) == EvaluateAll(c, now, order, Arbitrary(answers))
    decreases |order|
  {
    if order != [] {
      OneVisitKeepsForetelling(c, now, order, down, answers);
      PassSeesSnapshot(EvaluateOne(c, now, order[0], FromPods(down)), now, order[1..], down, answers);
    }
  }

  /** The answers a pass over distinct pods is going to receive. */
  function Foreseen(c: Core, src: Source): map<TaskId, Answer> {
    match src
    case Arbitrary(answers) => answers
    case FromPods(down) => Snapshot(c, down)
  }

  lemma PassForeseen(c: Core, now: Time, order: seq<TaskId>, src: Source)
    requires Distinct(order) && OwnPods(c.tracked)
    ensures EvaluateAll(c, now, order, src) == EvaluateAll(c, now, order, Arbitrary(Foreseen(c, src)))
    ensures forall id :: id in c.tracked ==>
              AnswerFor(Arbitrary(Foreseen(c, src)), c.pods, id, c.tracked[id].podName) ==
                  AnswerFor(src, c.pods, id, c.tracked[id].podName)
  {
    if src.FromPods? {
      PassSeesSnapshot(c, now, order, src.down, Snapshot(c, src.down));
    }
  }

  lemma TrackedPodsAreOwn(w: World)
    requires Inv(w)
    ensures OwnPods(Discover(w.core, w.now).tracked)
  {
    var c := Discover(w.core, w.now);
    forall a, b | a in c.tracked && b in c.tracked && c.tracked[a].podName == c.tracked[b].podName ensures a == b {
      DiscoverTied(w, a);
      DiscoverTied(w, b);
    }
  }

  /** What a visit makes of a row depends on the entry and the answer only through the verdict. */
  lemma VisitRow(c: Core, now: Time, id: TaskId, src: Source)
    requires id in c.tasks
    ensures var v := VerdictFor(c, now, id, src);
            var d := EvaluateOne(c, now, id, src);
            id in d.tasks && d.tasks[id] == if Final(v) && ValidTransition(c.tasks[id].state, FinalState(v))
                                            then Moved(c.tasks[id], FinalState(v), now) else c.tasks[id]
  {
  }

  /** Reconcile looks only at the pod set, which a pass changes for finished runs alone. */
  lemma OwnPodSurvives(c: Core, now: Time, order: seq<TaskId>, src: Source, id: TaskId)
    requires src.Arbitrary? && IsOrder(order, c.tracked.Keys) && OwnPods(c.tracked)
    requires id in c.tracked && !Final(VerdictFor(c, now, id, src))
    ensures var p := c.tracked[id].podName; Agree(EvaluateAll(c, now, order, src).pods, c.pods, p)
  {
    EvaluateAllPods(c, now, order, src);
  }

  /** A row after the verdict of a visit. */
  function Judged(t: Task, v: Verdict, now: Time): Task {
    if Final(v) && ValidTransition(t.state, FinalState(v)) then Moved(t, FinalState(v), now) else t
  }

  lemma PassJudges(c: Core, now: Time, order: seq<TaskId>, src: Source, id: TaskId)
    requires src.Arbitrary? && IsOrder(order, c.tracked.Keys) && id in c.tasks
    ensures var d := EvaluateAll(c, now, order, src);
            id in d.tasks && d.tasks[id] == Judged(c.tasks[id], VerdictFor(c, now, id, src), now)
  {
    EvaluateAllAt(c, now, order, src, id);
    VisitRow(c, now, id, src);
    assert id !in order ==> id !in c.tracked;
  }

  lemma RowCommutes(c: Core, e: Core, now: Time, src: Source, fixed: Source, id: TaskId)
    requires RunningTracked(c) && id in c.tasks && c.tasks[id].id == id
    requires id in c.tracked ==>
               AnswerFor(fixed, c.pods, id, c.tracked[id].podName) == AnswerFor(src, c.pods, id, c.tracked[id].podName)
    requires id in e.tasks && e.tasks[id] == Judged(c.tasks[id], VerdictFor(c, now, id, fixed), now)
    requires id in c.tracked && !Final(VerdictFor(c, now, id, fixed)) ==>
             Agree(e.pods, c.pods, c.tracked[id].podName)
    ensures ReconcileRow(e, src, e.tasks[id], now) ==
            Judged(ReconcileRow(c, src, c.tasks[id], now), VerdictFor(c, now, id, fixed), now)
  {
  }

  lemma RowsCommute(c: Core, now: Time, order: seq<TaskId>, other: seq<TaskId>, src: Source, id: TaskId)
    requires IsOrder(order, c.tracked.Keys) && IsOrder(other, c.tracked.Keys)
    requires OwnPods(c.tracked) && RunningTracked(c) && (id in c.tasks ==> c.tasks[id].id == id)
    ensures var fixed := Arbitrary(Foreseen(c, src));
            var e := EvaluateAll(c, now, order, fixed);
            var r := Reconcile(c, src, now);
            Agree(Reconcile(e, src, now).tasks, EvaluateAll(r, now, other, fixed).tasks, id)
  {
    var fixed := Arbitrary(Foreseen(c, src));
    var r := Reconcile(c, src, now);
    var e := EvaluateAll(c, now, order, fixed);
    PassRow(c, now, order, fixed, id);
    PassRow(r, now, other, fixed, id);
    if id in c.tasks {
      PassJudges(c, now, order, fixed, id);
      PassJudges(r, now, other, fixed, id);
      assert VerdictFor(r, now, id, fixed) == VerdictFor(c, now, id, fixed);
      if id in c.tracked && !Final(VerdictFor(c, now, id, fixed)) {
        OwnPodSurvives(c, now, order, fixed, id);
      }
      RowCommutes(c, e, now, src, fixed, id);
    }
  }

  /** Two cores that differ in their tasks alone stay that way through a pass over fixed answers. */
  lemma EntriesCommute(c: Core, r: Core, now: Time, order: seq<TaskId>, other: seq<TaskId>, src: Source, id: TaskId)
    requires src.Arbitrary? && IsOrder(order, c.tracked.Keys) && IsOrder(other, c.tracked.Keys)
    requires r == c.(tasks := r.tasks)
    ensures Agree(EvaluateAll(c, now, order, src).tracked, EvaluateAll(r, now, other, src).tracked, id)
    ensures Agree(EvaluateAll(c, now, order, src).persisted, EvaluateAll(r, now, other, src).persisted, id)
  {
    EvaluateAllAt(c, now, order, src, id);
    EvaluateAllAt(r, now, other, src, id);
    assert VerdictFor(r, now, id, src) == VerdictFor(c, now, id, src);
    assert id !in order ==> id !in c.tracked;
    assert id !in other ==> id !in c.tracked;
  }

  lemma PodsCommute(c: Core, r: Core, now: Time, order: seq<TaskId>, other: seq<TaskId>, src: Source, pod: PodName)
    requires src.Arbitrary? && IsOrder(order, c.tracked.Keys) && IsOrder(other, c.tracked.Keys)
    requires r == c.(tasks := r.tasks)
    ensures Agree(EvaluateAll(c, now, order, src).pods, EvaluateAll(r, now, other, src).pods, pod)
  {
    EvaluateAllPods(c, now, order, src);
    EvaluateAllPods(r, now, other, src);
    assert forall id :: VerdictFor(r, now, id, src) == VerdictFor(c, now, id, src);
    if pod in c.pods {
      if id :| id in order && Final(VerdictFor(c, now, id, src)) && c.tracked[id].podName == pod {
        assert id in c.tracked && id in other;
      }
      if id :| id in other && Final(VerdictFor(r, now, id, src)) && r.tracked[id].podName == pod {
        assert id in c.tracked && id in order;
      }
    }
  }

  /**
   Startup order does not matter. From every state in which each running task is tracked under its own distinct pod,
   whether the dispatcher tells of every pod as it stands, some pods being out of reach, or answers at will but the same
   to both, and for any two visiting orders, the two startups end in the same tasks, pods and tracked pods.
   */
  lemma StartupOrderIrrelevant(c: Core, now: Time, order: seq<TaskId>, other: seq<TaskId>, src: Source)
    requires OwnPods(c.tracked) && RunningTracked(c) && (forall id :: id in c.tasks ==> c.tasks[id].id == id)
    requires IsOrder(order, c.tracked.Keys) && IsOrder(other, c.tracked.Keys)
    ensures var evaluatedFirst := Reconcile(EvaluateAll(c, now, order, src), src, now);
            var reconciledFirst := EvaluateAll(Reconcile(c, src, now), now, other, src);
            && evaluatedFirst.tasks == reconciledFirst.tasks
            && evaluatedFirst.pods == reconciledFirst.pods
            && evaluatedFirst.tracked == reconciledFirst.tracked
            && evaluatedFirst.persisted == reconciledFirst.persisted
  {
    var fixed := Arbitrary(Foreseen(c, src));
    var r := Reconcile(c, src, now);
    PassForeseen(c, now, order, src);
    PassForeseen(r, now, other, src);
    assert Foreseen(r, src) == Foreseen(c, src);
    var e := EvaluateAll(c, now, order, fixed);
    var d := EvaluateAll(r, now, other, fixed);
    forall id ensures Agree(Reconcile(e, src, now).tasks, d.tasks, id)
                   && Agree(e.tracked, d.tracked, id) && Agree(e.persisted, d.persisted, id)
    {
      RowsCommute(c, now, order, other, src, id);
      EntriesCommute(c, r, now, order, other, fixed, id);
    }
    forall pod ensures Agree(e.pods, d.pods, pod) {
      PodsCommute(c, r, now, order, other, fixed, pod);
    }
    MapsEqual(Reconcile(e, src, now).tasks, d.tasks);
    MapsEqual(e.tracked, d.tracked);
    MapsEqual(e.persisted, d.persisted);
    MapsEqual(e.pods, d.pods);
  }

  /** Every reachable agreeing state qualifies once Argus has discovered the running tasks. */
  lemma AgreeingStatesQualify(w: World)
    requires Inv(w) && Agrees(w)
    ensures var c := Discover(w.core, w.now);
            OwnPods(c.tracked) && RunningTracked(c) && forall id :: id in c.tasks ==> c.tasks[id].id == id
  {
    var c := Discover(w.core, w.now);
    TrackedPodsAreOwn(w);
    forall id | id in c.tasks && c.tasks[id].state == Running
      ensures id in c.tracked && c.tracked[id].podName != "" && c.tasks[id].podName == Some(c.tracked[id].podName)
    {
      assert RowOk(id, c.tasks[id], w.now) && TaskTied(w, c.tasks[id]);
      DiscoverMirrors(w, id);
    }
    assert forall id :: id in c.tasks ==> RowOk(id, c.tasks[id], w.now);
  }
}
