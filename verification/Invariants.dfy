/**
 Every reachable state of the supervision protocol is in order, and every step reaches the task table only through
 store calls that keep to the callers' discipline.
 */
module Invariants {
  import opened Options
  import opened Tasks
  import opened TaskHistory
  import opened ArgusRules
  import opened Supervision
  import opened Runs

  predicate Agree<K, V(==)>(m: map<K, V>, n: map<K, V>, k: K) {
    (k in m <==> k in n) && (k in m ==> m[k] == n[k])
  }

  /** Two cores agree on everything that concerns one task. */
  predicate SameAt(c: Core, d: Core, id: TaskId) {
    && c.cfg == d.cfg
    && Agree(c.tasks, d.tasks, id)
    && Agree(c.tracked, d.tracked, id)
    && Agree(c.persisted, d.persisted, id)
  }

  function EventsOf(log: seq<Event>, id: TaskId): seq<Event> {
    if log == [] then []
    else EventsOf(log[..|log| - 1], id) + (if log[|log| - 1].task == id then [log[|log| - 1]] else [])
  }

  lemma EventsOfAppended(log: seq<Event>, e: Event, id: TaskId)
    ensures EventsOf(log + [e], id) == EventsOf(log, id) + (if e.task == id then [e] else [])
  {
    assert (log + [e])[..|log|] == log;
  }

  lemma EvaluateOneElsewhere(c: Core, now: Time, id: TaskId, src: Source, other: TaskId)
    requires other != id
    ensures SameAt(EvaluateOne(c, now, id, src), c, other)
    ensures EventsOf(EvaluateOne(c, now, id, src).log, other) == EventsOf(c.log, other)
  {
    var v := VerdictFor(c, now, id, src);
    if v != LeaveAlone {
      EventsOfAppended(c.log, EventFor(c.tracked[id], id, v, now), other);
    }
  }

  /** A task's visit depends on nothing but that task's own row, entry and answer. */
  lemma EvaluateOneLocal(c: Core, d: Core, now: Time, id: TaskId, src: Source)
    requires src.Arbitrary? && SameAt(c, d, id) && EventsOf(c.log, id) == EventsOf(d.log, id)
    ensures SameAt(EvaluateOne(c, now, id, src), EvaluateOne(d, now, id, src), id)
    ensures EventsOf(EvaluateOne(c, now, id, src).log, id) == EventsOf(EvaluateOne(d, now, id, src).log, id)
  {
    var v := VerdictFor(c, now, id, src);
    if id !in c.tracked {
      assert id !in d.tracked;
    } else {
      assert id in d.tracked && c.tracked[id] == d.tracked[id];
      assert v == VerdictFor(d, now, id, src);
      var e := EventFor(c.tracked[id], id, v, now);
      EventsOfAppended(c.log, e, id);
      EventsOfAppended(d.log, e, id);
      if Final(v) {
        FinishLocal(c, d, id, v, now);
      } else if v != LeaveAlone {
        assert SameAt(Notify(c, id, v, now), Notify(d, id, v, now), id);
      }
    }
  }

  lemma FinishLocal(c: Core, d: Core, id: TaskId, v: Verdict, now: Time)
    requires SameAt(c, d, id) && id in c.tracked && id in d.tracked && Final(v)
    ensures SameAt(Finish(c, id, v, now), Finish(d, id, v, now), id)
  {
    assert id in c.tasks <==> id in d.tasks;
    assert id in c.tasks ==> c.tasks[id] == d.tasks[id];
  }

  /** Seen from one task, a whole pass is the one visit to that task, whatever the order of the pass. */
  lemma {:induction false} EvaluateAllAt(c: Core, now: Time, order: seq<TaskId>, src: Source, id: TaskId)
    requires src.Arbitrary? && Distinct(order)
    ensures var one := if id in order then EvaluateOne(c, now, id, src) else c;
            && SameAt(EvaluateAll(c, now, order, src), one, id)
            && EventsOf(EvaluateAll(c, now, order, src).log, id) == EventsOf(one.log, id)
    decreases |order|
  {
    if order != [] {
      var head, rest := order[0], order[1..];
      var next := EvaluateOne(c, now, head, src);
      TailDistinct(order);
      EvaluateAllAt(next, now, rest, src, id);
      if id != head {
        EvaluateOneElsewhere(c, now, head, src, id);
        EvaluateOneLocal(next, c, now, id, src);
      }
    }
  }

  /** The pods a pass deletes are those of the entries it finished; everything else about pods is left alone. */
  lemma {:induction false} EvaluateAllPods(c: Core, now: Time, order: seq<TaskId>, src: Source)
    requires src.Arbitrary? && Distinct(order)
    ensures forall p :: p in EvaluateAll(c, now, order, src).pods ==>
            p in c.pods && EvaluateAll(c, now, order, src).pods[p] == c.pods[p]
    ensures forall p :: p in c.pods ==>
              (p !in EvaluateAll(c, now, order, src).pods <==>
               exists id :: id in order && Final(VerdictFor(c, now, id, src)) && c.tracked[id].podName == p)
    decreases |order|
  {
    if order != [] {
      var head, rest := order[0], order[1..];
      var next := EvaluateOne(c, now, head, src);
      assert order == [head] + rest;
      TailDistinct(order);
      EvaluateAllPods(next, now, rest, src);
      forall id | id in rest ensures VerdictFor(next, now, id, src) == VerdictFor(c, now, id, src)
                                   && Agree(next.tracked, c.tracked, id)
      {
        EvaluateOneElsewhere(c, now, head, src, id);
      }
      forall p | p in c.pods
        ensures p !in EvaluateAll(c, now, order, src).pods <==>
                exists id :: id in order && Final(VerdictFor(c, now, id, src)) && c.tracked[id].podName == p
      {
        if p in next.pods {
          assert !(Final(VerdictFor(c, now, head, src)) && c.tracked[head].podName == p);
          if p !in EvaluateAll(c, now, order, src).pods {
            var id :| id in rest && Final(VerdictFor(next, now, id, src)) && next.tracked[id].podName == p;
            assert Agree(next.tracked, c.tracked, id);
          }
          if id :| id in order && Final(VerdictFor(c, now, id, src)) && c.tracked[id].podName == p {
            assert id in rest && Agree(next.tracked, c.tracked, id);
          }
        } else {
          assert head in order && Final(VerdictFor(c, now, head, src)) && c.tracked[head].podName == p;
        }
      }
    }
  }

  // ---- Every pass is a pass over some fixed answers ----

  /** The answers a pass receives, one per visited task. */
  function Asked(c: Core, now: Time, order: seq<TaskId>, src: Source): map<TaskId, Answer>
    decreases |order|
  {
    if order == [] then map[]
    else
      var head := order[0];
      var rest := Asked(EvaluateOne(c, now, head, src), now, order[1..], src);
      if head in c.tracked then rest[head := AnswerFor(src, c.pods, head, c.tracked[head].podName)] else rest
  }

  lemma TailDistinct(order: seq<TaskId>)
    requires Distinct(order) && order != []
    ensures Distinct(order[1..]) && order[0] !in order[1..]
  {
    var rest := order[1..];
    forall i, j | 0 <= i < j < |rest| ensures rest[i] != rest[j] {
      assert order[i + 1] != order[j + 1];
    }
    forall i | 0 <= i < |rest| ensures rest[i] != order[0] {
      assert order[i + 1] != order[0];
    }
  }

  /** An order in which a pass may visit these tasks. */
  lemma OrderOf(ids: set<TaskId>) returns (order: seq<TaskId>)
    ensures Distinct(order) && forall id :: id in order <==> id in ids
  {
    order := [];
    var rest := ids;
    while rest != {}
      invariant rest <= ids && Distinct(order) && forall id :: id in order <==> id in ids && id !in rest
      decreases |rest|
    {
      var id :| id in rest;
      rest := rest - {id};
      order := order + [id];
    }
  }

  lemma {:induction false} SameAnswersSamePass(c: Core, now: Time, order: seq<TaskId>, a: map<TaskId, Answer>,
          b: map<TaskId, Answer>)
    requires forall id :: id in order ==> Agree(a, b, id)
    ensures EvaluateAll(c, now, order, Arbitrary(a)) == EvaluateAll(c, now, order, Arbitrary(b))
    decreases |order|
  {
    if order != [] {
      assert Agree(a, b, order[0]);
      SameAnswersSamePass(EvaluateOne(c, now, order[0], Arbitrary(a)), now, order[1..], a, b);
    }
  }

  /** Whatever the dispatcher answers while a pass runs, the pass is the one over those answers fixed in advance. */
  lemma {:induction false} PassIsArbitrary(c: Core, now: Time, order: seq<TaskId>, src: Source)
    requires Distinct(order)
    ensures EvaluateAll(c, now, order, src) == EvaluateAll(c, now, order, Arbitrary(Asked(c, now, order, src)))
    decreases |order|
  {
    if order != [] {
      var head, rest := order[0], order[1..];
      TailDistinct(order);
      var next := EvaluateOne(c, now, head, src);
      var all := Asked(c, now, order, src);
      assert EvaluateOne(c, now, head, Arbitrary(all)) == next;
      PassIsArbitrary(next, now, rest, src);
      SameAnswersSamePass(next, now, rest, Asked(next, now, rest, src), all);
    }
  }

  // ---- Steps reach the table only through store calls ----

  /** A row after at most one store call that does not start a run. */
  predicate ByOneCall(t: Task, u: Task, now: Time) {
    || u == t
    || u == t.(remindedAt := Some(now))
    || (ValidTransition(t.state, u.state) && u.state != Running && u == Moved(t, u.state, now))
  }

  ghost predicate AllAt(calls: seq<Timed>, now: Time) {
    forall i :: 0 <= i < |calls| ==> calls[i].at == now
  }

  lemma {:induction false} RowsByCalls(tasks: Table, after: Table, ids: set<TaskId>, now: Time)
    returns (calls: seq<Timed>)
    requires tasks.Keys == after.Keys && ids <= tasks.Keys
    requires forall id :: id in tasks ==> tasks[id].id == id
    requires forall id :: id in tasks && id !in ids ==> after[id] == tasks[id]
    requires forall id :: id in ids ==> ByOneCall(tasks[id], after[id], now)
    ensures AllAt(calls, now) && DisciplinedAll(tasks, calls) && ExecAll(tasks, calls) == after
    decreases |ids|
  {
    if ids == {} {
      calls := [];
      assert after == tasks;
    } else {
      var id :| id in ids;
      var call := if after[id].state != tasks[id].state then TransitionCall(id, after[id].state) else RemindCall(id);
      var first := if after[id] == tasks[id] then [] else [Timed(now, call)];
      var next := tasks[id := after[id]];
      assert after[id] != tasks[id] ==> Exec(tasks, call, now) == next;
      assert after[id] == tasks[id] ==> next == tasks;
      var rest := RowsByCalls(next, after, ids - {id}, now);
      calls := first + rest;
      if first != [] {
        assert calls[1..] == rest;
      } else {
        assert calls == rest;
      }
    }
  }

  lemma OneCall(tasks: Table, call: Call, now: Time) returns (calls: seq<Timed>)
    requires Disciplined(tasks, call, now)
    ensures AllAt(calls, now) && DisciplinedAll(tasks, calls) && ExecAll(tasks, calls) == Exec(tasks, call, now)
  {
    calls := [Timed(now, call)];
    assert calls[1..] == [];
  }

  lemma Prefixed(tasks: Table, call: Call, rest: seq<Timed>, now: Time) returns (calls: seq<Timed>)
    requires Disciplined(tasks, call, now) && AllAt(rest, now) && DisciplinedAll(Exec(tasks, call, now), rest)
    ensures AllAt(calls, now) && DisciplinedAll(tasks, calls)
    ensures ExecAll(tasks, calls) == ExecAll(Exec(tasks, call, now), rest)
  {
    calls := [Timed(now, call)] + rest;
    assert calls[1..] == rest;
  }

  lemma DispatchIsCalls(c: Core, id: TaskId, run: RunId, pod: PodName, launch: Launch, now: Time)
    returns (calls: seq<Timed>)
    requires id in c.tasks
    ensures AllAt(calls, now) && DisciplinedAll(c.tasks, calls)
    ensures ExecAll(c.tasks, calls) == Dispatch(c, id, run, pod, launch, now).tasks
  {
    if launch == Refused {
      calls := [];
    } else if launch == Launched && pod !in c.pods {
      var named := SetRun(c.tasks, id, run, pod);
      calls := OneCall(named, TransitionCall(id, Running), now);
      calls := Prefixed(c.tasks, SetRunCall(id, run, pod), calls, now);
    } else {
      calls := OneCall(c.tasks, TransitionCall(id, Failed), now);
    }
  }

  /** Steps that start no run leave every row's names alone. */
  predicate SameNames(t: Task, u: Task) {
    u.id == t.id && u.budget == t.budget && u.podName == t.podName && u.runId == t.runId
  }

  /** What a pass does to one row. */
  lemma PassRow(c: Core, now: Time, order: seq<TaskId>, src: Source, id: TaskId)
    requires src.Arbitrary? && Distinct(order)
    ensures id in c.tasks <==> id in EvaluateAll(c, now, order, src).tasks
    ensures id in c.tasks ==> ByOneCall(c.tasks[id], EvaluateAll(c, now, order, src).tasks[id], now)
    ensures id in c.tasks ==> SameNames(c.tasks[id], EvaluateAll(c, now, order, src).tasks[id])
  {
    EvaluateAllAt(c, now, order, src, id);
    var one := EvaluateOne(c, now, id, src).tasks;
    var v := VerdictFor(c, now, id, src);
    if Final(v) {
      assert one == Transition(c.tasks, id, FinalState(v), now);
    } else {
      assert one == c.tasks;
    }
  }

  lemma PassIsCalls(c: Core, now: Time, order: seq<TaskId>, src: Source) returns (calls: seq<Timed>)
    requires Distinct(order) && forall id :: id in c.tasks ==> c.tasks[id].id == id
    ensures AllAt(calls, now) && DisciplinedAll(c.tasks, calls)
    ensures ExecAll(c.tasks, calls) == EvaluateAll(c, now, order, src).tasks
  {
    var answers := Arbitrary(Asked(c, now, order, src));
    PassIsArbitrary(c, now, order, src);
    var after := EvaluateAll(c, now, order, answers).tasks;
    forall id ensures id in c.tasks <==> id in after
              ensures id in c.tasks ==> ByOneCall(c.tasks[id], after[id], now)
    {
      PassRow(c, now, order, answers, id);
    }
    calls := RowsByCalls(c.tasks, after, c.tasks.Keys, now);
  }

  /**
   Minos, Argus, the webhooks and the sweeper change the task table only through store calls that keep to the
   discipline, all made at the step's own instant.
   */
  lemma StepIsCalls(w: World, step: Step) returns (calls: seq<Timed>)
    requires Enabled(w, step) && forall id :: id in w.core.tasks ==> w.core.tasks[id].id == id
    ensures AllAt(calls, w.now) && DisciplinedAll(w.core.tasks, calls)
    ensures ExecAll(w.core.tasks, calls) == Apply(w, step).core.tasks
  {
    var tasks := w.core.tasks;
    match step
    case CommissionStep(id, budget, run, pod, launch) =>
      if launch == Refused {
        calls := [];
      } else {
        var inserted := w.core.(tasks := Insert(tasks, NewTask(id, budget, w.now), w.now));
        calls := DispatchIsCalls(inserted, id, run, pod, launch, w.now);
        calls := Prefixed(tasks, InsertCall(NewTask(id, budget, w.now)), calls, w.now);
      }
    case RespawnStep(url, run, pod, launch) =>
      match FindByPR(tasks, url) {
        case None => calls := [];
        case Some(id) =>
          if tasks[id].state == AwaitingReview && tasks[id].budget.Some? {
            calls := DispatchIsCalls(w.core, id, run, pod, launch, w.now);
          } else {
            calls := [];
          }
      }
    case CloseStep(url, merged) =>
      match FindByPR(tasks, url) {
        case None => calls := [];
        case Some(id) => calls := OneCall(tasks, TransitionCall(id, if merged then Completed else Failed), w.now);
      }
    case ReportPRStep(id, url) => calls := OneCall(tasks, SetPRCall(id, url), w.now);
    case TickStep(order, src) => calls := PassIsCalls(Discover(w.core, w.now), w.now, order, src);
    case ReconcileStep(src) =>
      calls := RowsByCalls(tasks, Reconcile(w.core, src, w.now).tasks, tasks.Keys, w.now);
    case SweepStep(reminder, abandon) =>
      calls := RowsByCalls(tasks, Sweep(tasks, reminder, abandon, w.now), tasks.Keys, w.now);
    case _ => calls := [];
  }

  lemma {:induction false} CallsAtNow(calls: seq<Timed>, from: Time, now: Time)
    requires AllAt(calls, now) && from <= now
    ensures Monotone(from, calls) && LastTime(from, calls) <= now
    ensures LastTime(from, calls) == from || LastTime(from, calls) == now
    decreases |calls|
  {
    if calls != [] {
      assert AllAt(calls[1..], now) by {
        forall i | 0 <= i < |calls[1..]| ensures calls[1..][i].at == now {
          assert calls[i + 1].at == now;
        }
      }
      CallsAtNow(calls[1..], now, now);
    }
  }

  /** The task table's side of a step: it stays in order, and every row evolves. */
  lemma StepKeepsTable(w: World, step: Step)
    requires TableOk(w.core.tasks, w.now) && Enabled(w, step)
    ensures TableOk(Apply(w, step).core.tasks, Apply(w, step).now)
    ensures forall id :: id in w.core.tasks ==>
              id in Apply(w, step).core.tasks && Evolves(w.core.tasks[id], Apply(w, step).core.tasks[id])
  {
    assert forall id :: id in w.core.tasks ==> RowOk(id, w.core.tasks[id], w.now);
    var calls := StepIsCalls(w, step);
    CallsAtNow(calls, w.now, w.now);
    HistoryKeeps(w.core.tasks, calls, w.now);
    var after := Apply(w, step).core.tasks;
    forall id | id in after ensures RowOk(id, after[id], Apply(w, step).now) {
      assert RowOk(id, after[id], w.now);
    }
  }

  // ---- The invariant, step by step ----

  /** What every step grants: time, names and run ids only grow, and rows only evolve. */
  ghost predicate Grows(w: World, v: World) {
    && v.core.cfg == w.core.cfg
    && w.now <= v.now
    && w.runs <= v.runs
    && (forall p :: p in w.owner ==> p in v.owner && v.owner[p] == w.owner[p])
    && (forall id :: id in w.core.tasks ==> id in v.core.tasks && Evolves(w.core.tasks[id], v.core.tasks[id]))
  }

  lemma PassConfig(c: Core, now: Time, order: seq<TaskId>, src: Source)
    ensures EvaluateAll(c, now, order, src).cfg == c.cfg
    decreases |order|
  {
    if order != [] {
      PassConfig(EvaluateOne(c, now, order[0], src), now, order[1..], src);
    }
  }

  lemma StepConfig(w: World, step: Step)
    ensures ApplyCore(w, step).cfg == w.core.cfg
  {
    if step.TickStep? {
      PassConfig(Discover(w.core, w.now), w.now, step.order, step.src);
    }
  }

  lemma StepGrows(w: World, step: Step)
    requires TableOk(w.core.tasks, w.now) && Enabled(w, step)
    ensures Grows(w, Apply(w, step))
    ensures TableOk(Apply(w, step).core.tasks, Apply(w, step).now)
  {
    StepKeepsTable(w, step);
    StepConfig(w, step);
  }

  /** An untouched entry stays tied. */
  lemma EntryStays(w: World, v: World, id: TaskId, e: Entry)
    requires EntryTied(w, id, e) && Grows(w, v)
    requires id in v.beats ==> id in w.beats && v.beats[id] == w.beats[id]
    ensures EntryTied(v, id, e)
  {
    assert Evolves(w.core.tasks[id], v.core.tasks[id]);
  }

  /** The invariant of a state that has grown out of another by dropping entries at most. */
  lemma InvWithoutNewEntries(w: World, v: World)
    requires Inv(w) && Grows(w, v) && TableOk(v.core.tasks, v.now)
    requires forall id :: id in v.core.tasks ==> TaskTied(v, v.core.tasks[id])
    requires forall id :: id in v.core.tracked ==> Agree(v.core.tracked, w.core.tracked, id)
    requires v.core.persisted == v.core.tracked && v.core.pods.Keys <= v.owner.Keys && v.beats == w.beats
    ensures Inv(v)
  {
    forall id | id in v.core.tracked ensures EntryTied(v, id, v.core.tracked[id]) {
      assert Agree(v.core.tracked, w.core.tracked, id);
      EntryStays(w, v, id, w.core.tracked[id]);
    }
  }

  /** What a pass leaves of one task's entry. */
  lemma PassEntry(c: Core, now: Time, order: seq<TaskId>, src: Source, id: TaskId)
    requires src.Arbitrary? && Distinct(order)
    ensures var after := EvaluateAll(c, now, order, src).tracked;
            id in after ==>
              id in c.tracked
              && (after[id] == c.tracked[id] || after[id] == Marked(c.tracked[id], VerdictFor(c, now, id, src)))
    ensures c.persisted == c.tracked ==>
              Agree(EvaluateAll(c, now, order, src).tracked, EvaluateAll(c, now, order, src).persisted, id)
  {
    EvaluateAllAt(c, now, order, src, id);
  }

  lemma DiscoveredTied(w: World, id: TaskId)
    requires Inv(w) && Undiscovered(w.core, id)
    ensures EntryTied(w, id, Discovered(w.core, id, w.now))
  {
    var t := w.core.tasks[id];
    assert RowOk(id, t, w.now) && TaskTied(w, t);
  }

  lemma MapsEqual<K(!new), V>(m: map<K, V>, n: map<K, V>)
    requires forall k :: Agree(m, n, k)
    ensures m == n
  {
    forall k ensures k in m <==> k in n
             ensures k in m ==> m[k] == n[k]
    {
      assert Agree(m, n, k);
    }
  }

  lemma TickTied(w: World, v: World, order: seq<TaskId>, src: Source, id: TaskId)
    requires Inv(w) && Grows(w, v) && v.beats == w.beats && src.Arbitrary? && Distinct(order)
    requires v.core == EvaluateAll(Discover(w.core, w.now), w.now, order, src)
    ensures id in v.core.tasks ==> TaskTied(v, v.core.tasks[id])
    ensures id in v.core.tracked ==> EntryTied(v, id, v.core.tracked[id])
    ensures Agree(v.core.tracked, v.core.persisted, id)
  {
    var c := Discover(w.core, w.now);
    PassRow(c, w.now, order, src, id);
    PassEntry(c, w.now, order, src, id);
    if id in w.core.tasks {
      assert TaskTied(w, w.core.tasks[id]);
      SameNamesTied(w, v, w.core.tasks[id], v.core.tasks[id]);
    }
    if id in v.core.tracked {
      DiscoverTied(w, id);
      EntryStays(w, v, id, c.tracked[id]);
      MarkedTied(v, id, c.tracked[id], VerdictFor(c, w.now, id, src));
    }
  }

  lemma SameNamesTied(w: World, v: World, t: Task, u: Task)
    requires TaskTied(w, t) && Grows(w, v) && SameNames(t, u)
    ensures TaskTied(v, u)
  {
  }

  lemma MarkedTied(w: World, id: TaskId, e: Entry, v: Verdict)
    requires EntryTied(w, id, e)
    ensures EntryTied(w, id, Marked(e, v))
  {
  }

  lemma DiscoverTied(w: World, id: TaskId)
    requires Inv(w) && id in Discover(w.core, w.now).tracked
    ensures EntryTied(w, id, Discover(w.core, w.now).tracked[id])
  {
    if id in w.core.tracked {
      assert EntryTied(w, id, w.core.tracked[id]);
    } else {
      DiscoveredTied(w, id);
    }
  }

  lemma TickInv(w: World, v: World, order: seq<TaskId>, src: Source)
    requires Inv(w) && Grows(w, v) && TableOk(v.core.tasks, v.now) && v.beats == w.beats && Distinct(order)
    requires v.core == Tick(w.core, w.now, order, src)
    ensures Inv(v)
  {
    var c := Discover(w.core, w.now);
    var answers := Arbitrary(Asked(c, w.now, order, src));
    PassIsArbitrary(c, w.now, order, src);
    EvaluateAllPods(c, w.now, order, answers);
    forall id ensures (id in v.core.tasks ==> TaskTied(v, v.core.tasks[id]))
                   && (id in v.core.tracked ==> EntryTied(v, id, v.core.tracked[id]))
                   && Agree(v.core.tracked, v.core.persisted, id)
    {
      TickTied(w, v, order, answers, id);
    }
    MapsEqual(v.core.tracked, v.core.persisted);
  }

  lemma DispatchTied(w: World, v: World, c: Core, id: TaskId, run: RunId, pod: PodName, launch: Launch, other: TaskId)
    requires Grows(w, v) && c.cfg == w.core.cfg && v.core == Dispatch(c, id, run, pod, launch, w.now)
    requires id in c.tasks && c.tasks[id].id == id && other in c.tasks && TaskTied(w, c.tasks[other])
    requires launch == Launched ==> pod in v.owner && v.owner[pod] == id && run in v.runs && pod != ""
    ensures TaskTied(v, v.core.tasks[other])
  {
    if other != id || launch != Launched || pod in c.pods {
      hide TaskTied, Grows;
      assert SameNames(c.tasks[other], v.core.tasks[other]);
      SameNamesTied(w, v, c.tasks[other], v.core.tasks[other]);
    }
  }

  lemma LaunchInv(w: World, v: World, c: Core, id: TaskId, run: RunId, pod: PodName, launch: Launch)
    requires Inv(w) && Grows(w, v) && TableOk(v.core.tasks, v.now) && v.beats == w.beats
    requires c == w.core.(tasks := c.tasks) && v.core == Dispatch(c, id, run, pod, launch, w.now)
    requires id in c.tasks && forall k :: k in c.tasks ==> c.tasks[k].id == k && TaskTied(w, c.tasks[k])
    requires launch == Launched ==> pod in v.owner && v.owner[pod] == id && run in v.runs && pod != ""
    ensures Inv(v)
  {
    forall k | k in v.core.tasks ensures TaskTied(v, v.core.tasks[k]) {
      DispatchTied(w, v, c, id, run, pod, launch, k);
    }
    assert forall k :: k in v.core.tracked ==> Agree(v.core.tracked, w.core.tracked, k);
    InvWithoutNewEntries(w, v);
  }

  lemma CommissionInv(w: World, v: World, id: TaskId, budget: Budget, run: RunId, pod: PodName, launch: Launch)
    requires Inv(w) && Grows(w, v) && TableOk(v.core.tasks, v.now) && v.beats == w.beats
    requires id !in w.core.tasks && v.core == Commission(w.core, id, budget, run, pod, launch, w.now)
    requires launch == Launched ==> pod in v.owner && v.owner[pod] == id && run in v.runs && pod != ""
    ensures Inv(v)
  {
    if launch == Refused {
      SameCoreInv(w, v);
    } else {
      var t := NewTask(id, budget, w.now);
      var c := w.core.(tasks := w.core.tasks[id := Normalised(t, w.now)]);
      forall k | k in c.tasks ensures c.tasks[k].id == k && TaskTied(w, c.tasks[k]) {
        assert k in w.core.tasks ==> RowOk(k, w.core.tasks[k], w.now) && TaskTied(w, w.core.tasks[k]);
      }
      LaunchInv(w, v, c, id, run, pod, launch);
    }
  }

  lemma RespawnInv(w: World, v: World, url: string, run: RunId, pod: PodName, launch: Launch)
    requires Inv(w) && Grows(w, v) && TableOk(v.core.tasks, v.now) && v.beats == w.beats
    requires v.core == RespawnByPR(w.core, url, run, pod, launch, w.now)
    requires launch == Launched && FindByPR(w.core.tasks, url).Some? ==>
               pod in v.owner && v.owner[pod] == FindByPR(w.core.tasks, url).value && run in v.runs && pod != ""
    ensures Inv(v)
  {
    assert forall k :: k in w.core.tasks ==> RowOk(k, w.core.tasks[k], w.now) && TaskTied(w, w.core.tasks[k]);
    if v.core == w.core {
      SameCoreInv(w, v);
    } else {
      LaunchInv(w, v, w.core, FindByPR(w.core.tasks, url).value, run, pod, launch);
    }
  }

  lemma SameCoreInv(w: World, v: World)
    requires Inv(w) && Grows(w, v) && TableOk(v.core.tasks, v.now) && v.beats == w.beats && v.core == w.core
    ensures Inv(v)
  {
    assert forall k :: k in v.core.tracked ==> Agree(v.core.tracked, w.core.tracked, k);
    forall k | k in v.core.tasks ensures TaskTied(v, v.core.tasks[k]) {
      assert TaskTied(w, w.core.tasks[k]);
    }
    InvWithoutNewEntries(w, v);
  }

  lemma BeatTied(w: World, v: World, id: TaskId, e: Entry)
    requires EntryTied(w, id, e) && Grows(w, v) && v.now == w.now && (id in v.beats ==> v.beats[id] == w.now)
    ensures EntryTied(v, id, e.(lastHeartbeat := w.now))
  {
    assert Evolves(w.core.tasks[id], v.core.tasks[id]);
  }

  lemma HeartbeatInv(w: World, v: World, beat: TaskId)
    requires Inv(w) && Grows(w, v) && TableOk(v.core.tasks, v.now)
    requires v.core == Heartbeat(w.core, beat, w.now) && v.beats == w.beats[beat := w.now] && v.now == w.now
    ensures Inv(v)
  {
    forall id | id in v.core.tasks ensures TaskTied(v, v.core.tasks[id]) {
      assert TaskTied(w, w.core.tasks[id]);
    }
    forall id | id in v.core.tracked ensures EntryTied(v, id, v.core.tracked[id]) {
      assert EntryTied(w, id, w.core.tracked[id]);
      if id != beat {
        EntryStays(w, v, id, w.core.tracked[id]);
      } else {
        BeatTied(w, v, id, w.core.tracked[id]);
      }
    }
  }

  /** The invariant after a step that starts no run, adds no entry and creates no pod. */
  lemma QuietInv(w: World, v: World)
    requires Inv(w) && Grows(w, v) && TableOk(v.core.tasks, v.now) && v.beats == w.beats
    requires forall id :: id in v.core.tasks ==> id in w.core.tasks && SameNames(w.core.tasks[id], v.core.tasks[id])
    requires forall id :: id in v.core.tracked ==> Agree(v.core.tracked, w.core.tracked, id)
    requires v.core.persisted == v.core.tracked && v.core.pods.Keys <= w.core.pods.Keys
    ensures Inv(v)
  {
    forall id | id in v.core.tasks ensures TaskTied(v, v.core.tasks[id]) {
      assert SameNames(w.core.tasks[id], v.core.tasks[id]) && TaskTied(w, w.core.tasks[id]);
    }
    InvWithoutNewEntries(w, v);
  }

  predicate Quiet(step: Step) {
    step.CloseStep? || step.ReportPRStep? || step.RestartStep? || step.ReconcileStep? || step.SweepStep?
        || step.PodStep?
  }

  /** What a step that starts no run can do to a row; only Reconcile hibernates, on a pod seen Succeeded. */
  predicate QuietChange(w: World, step: Step, t: Task, u: Task) {
    || u == t
    || u == t.(prUrl := u.prUrl)
    || u == t.(remindedAt := Some(w.now))
    || (u.state.Terminal() && !t.state.Terminal() && u == Moved(t, u.state, w.now))
    || (t.state == Running && u == Moved(t, AwaitingReview, w.now) && step.ReconcileStep?
        && ReconcileAnswer(w.core, step.src, t) == Seen(PhaseSucceeded))
  }

  lemma QuietRows(w: World, step: Step, id: TaskId)
    requires Quiet(step)
    ensures id in ApplyCore(w, step).tasks ==>
              id in w.core.tasks && QuietChange(w, step, w.core.tasks[id], ApplyCore(w, step).tasks[id])
  {
  }

  lemma QuietEntries(w: World, step: Step)
    requires Quiet(step) && Enabled(w, step) && w.core.persisted == w.core.tracked
    ensures var d := ApplyCore(w, step);
            && d.persisted == d.tracked && d.pods.Keys <= w.core.pods.Keys
            && forall id :: id in d.tracked ==> Agree(d.tracked, w.core.tracked, id)
  {
  }

  lemma QuietStepInv(w: World, v: World, step: Step)
    requires Inv(w) && Grows(w, v) && TableOk(v.core.tasks, v.now) && v.beats == w.beats
    requires Quiet(step) && Enabled(w, step) && v.core == ApplyCore(w, step)
    ensures Inv(v)
  {
    QuietEntries(w, step);
    forall id | id in v.core.tasks ensures id in w.core.tasks && SameNames(w.core.tasks[id], v.core.tasks[id]) {
      QuietRows(w, step, id);
    }
    QuietInv(w, v);
  }

  lemma StepInv(w: World, step: Step)
    requires Inv(w) && Enabled(w, step)
    ensures Inv(Apply(w, step))
  {
    var v := Apply(w, step);
    StepGrows(w, step);
    match step
    case CommissionStep(id, budget, run, pod, launch) => CommissionInv(w, v, id, budget, run, pod, launch);
    case RespawnStep(url, run, pod, launch) => RespawnInv(w, v, url, run, pod, launch);
    case HeartbeatStep(id) => HeartbeatInv(w, v, id);
    case TickStep(order, src) => TickInv(w, v, order, src);
    case Advance(_) => SameCoreInv(w, v);
    case _ => QuietStepInv(w, v, step);
  }

  /** The invariant holds in every reachable state, and every task's row evolves along the run. */
  lemma {:induction false} RunInv(w: World, steps: seq<Step>)
    requires Inv(w) && EnabledAll(w, steps)
    ensures Inv(Run(w, steps))
    ensures forall id :: id in w.core.tasks ==>
              id in Run(w, steps).core.tasks && Evolves(w.core.tasks[id], Run(w, steps).core.tasks[id])
    decreases |steps|
  {
    if steps != [] {
      var next := Apply(w, steps[0]);
      StepInv(w, steps[0]);
      StepKeepsTable(w, steps[0]);
      RunInv(next, steps[1..]);
      forall id | id in w.core.tasks ensures Evolves(w.core.tasks[id], Run(w, steps).core.tasks[id]) {
        EvolvesTransitive(w.core.tasks[id], next.core.tasks[id], Run(w, steps).core.tasks[id]);
      }
    }
  }

  lemma InitialInv(w: World)
    requires Initial(w)
    ensures Inv(w)
  {
  }
}
