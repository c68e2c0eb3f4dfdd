/**
 Argus as the source writes it: tracked pods are objects changed in place, reached both from the map and from the list
 a pass works through (minos/argus/argus.go), with a persister that keeps copies (minos/argus/persister.go). Every
 method is proved to compute the function of Supervision.dfy that the theorems are about.
 */
module ArgusDaemon {
  import opened Options
  import opened Tasks
  import opened ArgusRules
  import opened Supervision
  import opened Runs
  import opened TaskStores
  import opened Dispatchers

  class MemPersister {
    var states: map<TaskId, Entry>

    constructor ()
      ensures states == map[]
    {
      states := map[];
    }

    method Save(id: TaskId, e: Entry)
      modifies this
      ensures states == old(states)[id := e]
    {
      states := states[id := e];
    }

    method Delete(id: TaskId)
      modifies this
      ensures states == old(states) - {id}
    {
      states := states - {id};
    }

    /** Every persisted row once, in some order. */
    method Load() returns (rows: seq<(TaskId, Entry)>)
      ensures forall i :: 0 <= i < |rows| ==> rows[i].0 in states && rows[i].1 == states[rows[i].0]
      ensures forall i, j :: 0 <= i < j < |rows| ==> rows[i].0 != rows[j].0
      ensures forall id :: id in states ==> (id, states[id]) in rows
    {
      rows := [];
      var rest := states.Keys;
      while rest != {}
        invariant rest <= states.Keys
        invariant forall i :: 0 <= i < |rows| ==>
                  rows[i].0 in states && rows[i].0 !in rest && rows[i].1 == states[rows[i].0]
        invariant forall i, j :: 0 <= i < j < |rows| ==> rows[i].0 != rows[j].0
        invariant forall id :: id in states && id !in rest ==> (id, states[id]) in rows
        decreases |rest|
      {
        var id :| id in rest;
        rest := rest - {id};
        rows := rows + [(id, states[id])];
      }
    }
  }

  /** One tracked pod; its identity is fixed, its flags and last heartbeat are overwritten in place. */
  class TrackedPod {
    const taskId: TaskId
    const runId: RunId
    const podName: PodName
    const startedAt: Time
    const limits: Limits
    var lastHeartbeat: Time
    var warned: bool
    var escalated: bool
    var terminated: bool

    constructor (id: TaskId, e: Entry)
      ensures taskId == id && Value() == e
    {
      taskId, runId, podName, startedAt, limits := id, e.runId, e.podName, e.startedAt, e.limits;
      lastHeartbeat, warned, escalated, terminated := e.lastHeartbeat, e.warned, e.escalated, e.terminated;
    }

    function Value(): Entry
      reads this
    {
      Entry(runId, podName, startedAt, lastHeartbeat, limits, warned, escalated, terminated)
    }
  }

  function TaskIds(states: seq<TrackedPod>): seq<TaskId> {
    seq(|states|, i requires 0 <= i < |states| => states[i].taskId)
  }

  /** What evaluate has done after the first `n` visits. */
  ghost function PassSoFar(c: Core, now: Time, order: seq<TaskId>, n: nat, src: Source): Core
    requires n <= |order|
  {
    EvaluateAll(c, now, order[..n], src)
  }

  lemma PassEnds(c: Core, now: Time, order: seq<TaskId>, src: Source)
    ensures PassSoFar(c, now, order, 0, src) == c
            && PassSoFar(c, now, order, |order|, src) == EvaluateAll(c, now, order, src)
  {
    assert order[..|order|] == order;
  }

  lemma PassGoesOn(c: Core, now: Time, order: seq<TaskId>, n: nat, src: Source)
    requires n < |order|
    ensures PassSoFar(c, now, order, n + 1, src) == EvaluateOne(PassSoFar(c, now, order, n, src), now, order[n], src)
  {
    assert order[..n + 1] == order[..n] + [order[n]];
    PassSnoc(c, now, order[..n], order[n], src);
  }

  lemma {:induction false} PassSnoc(c: Core, now: Time, order: seq<TaskId>, id: TaskId, src: Source)
    ensures EvaluateAll(c, now, order + [id], src) == EvaluateOne(EvaluateAll(c, now, order, src), now, id, src)
    decreases |order|
  {
    if order == [] {
      assert order + [id] == [id];
      assert [id][1..] == [];
    } else {
      assert (order + [id])[0] == order[0] && (order + [id])[1..] == order[1..] + [id];
      PassSnoc(EvaluateOne(c, now, order[0], src), now, order[1..], id, src);
    }
  }

  lemma RemoveUpdated<K, V>(m: map<K, V>, k: K, v: V)
    ensures m[k := v] - {k} == m - {k}
  {
  }

  /** A state with the parts Finish describes is the one it yields. */
  lemma FinishIs(c: Core, id: TaskId, v: Verdict, now: Time, d: Core)
    requires id in c.tracked && Final(v)
    requires d.cfg == c.cfg && d.tasks == Transition(c.tasks, id, FinalState(v), now)
    requires d.pods == c.pods - {c.tracked[id].podName}
    requires d.tracked == c.tracked - {id} && d.persisted == c.persisted - {id}
    requires d.log == c.log + [EventFor(c.tracked[id], id, v, now)]
    ensures d == Finish(c, id, v, now)
  {
  }

  lemma PlusUpdated<K, V>(m: map<K, V>, n: map<K, V>, k: K, v: V)
    ensures m + n[k := v] == (m + n)[k := v]
  {
  }

  ghost function Found(c: Core, ids: set<TaskId>, now: Time): map<TaskId, Entry> {
    map id | id in ids && Undiscovered(c, id) :: Discovered(c, id, now)
  }

  /** What discover has done once it has looked at the tasks in `ids`. */
  ghost function DiscoverSome(c: Core, ids: set<TaskId>, now: Time): Core {
    c.(tracked := c.tracked + Found(c, ids, now), persisted := c.persisted + Found(c, ids, now))
  }

  lemma DiscoverNone(c: Core, now: Time)
    ensures DiscoverSome(c, {}, now) == c
  {
    assert Found(c, {}, now) == map[];
  }

  lemma DiscoverOneMore(c: Core, ids: set<TaskId>, id: TaskId, now: Time)
    requires id !in ids
    ensures DiscoverSome(c, ids + {id}, now) ==
            if Undiscovered(c, id) then Keep(DiscoverSome(c, ids, now), id, Discovered(c, id, now))
                else DiscoverSome(c, ids, now)
    ensures id in DiscoverSome(c, ids, now).tracked <==> id in c.tracked
  {
    var less, more := Found(c, ids, now), Found(c, ids + {id}, now);
    if Undiscovered(c, id) {
      var e := Discovered(c, id, now);
      assert more == less[id := e];
      PlusUpdated(c.tracked, less, id, e);
      PlusUpdated(c.persisted, less, id, e);
    } else {
      assert more == less;
    }
  }

  lemma DiscoverAll(c: Core, ids: set<TaskId>, now: Time)
    requires forall id :: Undiscovered(c, id) ==> id in ids
    ensures DiscoverSome(c, ids, now) == Discover(c, now)
  {
    assert Found(c, ids, now) == map id | id in c.tasks && Undiscovered(c, id) :: Discovered(c, id, now);
  }

  ghost function KeptRows(c: Core, ids: set<TaskId>, src: Source): map<TaskId, Entry> {
    map id | id in ids && id in c.persisted && !Dropped(c, id, src) :: c.persisted[id]
  }

  ghost function LeftRows(c: Core, ids: set<TaskId>, src: Source): map<TaskId, Entry> {
    map id | id in c.persisted && !(id in ids && Dropped(c, id, src)) :: c.persisted[id]
  }

  /** What rehydrate has done once it has looked at the rows in `ids`. */
  ghost function RehydrateSome(c: Core, ids: set<TaskId>, src: Source): Core {
    c.(tracked := c.tracked + KeptRows(c, ids, src), persisted := LeftRows(c, ids, src))
  }

  lemma RehydrateNone(c: Core, src: Source)
    ensures RehydrateSome(c, {}, src) == c
  {
    assert KeptRows(c, {}, src) == map[] && LeftRows(c, {}, src) == c.persisted;
  }

  lemma RehydrateOneMore(c: Core, ids: set<TaskId>, id: TaskId, src: Source)
    requires id in c.persisted
    ensures var d := RehydrateSome(c, ids, src);
            RehydrateSome(c, ids + {id}, src) ==
            if Dropped(c, id, src) then d.(persisted := d.persisted - {id})
                else d.(tracked := d.tracked[id := c.persisted[id]])
  {
    if Dropped(c, id, src) {
      assert KeptRows(c, ids + {id}, src) == KeptRows(c, ids, src);
      assert LeftRows(c, ids + {id}, src) == LeftRows(c, ids, src) - {id};
    } else {
      assert LeftRows(c, ids + {id}, src) == LeftRows(c, ids, src);
      assert KeptRows(c, ids + {id}, src) == KeptRows(c, ids, src)[id := c.persisted[id]];
      PlusUpdated(c.tracked, KeptRows(c, ids, src), id, c.persisted[id]);
    }
  }

  lemma RehydrateAll(c: Core, ids: set<TaskId>, src: Source)
    requires ids == c.persisted.Keys
    ensures RehydrateSome(c, ids, src) == Rehydrate(c, src)
  {
    var kept := map id | id in c.persisted && !Dropped(c, id, src) :: c.persisted[id];
    assert KeptRows(c, ids, src) == kept && LeftRows(c, ids, src) == kept;
  }

  class Argus {
    const cfg: Config
    const store: TaskStore
    const dispatcher: Dispatcher
    const persister: MemPersister
    var pods: map<TaskId, TrackedPod>
    var audit: seq<Event>
    ghost var entries: set<TrackedPod>

    constructor (cfg: Config, store: TaskStore, dispatcher: Dispatcher, persister: MemPersister)
      requires store.Valid()
      ensures this.cfg == cfg && this.store == store && this.dispatcher == dispatcher && this.persister == persister
      ensures pods == map[] && audit == [] && Valid()
    {
      this.cfg, this.store, this.dispatcher, this.persister := cfg, store, dispatcher, persister;
      pods, audit, entries := map[], [], {};
    }

    /** Every tracked pod is filed under its own task. */
    ghost predicate Filed()
      reads this`pods, this`entries
    {
      forall id :: id in pods ==> pods[id] in entries && pods[id].taskId == id
    }

    ghost predicate Valid()
      reads this`pods, this`entries, store
    {
      Filed() && store.Valid()
    }

    ghost function Tracked(): map<TaskId, Entry>
      requires Filed()
      reads this`pods, this`entries, entries
    {
      map id | id in pods :: pods[id].Value()
    }

    /** The state the theorems speak about. */
    ghost function View(): Core
      requires Filed()
      reads this`pods, this`entries, this`audit, entries, store, dispatcher`pods, persister
    {
      Core(cfg, store.tasks, dispatcher.pods, Tracked(), persister.states, audit)
    }

    /** A fresh entry in memory. */
    method Adopt(id: TaskId, e: Entry) returns (st: TrackedPod)
      requires Filed()
      modifies this`pods, this`entries
      ensures Filed() && fresh(entries - old(entries)) && pods == old(pods)[id := st]
      ensures Tracked() == old(Tracked())[id := e] && st.taskId == id && st.Value() == e
    {
      st := new TrackedPod(id, e);
      pods, entries := pods[id := st], entries + {st};
    }

    /** A fresh entry in memory and in the persister. */
    method File(id: TaskId, e: Entry)
      requires Valid()
      modifies this`pods, this`entries, persister
      ensures Valid() && fresh(entries - old(entries)) && pods.Keys == old(pods).Keys + {id}
      ensures Tracked() == old(Tracked())[id := e]
      ensures persister.states == old(persister.states)[id := e]
    {
      var st := Adopt(id, e);
      PersistOne(st);
    }

    method TrackTask(t: Task, now: Time)
      requires Valid()
      modifies this`pods, this`entries, persister
      ensures Valid() && fresh(entries - old(entries))
      ensures View() == if Trackable(t) then Keep(old(View()), t.id, NewEntry(cfg, t, now, now)) else old(View())
    {
      if t.budget == None || t.podName == None || t.runId == None {
        return;
      }
      File(t.id, NewEntry(cfg, t, now, now));
    }

    method UntrackTask(id: TaskId)
      requires Valid()
      modifies this`pods, persister
      ensures Valid() && pods == old(pods) - {id}
      ensures Tracked() == old(Tracked()) - {id} && persister.states == old(persister.states) - {id}
    {
      pods := pods - {id};
      persister.Delete(id);
    }

    method MarkBeat(id: TaskId, now: Time)
      requires Valid() && id in pods
      modifies pods[id], persister
      ensures Valid()
      ensures Tracked() == old(Tracked())[id := old(Tracked())[id].(lastHeartbeat := now)]
      ensures persister.states == old(persister.states)[id := Tracked()[id]]
    {
      var st := pods[id];
      st.lastHeartbeat := now;
      PersistOne(st);
    }

    /** Heartbeats for tasks Argus does not track are ignored. */
    method Heartbeat(id: TaskId, now: Time)
      requires Valid()
      modifies entries, persister
      ensures Valid() && View() == Supervision.Heartbeat(old(View()), id, now)
    {
      if id in pods {
        MarkBeat(id, now);
      }
    }

    method PersistOne(st: TrackedPod)
      modifies persister
      ensures persister.states == old(persister.states)[st.taskId := st.Value()]
    {
      persister.Save(st.taskId, st.Value());
    }

    method MarkWarned(id: TaskId)
      requires Valid() && id in pods
      modifies pods[id], persister
      ensures Valid()
      ensures Tracked() == old(Tracked())[id := old(Tracked())[id].(warned := true)]
      ensures persister.states == old(persister.states)[id := Tracked()[id]]
    {
      var st := pods[id];
      st.warned := true;
      PersistOne(st);
    }

    method MarkEscalated(id: TaskId)
      requires Valid() && id in pods
      modifies pods[id], persister
      ensures Valid()
      ensures Tracked() == old(Tracked())[id := old(Tracked())[id].(escalated := true)]
      ensures persister.states == old(persister.states)[id := Tracked()[id]]
    {
      var st := pods[id];
      st.escalated := true;
      PersistOne(st);
    }

    method MarkTerminated(id: TaskId)
      requires Valid() && id in pods
      modifies pods[id], persister
      ensures Valid()
      ensures Tracked() == old(Tracked())[id := old(Tracked())[id].(terminated := true)]
      ensures persister.states == old(persister.states)[id := Tracked()[id]]
    {
      var st := pods[id];
      st.terminated := true;
      PersistOne(st);
    }

    method Emit(id: TaskId, v: Verdict, now: Time)
      requires Valid() && id in pods
      modifies this`audit
      ensures audit == old(audit) + [EventFor(Tracked()[id], id, v, now)]
    {
      var st := pods[id];
      audit := audit + [Event(st.taskId, st.runId, st.podName, v, now - st.startedAt)];
    }

    /** Flag the entry, persist the flag, and audit the verdict, before anything is done about it. */
    method Announce(id: TaskId, v: Verdict, now: Time)
      requires Valid() && id in pods
      modifies this`audit, pods[id], persister
      ensures Valid()
      ensures Tracked() == old(Tracked())[id := old(Tracked())[id].(terminated := true)]
      ensures persister.states == old(persister.states)[id := Tracked()[id]]
      ensures audit == old(audit) + [EventFor(old(Tracked())[id], id, v, now)]
    {
      MarkTerminated(id);
      Emit(id, v, now);
    }

    /** The pod succeeded: move the task to awaiting-review, a conflict being tolerated, then free the pod. */
    method HibernatePod(id: TaskId, now: Time)
      requires Valid() && id in pods
      modifies this`pods, this`audit, pods[id], persister, store, dispatcher`pods
      ensures Valid() && pods == old(pods) - {id}
      ensures View() == Finish(old(View()), id, Hibernate, now)
    {
      ghost var c := View();
      var name := pods[id].podName;
      Announce(id, Hibernate, now);
      ghost var marked := Tracked();
      var moved := store.TransitionTask(id, AwaitingReview, now);
      var found := dispatcher.DeletePod(name);
      assert Tracked() == marked;
      RemoveUpdated(c.tracked, id, marked[id]);
      RemoveUpdated(c.persisted, id, marked[id]);
      UntrackTask(id);
      FinishIs(c, id, Hibernate, now, View());
    }

    /** The pod failed: fail the task first, so that operators see the terminal state, then free the pod. */
    method MarkPodFailed(id: TaskId, now: Time)
      requires Valid() && id in pods
      modifies this`pods, this`audit, pods[id], persister, store, dispatcher`pods
      ensures Valid() && pods == old(pods) - {id}
      ensures View() == Finish(old(View()), id, MarkFailed, now)
    {
      ghost var c := View();
      var name := pods[id].podName;
      Announce(id, MarkFailed, now);
      ghost var marked := Tracked();
      var moved := store.TransitionTask(id, Failed, now);
      var found := dispatcher.DeletePod(name);
      assert Tracked() == marked;
      RemoveUpdated(c.tracked, id, marked[id]);
      RemoveUpdated(c.persisted, id, marked[id]);
      UntrackTask(id);
      FinishIs(c, id, MarkFailed, now, View());
    }

    /** Cap exceeded or no heartbeat: delete the pod first, then fail the task. */
    method TerminatePod(id: TaskId, now: Time)
      requires Valid() && id in pods
      modifies this`pods, this`audit, pods[id], persister, store, dispatcher`pods
      ensures Valid() && pods == old(pods) - {id}
      ensures View() == Finish(old(View()), id, Terminate, now)
    {
      ghost var c := View();
      var name := pods[id].podName;
      Announce(id, Terminate, now);
      ghost var marked := Tracked();
      var found := dispatcher.DeletePod(name);
      var moved := store.TransitionTask(id, Failed, now);
      assert Tracked() == marked;
      RemoveUpdated(c.tracked, id, marked[id]);
      RemoveUpdated(c.persisted, id, marked[id]);
      UntrackTask(id);
      FinishIs(c, id, Terminate, now, View());
    }

    method WarnThread(id: TaskId, pct: int, now: Time)
      requires Valid() && id in pods
      modifies this`audit, pods[id], persister
      ensures Valid() && View() == Notify(old(View()), id, Warn(pct), now)
    {
      MarkWarned(id);
      Emit(id, Warn(pct), now);
    }

    method EscalateThread(id: TaskId, pct: int, now: Time)
      requires Valid() && id in pods
      modifies this`audit, pods[id], persister
      ensures Valid() && View() == Notify(old(View()), id, Escalate(pct), now)
    {
      MarkEscalated(id);
      Emit(id, Escalate(pct), now);
    }

    /** The rules, in the order the source tries them. */
    method Decide(st: TrackedPod, now: Time) returns (v: Verdict)
      ensures v == Judge(cfg, st.Value(), if st.podName in dispatcher.pods then Seen(dispatcher.pods[st.podName])
              else NoSuchPod, now)
    {
      var answer := dispatcher.PodPhase(st.podName);
      if answer == Seen(PhaseSucceeded) {
        return Hibernate;
      }
      if answer == Seen(PhaseFailed) {
        return MarkFailed;
      }
      var wall, silence := now - st.startedAt, now - st.lastHeartbeat;
      var cap := st.limits.maxWallClock;
      if cap > 0 && wall >= cap {
        return Terminate;
      } else if cfg.stallThreshold > 0 && silence >= cfg.stallThreshold {
        return Terminate;
      } else if cap > 0 && !st.escalated && st.limits.escalationAt > 0 && wall >= st.limits.escalationAt {
        return Escalate(PercentOf(wall, cap));
      } else if cap > 0 && !st.warned && st.limits.warningAt > 0 && wall >= st.limits.warningAt {
        return Warn(PercentOf(wall, cap));
      }
      return LeaveAlone;
    }

    /** One round of the loop in evaluate. */
    method Visit(id: TaskId, now: Time)
      requires Valid() && id in pods
      modifies this`pods, this`audit, pods[id], persister, store, dispatcher`pods
      ensures Valid() && old(pods).Keys - {id} <= pods.Keys
      ensures View() == EvaluateOne(old(View()), now, id, FromPods({}))
    {
      var st := pods[id];
      if st.terminated {
        return;
      }
      var v := Decide(st, now);
      assert v == VerdictFor(View(), now, id, FromPods({}));
      match v
      case Hibernate => HibernatePod(id, now);
      case MarkFailed => MarkPodFailed(id, now);
      case Terminate => TerminatePod(id, now);
      case Escalate(pct) => EscalateThread(id, pct, now);
      case Warn(pct) => WarnThread(id, pct, now);
      case LeaveAlone =>
    }

    /** evaluate: copy the tracked pods into a list, then apply the rules to each in turn. */
    method Evaluate(now: Time) returns (order: seq<TaskId>)
      requires Valid()
      modifies this`pods, this`audit, entries, persister, store, dispatcher`pods
      ensures Valid() && IsOrder(order, old(pods).Keys)
      ensures View() == EvaluateAll(old(View()), now, order, FromPods({}))
    {
      hide PassSoFar;
      ghost var c := View();
      var states := Snapshot();
      order := TaskIds(states);
      PassEnds(c, now, order, FromPods({}));
      var i := 0;
      while i < |states|
        invariant 0 <= i <= |states| && entries == old(entries)
        invariant Valid() && forall j :: i <= j < |order| ==> order[j] in pods
        invariant View() == PassSoFar(c, now, order, i, FromPods({}))
      {
        var id := states[i].taskId;
        assert id == order[i] && pods[id] in entries;
        Visit(id, now);
        PassGoesOn(c, now, order, i, FromPods({}));
        i := i + 1;
      }
    }

    /** Whether one listed row is to be tracked, as discover asks it. */
    method Consider(t: Task, now: Time)
      requires Valid() && t.id in store.tasks && store.tasks[t.id] == t && t.state == Running
      modifies this`pods, this`entries, persister
      ensures Valid() && fresh(entries - old(entries))
      ensures View() == if Undiscovered(old(View()), t.id)
              then Keep(old(View()), t.id, Discovered(old(View()), t.id, now)) else old(View())
    {
      if t.id in pods || t.budget == None || t.podName == None || t.runId == None {
        return;
      }
      var started := t.startedAt;
      if started == None || started.value == ZERO_TIME {
        started := Some(t.createdAt);
      }
      File(t.id, NewEntry(cfg, t, started.value, now));
    }

    /** discover: track every running task that is not tracked yet. */
    method DiscoverRunning(now: Time)
      requires Valid()
      modifies this`pods, this`entries, persister
      ensures Valid() && fresh(entries - old(entries))
      ensures View() == Discover(old(View()), now)
    {
      hide DiscoverSome;
      ghost var c := View();
      DiscoverNone(c, now);
      var rows := store.ListTasks({Running}, 0);
      ghost var ids: set<TaskId> := {};
      var i := 0;
      while i < |rows|
        invariant 0 <= i <= |rows|
        invariant Valid() && fresh(entries - old(entries))
        invariant Through(rows, i, ids)
        invariant View() == DiscoverSome(c, ids, now)
      {
        var t := rows[i];
        Listed(c.tasks, Running, rows, i);
        DiscoverOneMore(c, ids, t.id, now);
        Consider(t, now);
        ids := ids + {t.id};
        i := i + 1;
      }
      Unlisted(c.tasks, Running, rows, ids);
      DiscoverAll(c, ids, now);
    }

    /** Whether one persisted row is kept, as rehydrate asks it. */
    method RehydrateRow(id: TaskId, e: Entry)
      requires Valid()
      modifies this`pods, this`entries, persister
      ensures Valid() && fresh(entries - old(entries))
      ensures var d := old(View());
              View() == if Drops(AnswerFor(FromPods({}), d.pods, id, e.podName))
                  then d.(persisted := d.persisted - {id})
                        else d.(tracked := d.tracked[id := e])
    {
      var answer := dispatcher.PodPhase(e.podName);
      if answer.Seen? && (answer.phase == PhaseUnknown || answer.phase.Terminal()) {
        persister.Delete(id);
      } else {
        var st := Adopt(id, e);
      }
    }

    /** rehydrate: adopt a copy of every persisted row whose pod is not known to be over. */
    method RehydrateStates()
      requires Valid()
      modifies this`pods, this`entries, persister
      ensures Valid() && fresh(entries - old(entries))
      ensures View() == Rehydrate(old(View()), FromPods({}))
    {
      hide RehydrateSome;
      ghost var c := View();
      var rows := persister.Load();
      RehydrateNone(c, FromPods({}));
      ghost var ids: set<TaskId> := {};
      var i := 0;
      while i < |rows|
        invariant 0 <= i <= |rows|
        invariant Valid() && fresh(entries - old(entries))
        invariant ids <= c.persisted.Keys && forall j :: 0 <= j < |rows| ==> (rows[j].0 in ids <==> j < i)
        invariant View() == RehydrateSome(c, ids, FromPods({}))
      {
        var id, e := rows[i].0, rows[i].1;
        RehydrateOneMore(c, ids, id, FromPods({}));
        RehydrateRow(id, e);
        ids := ids + {id};
        i := i + 1;
      }
      assert ids == c.persisted.Keys by {
        forall id | id in c.persisted ensures id in ids {
          assert (id, c.persisted[id]) in rows;
        }
      }
      RehydrateAll(c, ids, FromPods({}));
    }

    /** One tick of the run loop. */
    method TickOnce(now: Time) returns (order: seq<TaskId>)
      requires Valid()
      modifies this, entries, persister, store, dispatcher`pods
      ensures Valid() && IsOrder(order, Discover(old(View()), now).tracked.Keys)
      ensures View() == Tick(old(View()), now, order, FromPods({}))
    {
      DiscoverRunning(now);
      assert pods.Keys == Tracked().Keys;
      order := Evaluate(now);
    }

    /** The tracked pods in the order the map iteration happens to give. */
    method Snapshot() returns (states: seq<TrackedPod>)
      requires Filed()
      ensures forall i :: 0 <= i < |states| ==> states[i].taskId in pods && pods[states[i].taskId] == states[i]
      ensures IsOrder(TaskIds(states), pods.Keys)
    {
      states := [];
      var rest := pods.Keys;
      while rest != {}
        invariant rest <= pods.Keys
        invariant forall i :: 0 <= i < |states| ==>
                  states[i].taskId in pods && states[i].taskId !in rest && pods[states[i].taskId] == states[i]
        invariant Distinct(TaskIds(states)) && forall id :: id in pods && id !in rest ==> id in TaskIds(states)
        decreases |rest|
      {
        var id :| id in rest;
        rest := rest - {id};
        assert TaskIds(states + [pods[id]]) == TaskIds(states) + [id];
        states := states + [pods[id]];
      }
    }
  }
}
