/** The in-memory task store of minos/storage/memstore/memstore.go, changed in place by its methods. */
module TaskStores {
  import opened Options
  import opened Tasks

  /** sort.Slice in ListTasks: newest first. */
  ghost predicate NewestFirst(rows: seq<Task>) {
    forall i, j :: 0 <= i < j < |rows| ==> rows[i].createdAt >= rows[j].createdAt
  }

  /** An empty filter allows every state. */
  predicate Allowed(states: set<State>, t: Task) {
    states == {} || t.state in states
  }

  ghost predicate DistinctIds(rows: seq<Task>) {
    forall i, j :: 0 <= i < j < |rows| ==> rows[i].id != rows[j].id
  }

  /** The rows come from the table, pass the filter, and no task is listed twice. */
  ghost predicate DrawnFrom(tasks: Table, states: set<State>, rows: seq<Task>) {
    DistinctIds(rows) && forall row :: row in rows ==> row.id in tasks && row == tasks[row.id] && Allowed(states, row)
  }

  /** A pass over a listing has dealt with its first `i` tasks and with none of the others. */
  ghost predicate Through(rows: seq<Task>, i: nat, done: set<TaskId>) {
    forall k :: 0 <= k < |rows| ==> (rows[k].id in done <==> k < i)
  }

  lemma Listed(before: Table, state: State, rows: seq<Task>, i: nat)
    requires DrawnFrom(before, {state}, rows) && i < |rows|
    ensures rows[i].id in before && before[rows[i].id] == rows[i] && rows[i].state == state
  {
    assert rows[i] in rows;
  }

  /** What an unlimited listing of one state leaves out is in another state. */
  lemma Unlisted(before: Table, state: State, rows: seq<Task>, done: set<TaskId>)
    requires forall id :: id in before ==> before[id].id == id
    requires forall id :: id in before && Allowed({state}, before[id]) ==> before[id] in rows
    requires Through(rows, |rows|, done)
    ensures forall id :: id in before && id !in done ==> before[id].state != state
  {
    forall id | id in before && id !in done ensures before[id].state != state {
      assert before[id] !in rows;
    }
  }

  /** A row goes in where it belongs. */
  lemma InsertedInOrder(rows: seq<Task>, k: nat, t: Task)
    requires k <= |rows| && NewestFirst(rows) && DistinctIds(rows)
    requires forall i :: 0 <= i < k ==> rows[i].createdAt >= t.createdAt
    requires k < |rows| ==> rows[k].createdAt < t.createdAt
    requires forall row :: row in rows ==> row.id != t.id
    ensures NewestFirst(rows[..k] + [t] + rows[k..]) && DistinctIds(rows[..k] + [t] + rows[k..])
  {
    var more := rows[..k] + [t] + rows[k..];
    forall i, j | 0 <= i < j < |more| ensures more[i].createdAt >= more[j].createdAt && more[i].id != more[j].id {
      var p, q := if i < k then i else i - 1, if j < k then j else j - 1;
      assert more[i] == if i == k then t else rows[p];
      assert more[j] == if j == k then t else rows[q];
      if i == k {
        assert q >= k && rows[k].createdAt >= rows[q].createdAt && rows[q] in rows;
      } else if j == k {
        assert rows[p] in rows;
      }
    }
  }

  /** Cutting a listing short loses only rows no newer than the last one kept. */
  lemma CutOff(all: seq<Task>, limit: nat, t: Task)
    requires NewestFirst(all) && t in all && 0 < limit <= |all|
    ensures t in all[..limit] || all[limit - 1].createdAt >= t.createdAt
  {
    var i :| 0 <= i < |all| && all[i] == t;
    if i < limit {
      assert all[..limit][i] == t;
    }
  }

  class TaskStore {
    var tasks: Table

    constructor ()
      ensures tasks == map[]
    {
      tasks := map[];
    }

    /** Rows are filed under their own id. */
    ghost predicate Valid()
      reads this
    {
      forall id :: id in tasks ==> tasks[id].id == id
    }

    method InsertTask(t: Task, now: Time) returns (o: Outcome)
      requires Valid()
      modifies this
      ensures Valid() && tasks == Insert(old(tasks), t, now)
      ensures o == if t.id in old(tasks) then Conflict else Done
      ensures o == Conflict ==> tasks == old(tasks)
      ensures o == Done ==>
                var created := if t.createdAt == ZERO_TIME then now else t.createdAt;
                && tasks.Keys == old(tasks).Keys + {t.id} && tasks[t.id].createdAt == created
                && tasks[t.id].state == (if t.state == Blank then Queued else t.state)
                && tasks[t.id].stateChangedAt == (if t.stateChangedAt == ZERO_TIME then created else t.stateChangedAt)
                && t == tasks[t.id].(state := t.state, createdAt := t.createdAt, stateChangedAt := t.stateChangedAt)
    {
      if t.id in tasks {
        return Conflict;
      }
      var copy := t;
      if copy.createdAt == ZERO_TIME {
        copy := copy.(createdAt := now);
      }
      if copy.state == Blank {
        copy := copy.(state := Queued);
      }
      if copy.stateChangedAt == ZERO_TIME {
        copy := copy.(stateChangedAt := copy.createdAt);
      }
      tasks := tasks[copy.id := copy];
      return Done;
    }

    method GetTask(id: TaskId) returns (found: Option<Task>)
      ensures found.Some? <==> id in tasks
      ensures found.Some? ==> found.value == tasks[id]
    {
      found := if id in tasks then Some(tasks[id]) else None;
    }

    method TransitionTask(id: TaskId, to: State, now: Time) returns (o: Outcome)
      requires Valid()
      modifies this
      ensures Valid() && tasks == Transition(old(tasks), id, to, now)
      ensures o == TransitionOutcome(old(tasks), id, to)
      ensures o == NotFound <==> id !in old(tasks)
      ensures o == Done <==>
              id in old(tasks) && (old(tasks)[id].state, to) in
              {(Queued, Running), (Queued, Failed), (Running, AwaitingReview), (Running, Completed), (Running, Failed),
                (AwaitingReview, Running), (AwaitingReview, Completed), (AwaitingReview, Failed)}
      ensures o != Done ==> tasks == old(tasks)
      ensures o == Done ==>
                var t := old(tasks)[id].(state := to, stateChangedAt := now, remindedAt := None);
                tasks == old(tasks)[id := if to == Running then t.(startedAt := Some(now))
                                          else if to == AwaitingReview then t
                                          else t.(finishedAt := Some(now))]
    {
      if id !in tasks {
        return NotFound;
      }
      var t := tasks[id];
      if !ValidTransition(t.state, to) {
        return Conflict;
      }
      t := t.(state := to, stateChangedAt := now, remindedAt := None);
      if to == Running {
        t := t.(startedAt := Some(now));
      } else if to == Completed || to == Failed {
        t := t.(finishedAt := Some(now));
      }
      tasks := tasks[id := t];
      return Done;
    }

    method SetTaskRun(id: TaskId, run: RunId, pod: PodName) returns (o: Outcome)
      requires Valid()
      modifies this
      ensures Valid() && tasks == SetRun(old(tasks), id, run, pod)
      ensures o == if id in old(tasks) then Done else NotFound
    {
      if id !in tasks {
        return NotFound;
      }
      tasks := tasks[id := tasks[id].(runId := Some(run), podName := Some(pod))];
      return Done;
    }

    method SetTaskPR(id: TaskId, url: string) returns (o: Outcome)
      requires Valid()
      modifies this
      ensures Valid() && tasks == SetPR(old(tasks), id, url)
      ensures o == if id !in old(tasks) then NotFound else if BoundElsewhere(old(tasks), id, url) then Conflict
              else Done
      ensures old(UniquePRs(tasks)) ==> UniquePRs(tasks)
    {
      if id !in tasks {
        return NotFound;
      }
      var rest := tasks.Keys;
      while rest != {}
        invariant rest <= tasks.Keys
        invariant forall other :: other in tasks && other !in rest && other != id ==> tasks[other].prUrl != Some(url)
        decreases |rest|
      {
        var other :| other in rest;
        rest := rest - {other};
        if other != id && tasks[other].prUrl == Some(url) {
          return Conflict;
        }
      }
      tasks := tasks[id := tasks[id].(prUrl := Some(url))];
      return Done;
    }

    method MarkTaskReminded(id: TaskId, now: Time) returns (o: Outcome)
      requires Valid()
      modifies this
      ensures Valid() && tasks == MarkReminded(old(tasks), id, now)
      ensures o == if id in old(tasks) then Done else NotFound
    {
      if id !in tasks {
        return NotFound;
      }
      tasks := tasks[id := tasks[id].(remindedAt := Some(now))];
      return Done;
    }

    method FindTaskByPRURL(url: string) returns (found: Option<Task>)
      requires Valid()
      ensures found.Some? ==>
                found.value.id in tasks && tasks[found.value.id] == found.value && found.value.prUrl == Some(url)
      ensures found.None? <==> FindByPR(tasks, url) == None
      ensures found.Some? && UniquePRs(tasks) ==> FindByPR(tasks, url) == Some(found.value.id)
    {
      var rest := tasks.Keys;
      while rest != {}
        invariant rest <= tasks.Keys
        invariant forall id :: id in tasks && id !in rest ==> tasks[id].prUrl != Some(url)
        decreases |rest|
      {
        var id :| id in rest;
        rest := rest - {id};
        if tasks[id].prUrl == Some(url) {
          found := Some(tasks[id]);
          var seen := FindByPR(tasks, url);
          assert seen.Some? && tasks[seen.value].prUrl == tasks[id].prUrl;
          return;
        }
      }
      found := None;
    }

    /**
     The tasks in the given states, newest first; with a positive limit, the newest `limit` of them, so that no task
     left out is newer than one listed.
     */
    method ListTasks(states: set<State>, limit: int) returns (rows: seq<Task>)
      requires Valid()
      ensures DrawnFrom(tasks, states, rows) && NewestFirst(rows)
      ensures limit > 0 ==> |rows| <= limit
      ensures forall id :: id in tasks && Allowed(states, tasks[id]) && tasks[id] !in rows ==>
                limit > 0 && |rows| == limit && rows[limit - 1].createdAt >= tasks[id].createdAt
    {
      rows := [];
      var rest := tasks.Keys;
      while rest != {}
        invariant rest <= tasks.Keys
        invariant DrawnFrom(tasks, states, rows) && NewestFirst(rows)
        invariant forall row :: row in rows ==> row.id !in rest
        invariant forall id :: id in tasks && id !in rest && Allowed(states, tasks[id]) ==> tasks[id] in rows
        decreases |rest|
      {
        var id :| id in rest;
        rest := rest - {id};
        if Allowed(states, tasks[id]) {
          rows := Place(rows, tasks[id]);
        }
      }
      if limit > 0 && |rows| > limit {
        ghost var all := rows;
        rows := rows[..limit];
        forall id | id in tasks && Allowed(states, tasks[id]) && tasks[id] !in rows
          ensures rows[limit - 1].createdAt >= tasks[id].createdAt
        {
          CutOff(all, limit, tasks[id]);
        }
      }
    }

    /** Puts one more row where it belongs among rows already sorted. */
    method Place(rows: seq<Task>, t: Task) returns (more: seq<Task>)
      requires NewestFirst(rows) && DistinctIds(rows) && forall row :: row in rows ==> row.id != t.id
      ensures NewestFirst(more) && DistinctIds(more)
      ensures forall u :: u in more <==> u in rows || u == t
    {
      var k := 0;
      while k < |rows| && rows[k].createdAt >= t.createdAt
        invariant 0 <= k <= |rows|
        invariant forall i :: 0 <= i < k ==> rows[i].createdAt >= t.createdAt
      {
        k := k + 1;
      }
      more := rows[..k] + [t] + rows[k..];
      InsertedInOrder(rows, k, t);
      assert rows == rows[..k] + rows[k..];
    }
  }
}
