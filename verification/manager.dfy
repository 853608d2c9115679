/** The in-memory task registry (internal/task/manager.go): a map from task
    ID to task. The Go manager guards the map with a reader/writer lock and
    hands out pointers; here every operation is a function from one map
    value to the next, so each call is atomic by construction and a caller
    holds a snapshot, not an alias. */
module TaskManager {
  import opened Wrappers
  import opened Model

  type Tasks = map<string, Task>

  /** The registry after a mutating call, and the error the call returned. */
  datatype Reply = Reply(tasks: Tasks, err: Option<string>)

  function NotFound(id: string): string {
    "task not found: " + id
  }

  /** Every task is stored under its own ID. */
  predicate KeyedById(m: Tasks) {
    forall k :: k in m ==> m[k].id == k
  }

  /** `m2` differs from `m` at most in the entry for `id`, which both hold. */
  predicate OnlyEntryChanged(m: Tasks, m2: Tasks, id: string) {
    && id in m
    && m2.Keys == m.Keys
    && forall k :: k in m && k != id ==> m2[k] == m[k]
  }

  /** A call on an absent ID reports "task not found" and changes nothing. */
  predicate RejectedAbsent(m: Tasks, r: Reply, id: string) {
    r.tasks == m && r.err == Some(NotFound(id))
  }

  /** Inserts the task under its ID, replacing any task stored there. */
  function Create(m: Tasks, t: Task): (r: Tasks)
    ensures t.id in r && r[t.id] == t
    ensures r.Keys == m.Keys + {t.id}
    ensures forall k :: k in m && k != t.id ==> r[k] == m[k]
  {
    m[t.id := t]
  }

  /** The task stored under `id`, if there is one. */
  function Get(m: Tasks, id: string): (r: Option<Task>)
    ensures r.Some? <==> id in m
    ensures r.Some? ==> r.value == m[id]
  {
    if id in m then Some(m[id]) else None
  }

  /** Replaces the stored task with the same ID; fails if there is none. */
  function Update(m: Tasks, t: Task): (r: Reply)
    ensures t.id !in m ==> RejectedAbsent(m, r, t.id)
    ensures t.id in m ==> r.err == None && OnlyEntryChanged(m, r.tasks, t.id) && r.tasks[t.id] == t
  {
    if t.id !in m then Reply(m, Some(NotFound(t.id))) else Reply(m[t.id := t], None)
  }

  /** Removes the entry for `id`; fails if there is none. */
  function Delete(m: Tasks, id: string): (r: Reply)
    ensures id !in m ==> RejectedAbsent(m, r, id)
    ensures id in m ==> r.err == None && r.tasks.Keys == m.Keys - {id}
    ensures forall k :: k in r.tasks ==> k in m && r.tasks[k] == m[k]
  {
    if id !in m then Reply(m, Some(NotFound(id))) else Reply(m - {id}, None)
  }

  /** Every stored task, each exactly once, in an unspecified order. The
      order in which the map was walked is returned alongside. */
  method List(m: Tasks) returns (order: seq<string>, tasks: seq<Task>)
    ensures |order| == |tasks| == |m|
    ensures forall i :: 0 <= i < |order| ==> order[i] in m && tasks[i] == m[order[i]]
    ensures forall i, j :: 0 <= i < j < |order| ==> order[i] != order[j]
    ensures forall k :: k in m ==> k in order
  {
    order, tasks := [], [];
    var rest := m.Keys;
    while rest != {}
      invariant rest <= m.Keys
      invariant |order| == |tasks|
      invariant forall i :: 0 <= i < |order| ==> order[i] in m && order[i] !in rest && tasks[i] == m[order[i]]
      invariant forall i, j :: 0 <= i < j < |order| ==> order[i] != order[j]
      invariant forall k :: k in m ==> k in rest || k in order
      invariant |order| + |rest| == |m|
      decreases rest
    {
      var k :| k in rest;
      order, tasks := order + [k], tasks + [m[k]];
      rest := rest - {k};
    }
  }

  /** Sets the stored task's status. */
  function UpdateTaskStatus(m: Tasks, id: string, status: string): (r: Reply)
    ensures id !in m ==> RejectedAbsent(m, r, id)
    ensures id in m ==> && r.err == None && OnlyEntryChanged(m, r.tasks, id)
                        && r.tasks[id].status == status
                        && r.tasks[id].(status := m[id].status) == m[id]
  {
    if id !in m then Reply(m, Some(NotFound(id))) else Reply(m[id := m[id].(status := status)], None)
  }

  /** Sets the stored task's overall progress. */
  function UpdateTaskProgress(m: Tasks, id: string, progress: int): (r: Reply)
    ensures id !in m ==> RejectedAbsent(m, r, id)
    ensures id in m ==> && r.err == None && OnlyEntryChanged(m, r.tasks, id)
                        && r.tasks[id].progress == progress
                        && r.tasks[id].(progress := m[id].progress) == m[id]
  {
    if id !in m then Reply(m, Some(NotFound(id))) else Reply(m[id := m[id].(progress := progress)], None)
  }

  /** Marks the stored task failed with the message; any result it already
      carried is kept. */
  function SetTaskError(m: Tasks, id: string, msg: string): (r: Reply)
    ensures id !in m ==> RejectedAbsent(m, r, id)
    ensures id in m ==> && r.err == None && OnlyEntryChanged(m, r.tasks, id)
                        && r.tasks[id].status == TaskFailed && r.tasks[id].error == msg
                        && r.tasks[id].result == m[id].result
                        && r.tasks[id].(status := m[id].status, error := m[id].error) == m[id]
  {
    if id !in m then Reply(m, Some(NotFound(id)))
    else Reply(m[id := m[id].(status := TaskFailed, error := msg)], None)
  }

  /** Attaches the result, marks the stored task completed at 100%. The error
      text is not cleared. */
  function SetTaskResult(m: Tasks, id: string, res: Result): (r: Reply)
    ensures id !in m ==> RejectedAbsent(m, r, id)
    ensures id in m ==> && r.err == None && OnlyEntryChanged(m, r.tasks, id)
                        && r.tasks[id].result == Some(res)
                        && r.tasks[id].status == TaskCompleted && r.tasks[id].progress == 100
                        && r.tasks[id].(result := m[id].result, status := m[id].status, progress := m[id].progress) == m[id]
  {
    if id !in m then Reply(m, Some(NotFound(id)))
    else Reply(m[id := m[id].(result := Some(res), status := TaskCompleted, progress := 100)], None)
  }

  /** Creating tasks one after another. */
  function CreateAll(m: Tasks, ts: seq<Task>): Tasks
    decreases |ts|
  {
    if |ts| == 0 then m else CreateAll(Create(m, ts[0]), ts[1..])
  }

  predicate DistinctIds(ts: seq<Task>) {
    forall i, j :: 0 <= i < j < |ts| ==> ts[i].id != ts[j].id
  }

  /** After creating tasks with distinct IDs, each is found under its ID,
      unaltered, and every task that was stored before under another ID is
      still there. */
  lemma {:induction false} CreateAllRetrievable(m: Tasks, ts: seq<Task>)
    requires DistinctIds(ts)
    ensures forall i :: 0 <= i < |ts| ==> Get(CreateAll(m, ts), ts[i].id) == Some(ts[i])
    ensures forall k :: k in m && (forall i :: 0 <= i < |ts| ==> ts[i].id != k) ==> Get(CreateAll(m, ts), k) == Some(m[k])
    decreases |ts|
  {
    if |ts| > 0 {
      var m1 := Create(m, ts[0]);
      var rest := ts[1..];
      assert DistinctIds(rest);
      CreateAllRetrievable(m1, rest);
      assert forall i :: 0 <= i < |rest| ==> rest[i].id != ts[0].id;
      assert ts[0].id in m1 && m1[ts[0].id] == ts[0];
      forall i | 0 <= i < |ts|
        ensures Get(CreateAll(m, ts), ts[i].id) == Some(ts[i])
      {
        if i > 0 {
          assert ts[i] == rest[i - 1];
        }
      }
      forall k | k in m && (forall i :: 0 <= i < |ts| ==> ts[i].id != k)
        ensures Get(CreateAll(m, ts), k) == Some(m[k])
      {
        assert ts[0].id != k;
        assert forall i :: 0 <= i < |rest| ==> rest[i].id != k by {
          forall i | 0 <= i < |rest| ensures rest[i].id != k {
            assert rest[i] == ts[i + 1];
          }
        }
      }
    }
  }

  /** Creating, replacing and deleting keep each task stored under its own ID. */
  lemma OperationsKeepKeying(m: Tasks, t: Task, id: string)
    requires KeyedById(m)
    ensures KeyedById(Create(m, t))
    ensures KeyedById(Update(m, t).tasks)
    ensures KeyedById(Delete(m, id).tasks)
  {
  }

  /** So do the field setters. */
  lemma SettersKeepKeying(m: Tasks, id: string, status: string, progress: int, msg: string, res: Result)
    requires KeyedById(m)
    ensures KeyedById(UpdateTaskStatus(m, id, status).tasks)
    ensures KeyedById(UpdateTaskProgress(m, id, progress).tasks)
    ensures KeyedById(SetTaskError(m, id, msg).tasks)
    ensures KeyedById(SetTaskResult(m, id, res).tasks)
  {
  }

  /** After a successful delete the task is gone from `Get` and the registry
      holds one task fewer. */
  lemma DeleteThenGet(m: Tasks, id: string)
    requires id in m
    ensures Get(Delete(m, id).tasks, id) == None
    ensures |Delete(m, id).tasks| == |m| - 1
  {
    var r := Delete(m, id).tasks;
    assert r.Keys == m.Keys - {id};
    assert |r.Keys| == |m.Keys| - 1;
  }
}
