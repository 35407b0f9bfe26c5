/** The in-memory task store with no server: it assigns the id and the
    timestamps itself. The UUID generator and the clock are parameters. */
module LocalTaskStore {
  import opened Values
  import opened EntityList

  /** `{ ...taskData, id, createdAt, updatedAt }` */
  function NewTask(taskData: Record, id: string, createdAt: int, updatedAt: int): (t: Record)
    ensures HasId(t, id)
    ensures t.Keys == taskData.Keys + {"id", "createdAt", "updatedAt"}
    ensures t["createdAt"] == Date(createdAt) && t["updatedAt"] == Date(updatedAt)
    ensures forall k :: k in taskData && k !in {"id", "createdAt", "updatedAt"} ==> t[k] == taskData[k]
  {
    taskData + map["id" := Str(id), "createdAt" := Date(createdAt), "updatedAt" := Date(updatedAt)]
  }

  class TaskStore {
    var tasks: seq<Record>

    constructor()
      ensures tasks == []
    {
      tasks := [];
    }

    /** `addTask`: `uuid` is the value of `crypto.randomUUID()`, `created` and
        `updated` the two readings of `new Date()`. */
    method AddTask(taskData: Record, uuid: string, created: int, updated: int)
      modifies this
      ensures |tasks| == |old(tasks)| + 1
      ensures tasks[..|old(tasks)|] == old(tasks)
      ensures tasks[|old(tasks)|] == NewTask(taskData, uuid, created, updated)
    {
      tasks := tasks + [NewTask(taskData, uuid, created, updated)];
    }

    /** `updateTask`: `now` is the reading of `new Date()`. */
    method UpdateTask(id: string, updates: Record, now: int)
      modifies this
      ensures tasks == MergeById(old(tasks), id, updates, now)
    {
      tasks := MergeById(tasks, id, updates, now);
    }

    /** `deleteTask` */
    method DeleteTask(id: string)
      modifies this
      ensures tasks == RemoveById(old(tasks), id)
    {
      tasks := RemoveById(tasks, id);
    }
  }

  /** A task added under a UUID no listed task carries keeps the ids distinct. */
  lemma AddFreshKeepsDistinct(tasks: seq<Record>, taskData: Record, uuid: string, created: int, updated: int)
    requires DistinctIds(tasks)
    requires forall i :: 0 <= i < |tasks| ==> !HasId(tasks[i], uuid)
    ensures DistinctIds(tasks + [NewTask(taskData, uuid, created, updated)])
  {
    AppendFreshKeepsDistinct(tasks, NewTask(taskData, uuid, created, updated), uuid);
  }

  /** `updatedAt` is the clock's value even when `updates` carries its own,
      because it is written after the spread. */
  lemma UpdatedAtAlwaysFromClock(tasks: seq<Record>, id: string, updates: Record, now: int, i: nat)
    requires i < |tasks| && HasId(tasks[i], id)
    ensures MergeById(tasks, id, updates, now)[i]["updatedAt"] == Date(now)
  {
  }

  /** Updating an id no task has leaves the list as it was. */
  lemma {:induction false} UpdateAbsentId(tasks: seq<Record>, id: string, updates: Record, now: int)
    requires forall i :: 0 <= i < |tasks| ==> !HasId(tasks[i], id)
    ensures MergeById(tasks, id, updates, now) == tasks
  {
    if tasks != [] {
      UpdateAbsentId(tasks[1..], id, updates, now);
    }
  }

  /** An update without an `id` key keeps every task's id, so distinct ids stay distinct. */
  lemma UpdateKeepsIds(tasks: seq<Record>, id: string, updates: Record, now: int)
    requires "id" !in updates
    ensures forall i :: 0 <= i < |tasks| ==> Get(MergeById(tasks, id, updates, now)[i], "id") == Get(tasks[i], "id")
    ensures DistinctIds(tasks) ==> DistinctIds(MergeById(tasks, id, updates, now))
  {
  }
}
