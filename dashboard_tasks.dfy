/** The dashboard's "Recent Tasks" card: the six most recently updated tasks
    not yet completed, each with a "Mark Complete" action. */
module DashboardTasks {
  import opened Values
  import opened ListOps
  import opened Remote
  import opened EntityList

  predicate NotCompleted(t: Record) {
    !StatusIs(t, "completed")
  }

  /** `tasks.filter(not completed).sort(by updatedAt, newest first).slice(0, 6)`;
      `parse` reads a date string. */
  function Recent(tasks: seq<Record>, parse: string -> int): (r: seq<Record>)
    ensures |r| == if Count(tasks, NotCompleted) < 6 then Count(tasks, NotCompleted) else 6
    ensures forall i :: 0 <= i < |r| ==> NotCompleted(r[i]) && r[i] in tasks
    ensures forall i, j :: 0 <= i < j < |r| ==>
      TimeOf(Get(r[i], "updatedAt"), parse) >= TimeOf(Get(r[j], "updatedAt"), parse)
    ensures multiset(r) <= multiset(Filter(tasks, NotCompleted))
  {
    TopBy(tasks, NotCompleted, (t: Record) => TimeOf(Get(t, "updatedAt"), parse), 6)
  }

  /** The six shown are the most recently updated: an open task that is not
      shown was updated no later than any shown one. */
  lemma RecentAreTheNewest(tasks: seq<Record>, t: Record, parse: string -> int)
    requires t in tasks && NotCompleted(t) && t !in Recent(tasks, parse)
    ensures forall i :: 0 <= i < |Recent(tasks, parse)| ==>
      TimeOf(Get(Recent(tasks, parse)[i], "updatedAt"), parse) >= TimeOf(Get(t, "updatedAt"), parse)
  {
    TopByHoldsLargest(tasks, NotCompleted, (x: Record) => TimeOf(Get(x, "updatedAt"), parse), 6, t);
  }

  /** "Mark Complete": `updateTask(id, { status: 'completed' })`. */
  function MarkComplete(t: Record): (c: Call)
    ensures c == Update(Get(t, "id"), map["status" := Str("completed")])
  {
    Update(Get(t, "id"), map["status" := Str("completed")])
  }

  /** Once the store has replaced the task with the completed one the server
      returned, the task with that id is no longer among the recent tasks. */
  lemma CompletedTaskLeavesRecent(tasks: seq<Record>, id: string, updated: Record, parse: string -> int)
    requires StatusIs(updated, "completed")
    ensures forall i :: 0 <= i < |Recent(ReplaceById(tasks, id, updated), parse)| ==>
      !HasId(Recent(ReplaceById(tasks, id, updated), parse)[i], id)
  {
    var after := ReplaceById(tasks, id, updated);
    var shown := Recent(after, parse);
    forall i | 0 <= i < |shown|
      ensures !HasId(shown[i], id)
    {
      var j :| 0 <= j < |after| && after[j] == shown[i];
    }
  }
}
