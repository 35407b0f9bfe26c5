/** The dashboard's "High Priority Projects" card: the first three projects
    of high or critical priority, in store order, each with status actions. */
module DashboardProjects {
  import opened Values
  import opened ListOps
  import opened Remote
  import opened EntityList

  /** `projects.filter(high or critical).slice(0, 3)` */
  function Shown(projects: seq<Record>): (r: seq<Record>)
    ensures |r| == if Count(projects, IsHighPriority) < 3 then Count(projects, IsHighPriority) else 3
    ensures forall i :: 0 <= i < |r| ==> IsHighPriority(r[i]) && r[i] in projects
    ensures forall i :: 0 <= i < |r| ==> r[i] == Filter(projects, IsHighPriority)[i]
  {
    Take(Filter(projects, IsHighPriority), 3)
  }

  /** With at most three high-priority projects, all of them are shown. */
  lemma FewAreAllShown(projects: seq<Record>)
    requires Count(projects, IsHighPriority) <= 3
    ensures forall j :: 0 <= j < |projects| && IsHighPriority(projects[j]) ==> projects[j] in Shown(projects)
  {
    assert Shown(projects) == Filter(projects, IsHighPriority);
  }

  /** "Mark In Progress" (`i == 0`) and "Mark Complete" (`i == 1`): a status-only update. */
  function StatusAction(i: nat, p: Record): (c: Call)
    requires i < 2
    ensures c.Update? && c.id == Get(p, "id") && c.patch.Keys == {"status"}
    ensures c.patch["status"] == Str(if i == 0 then "in_progress" else "completed")
  {
    Update(Get(p, "id"), map["status" := Str(if i == 0 then "in_progress" else "completed")])
  }
}
