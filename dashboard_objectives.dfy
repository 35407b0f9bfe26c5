/** The dashboard's "Objectives in Progress" card: the three in-progress
    objectives with the most progress, each with an "Update Progress" action
    that sends only the new progress. */
module DashboardObjectives {
  import opened Values
  import opened ListOps
  import opened Remote
  import opened EntityList
  import ActionConfigs

  /** `o.progress || 0`, the sort key. */
  function ProgressKey(o: Record): int {
    NumberOrZero(Get(o, "progress"))
  }

  predicate InProgress(o: Record) {
    StatusIs(o, "in_progress")
  }

  /** `objectives.filter(in progress).sort(by progress, descending).slice(0, 3)` */
  function Shown(objectives: seq<Record>): (r: seq<Record>)
    ensures |r| == if Count(objectives, InProgress) < 3 then Count(objectives, InProgress) else 3
    ensures forall i :: 0 <= i < |r| ==> InProgress(r[i]) && r[i] in objectives
    ensures forall i, j :: 0 <= i < j < |r| ==> ProgressKey(r[i]) >= ProgressKey(r[j])
    ensures multiset(r) <= multiset(Filter(objectives, InProgress))
  {
    TopBy(objectives, InProgress, ProgressKey, 3)
  }

  /** Every in-progress objective that is not shown has no more progress
      than any shown one. */
  lemma ShownAreTheMostAdvanced(objectives: seq<Record>, o: Record)
    requires o in objectives && InProgress(o) && o !in Shown(objectives)
    ensures forall i :: 0 <= i < |Shown(objectives)| ==> ProgressKey(Shown(objectives)[i]) >= ProgressKey(o)
  {
    TopByHoldsLargest(objectives, InProgress, ProgressKey, 3, o);
  }

  /** "Update Progress": `updateObjective(id, { progress })`, with no re-fetch. */
  function UpdateProgress(o: Record): (c: Call)
    ensures c.Update? && c.id == Get(o, "id")
    ensures c.patch.Keys == {"progress"} && c.patch["progress"] == Num(ActionConfigs.NextProgress(Get(o, "progress")))
  {
    Update(Get(o, "id"), map["progress" := Num(ActionConfigs.NextProgress(Get(o, "progress")))])
  }
}
