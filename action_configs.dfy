/** The dashboard's card actions for tasks, projects and objectives: which
    actions each entity gets, and the store calls each one makes. An action
    awaits its update or delete and then starts a re-fetch; when the awaited
    call throws, no re-fetch follows. */
module ActionConfigs {
  import opened Values
  import opened Remote
  import opened Popover

  datatype EntityKind = TaskEntity | ProjectEntity | ObjectiveEntity

  /** `createTaskActions`, `createProjectActions`, `createObjectiveActions`. */
  function Actions(kind: EntityKind): (r: seq<Action>)
    ensures |r| == 3
    ensures r[0] == Action("Mark In Progress", None)
    ensures r[2] == Action("Delete", Some("destructive"))
    ensures kind == TaskEntity ==> r[1] == Action("Mark Complete", None)
    ensures kind != TaskEntity ==> r[1] == Action("Update Progress", None)
  {
    [Action("Mark In Progress", None),
     if kind == TaskEntity then Action("Mark Complete", None) else Action("Update Progress", None),
     Action("Delete", Some("destructive"))]
  }

  /** `Math.min(100, (item.progress || 0) + 10)` */
  function NextProgress(progress: Value): (r: int)
    ensures r <= 100
    ensures NumberOrZero(progress) <= 90 ==> r == NumberOrZero(progress) + 10
    ensures NumberOrZero(progress) >= 90 ==> r == 100
  {
    var p := NumberOrZero(progress) + 10;
    if p < 100 then p else 100
  }

  /** The calls action `i` of `kind` makes for `item`; `threw` says whether
      the awaited update or delete threw. */
  function Run(kind: EntityKind, i: nat, item: Record, threw: bool): (calls: seq<Call>)
    requires i < 3
    ensures |calls| == (if threw then 1 else 2)
    ensures !threw ==> calls[1] == Refetch
    ensures i == 0 ==> calls[0] == Update(Get(item, "id"), item["status" := Str("in_progress")])
    ensures i == 1 && kind == TaskEntity ==> calls[0] == Update(Get(item, "id"), item["status" := Str("completed")])
    ensures i == 1 && kind != TaskEntity ==>
      calls[0] == Update(Get(item, "id"), item["progress" := Num(NextProgress(Get(item, "progress")))])
    ensures i == 2 ==> calls[0] == Delete(Get(item, "id"))
  {
    var id := Get(item, "id");
    var first :=
      if i == 0 then Update(id, item["status" := Str("in_progress")])
      else if i == 1 && kind == TaskEntity then Update(id, item["status" := Str("completed")])
      else if i == 1 then Update(id, item["progress" := Num(NextProgress(Get(item, "progress")))])
      else Delete(id);
    if threw then [first] else [first, Refetch]
  }

  /** Every update an action sends keeps the item's other fields: it differs
      from the item in the status or the progress only. */
  lemma UpdatesKeepOtherFields(kind: EntityKind, i: nat, item: Record, threw: bool, k: string)
    requires i < 3 && Run(kind, i, item, threw)[0].Update?
    requires k in item && k != "status" && k != "progress"
    ensures k in Run(kind, i, item, threw)[0].patch && Run(kind, i, item, threw)[0].patch[k] == item[k]
  {
  }

  /** "Update Progress" pressed `k` times on an item whose progress is the
      number `p`, each time on the re-fetched item. */
  function Pressed(p: int, k: nat): int
    decreases k
  {
    if k == 0 then p else Pressed(NextProgress(Num(p)), k - 1)
  }

  /** Progress rises by ten per press and stops at 100. */
  lemma {:induction false} PressedReaches100(p: int, k: nat)
    requires 0 <= p <= 100
    ensures Pressed(p, k) == if p + 10 * k < 100 then p + 10 * k else 100
    decreases k
  {
    if k > 0 {
      PressedReaches100(NextProgress(Num(p)), k - 1);
    }
  }

  /** Progress never leaves 0..100 under "Update Progress", once inside. */
  lemma ProgressStaysInRange(progress: Value)
    requires Truthy(progress) ==> progress.Num? && 0 <= progress.n <= 100
    ensures 0 <= NextProgress(progress) <= 100
    ensures NextProgress(progress) >= NumberOrZero(progress)
  {
  }
}
