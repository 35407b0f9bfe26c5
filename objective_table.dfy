/** The objectives table: its columns, the custom cell renderer, the four
    row actions and the projection of a new objective. It is built on the
    plain table (`BaseTableSystem`), whose 'Add New' button hands the click
    event itself to the add callback. */
module ObjectiveTable {
  import opened Values
  import opened ObjectiveTypes
  import opened Popover
  import opened Remote
  import opened BaseTableSystem
  import BaseTable
  import TableActionPopover
  import ApiRoutes

  /** `columns`: seven plain columns, none with its own renderer. */
  const Columns: seq<Column> := [
    Column("title", "Title", None),
    Column("status", "Status", None),
    Column("priority", "Priority", None),
    Column("progress", "Progress", None),
    Column("dueDate", "Due Date", None),
    Column("description", "Description", None),
    Column("updatedAt", "Last Updated", None)]

  /** The class of the status span, as the inline conditional picks it. */
  function StatusClass(status: string): (c: string)
    ensures c in {"text-green-600", "text-blue-600", "text-gray-600"}
    ensures c == "text-green-600" <==> status == "completed"
    ensures c == "text-blue-600" <==> status == "in_progress"
  {
    if status == "completed" then "text-green-600"
    else if status == "in_progress" then "text-blue-600"
    else "text-gray-600"
  }

  /** The class of the priority span: anything but the three named
      priorities is green. */
  function PriorityClass(priority: string): (c: string)
    ensures c == "text-red-600" <==> priority == "critical"
    ensures c == "text-orange-600" <==> priority == "high"
    ensures c == "text-yellow-600" <==> priority == "medium"
    ensures c == "text-green-600" <==> priority !in {"critical", "high", "medium"}
  {
    if priority == "critical" then "text-red-600"
    else if priority == "high" then "text-orange-600"
    else if priority == "medium" then "text-yellow-600"
    else "text-green-600"
  }

  /** The text of the status span. */
  function StatusText(status: string): (r: string)
    ensures status == "in_progress" ==> r == "In Progress"
    ensures status != "in_progress" ==> |r| == |status| && (status != "" ==> r[0] == UpperChar(status[0]) && r[1..] == status[1..])
  {
    if status == "in_progress" then "In Progress" else Capitalize(status)
  }

  /** `renderCustomCell(item, key)`: a styled span for status and priority, a
      bar for progress, the locale date for a truthy due date, and nothing
      for every other key. */
  function RenderCustomCell(item: Record, key: string, parse: string -> int): (r: Node)
    ensures r.NullNode? <==>
      key != "status" && key != "priority" && key != "progress" && !(key == "dueDate" && Truthy(Get(item, key)))
    ensures key == "status" ==> r == Span(StatusClass(ToJsString(Get(item, key))), StatusText(ToJsString(Get(item, key))))
    ensures key == "priority" ==> r == Span(PriorityClass(ToJsString(Get(item, key))), Capitalize(ToJsString(Get(item, key))))
    ensures key == "progress" ==> r == ProgressBar(ToJsString(Get(item, key)) + "%")
    ensures key == "dueDate" && Truthy(Get(item, key)) ==> r == LocaleDate(TimeOf(Get(item, key), parse))
  {
    var value := Get(item, key);
    if key == "status" then Span(StatusClass(ToJsString(value)), StatusText(ToJsString(value)))
    else if key == "priority" then Span(PriorityClass(ToJsString(value)), Capitalize(ToJsString(value)))
    else if key == "progress" then ProgressBar(ToJsString(value) + "%")
    else if key == "dueDate" && Truthy(value) then LocaleDate(TimeOf(value, parse))
    else NullNode
  }

  /** The renderer as the table receives it. */
  function Custom(parse: string -> int): (Record, string) -> Node {
    (item: Record, key: string) => RenderCustomCell(item, key, parse)
  }

  /** The inline styling and labels agree with the shared mappings: the
      status class is `getStatusColor`, the labels are `formatStatus` and
      `formatPriority`, and the priority class is `getPriorityColor` on the
      four priorities; elsewhere the table shows green where
      `getPriorityColor` has no colour. */
  lemma CellStylesAgreeWithTypes(status: string, priority: string)
    ensures StatusClass(status) == StatusColor(status)
    ensures StatusText(status) == FormatStatus(status)
    ensures Capitalize(priority) == FormatPriority(priority)
    ensures IsValidPriority(priority) ==> PriorityColor(priority) == Some(PriorityClass(priority))
    ensures !IsValidPriority(priority) ==> PriorityColor(priority) == None && PriorityClass(priority) == "text-green-600"
  {
    PriorityColorTotalAndDistinct(priority, priority);
  }

  /** A row of the table: the title and description as text, the status as
      its styled label, the due date as a locale date when set and as the
      text of `String(dueDate)` otherwise ("null" for a cleared date), and
      the action popover at the end. */
  lemma RowOfObjective(item: Record, parse: string -> int)
    ensures |Row(Columns, item, Some(Custom(parse)))| == 8
    ensures Get(item, "title").Str? ==> Row(Columns, item, Some(Custom(parse)))[0] == Text(Get(item, "title").s)
    ensures Row(Columns, item, Some(Custom(parse)))[1] ==
      Span(StatusColor(ToJsString(Get(item, "status"))), FormatStatus(ToJsString(Get(item, "status"))))
    ensures Truthy(Get(item, "dueDate")) ==>
      Row(Columns, item, Some(Custom(parse)))[4] == LocaleDate(TimeOf(Get(item, "dueDate"), parse))
    ensures Get(item, "dueDate") == Null ==> Row(Columns, item, Some(Custom(parse)))[4] == Text("null")
    ensures Row(Columns, item, Some(Custom(parse)))[7] == Element("BaseTableActionPopover", "")
  {
    var custom := Some(Custom(parse));
    RowShape(Columns, item, custom, 0);
    RowShape(Columns, item, custom, 1);
    RowShape(Columns, item, custom, 4);
    CellStylesAgreeWithTypes(ToJsString(Get(item, "status")), "");
    assert Custom(parse)(item, "title") == NullNode;
    assert NodeTruthy(Custom(parse)(item, "status"));
  }

  /** `actions`, in order. */
  const Actions: seq<Action> := [
    Action("Modify", Some("default")),
    Action("Mark In Progress", Some("default")),
    Action("Mark Complete", Some("default")),
    Action("Delete", Some("destructive"))]

  /** The store call action `i` makes for the objective it is given: 'Modify'
      sends the whole objective, the two 'Mark' actions a status-only patch,
      'Delete' the id alone. None of them re-fetches. */
  function ActionCall(i: nat, objective: Record): (c: Call)
    requires i < |Actions|
    ensures i == 0 ==> c == Update(Get(objective, "id"), objective)
    ensures i == 1 ==> c == Update(Get(objective, "id"), map["status" := Str("in_progress")])
    ensures i == 2 ==> c == Update(Get(objective, "id"), map["status" := Str("completed")])
    ensures i == 3 ==> c == Delete(Get(objective, "id"))
  {
    var id := Get(objective, "id");
    if i == 0 then Update(id, objective)
    else if i == 1 then Update(id, map["status" := Str("in_progress")])
    else if i == 2 then Update(id, map["status" := Str("completed")])
    else Delete(id)
  }

  /** Through the row popover: 'Modify' only opens the dialog, whose Save
      hands this table's first action the normalised draft; the two 'Mark'
      buttons send a status-only patch for the row's id, carrying a valid
      status; 'Delete' sends the row's id. */
  lemma ActionsThroughPopover(item: Record, draft: Record)
    ensures TableActionPopover.TableDispatch(Actions, 0, item) == OpenEditor && FindModify(Actions) == Some(0)
    ensures ActionCall(0, TableActionPopover.SavePayload(draft)) == Update(Get(draft, "id"), TableActionPopover.SavePayload(draft))
    ensures forall i :: 1 <= i <= 2 ==>
      var call := ActionCall(i, TableActionPopover.TableDispatch(Actions, i, item).payload);
      call.Update? && call.id == Get(item, "id") && call.patch.Keys == {"status"} && IsValidStatus(call.patch["status"].s)
    ensures ActionCall(3, TableActionPopover.TableDispatch(Actions, 3, item).payload) == Delete(Get(item, "id"))
  {
    assert Actions[0].caption == "Modify";
  }

  const AddedKeys: set<string> := {"title", "description", "status", "priority", "progress", "dueDate"}

  /** `handleAddNewObjective(objectiveData)`: the six fields of the
      objective, read as they are; no id and no timestamps. */
  function ProjectForAdd(data: Record): (r: Record)
    ensures r.Keys == AddedKeys
    ensures forall k :: k in r ==> r[k] == Get(data, k)
  {
    map k | k in AddedKeys :: Get(data, k)
  }

  /** `defaultNewItem` */
  const DefaultNewItem: Record := map[
    "title" := Str(""), "description" := Str(""), "status" := Str("todo"),
    "priority" := Str("medium"), "progress" := Num(0), "dueDate" := Null]

  /** The record the plain table's 'Add New' button passes to
      `handleAddNewObjective` is the click event, which has none of the six
      fields: every projected field is `undefined`, the request body sent is
      `{}`, and the data the route hands to `create` carries no title and
      differs from the table's default item. Whether the database accepts
      that data is not part of this model. */
  lemma AddNewAsWritten(event: Record, parse: string -> int, iso: int -> string)
    requires forall k :: k in AddedKeys ==> k !in event
    ensures forall k :: k in ProjectForAdd(event) ==> ProjectForAdd(event)[k] == Undefined
    ensures Serialized(ProjectForAdd(event), iso) == map[]
    ensures ApiRoutes.CreateData(Serialized(ProjectForAdd(event), iso), parse)["title"] == Undefined
    ensures ApiRoutes.CreateData(Serialized(ProjectForAdd(event), iso), parse) != ProjectForAdd(DefaultNewItem)
  {
    var body := Serialized(ProjectForAdd(event), iso);
    assert body == map[];
    ApiRoutes.CreateFromEmptyBody(parse);
    assert ProjectForAdd(DefaultNewItem)["title"] == Str("");
  }

  /** The default item, with its status normalised as the add dialog does,
      projects to `DEFAULT_OBJECTIVE`. */
  lemma DefaultItemProjectsToDefault()
    ensures ProjectForAdd(BaseTable.SubmittedItem(DefaultNewItem)) == DefaultObjective
  {
    assert IsValidStatus("todo");
    assert BaseTable.Normalize("todo") == "todo";
    var sent := ProjectForAdd(BaseTable.SubmittedItem(DefaultNewItem));
    assert sent.Keys == DefaultObjective.Keys;
  }

  /** `DEFAULT_OBJECTIVE` has no `undefined` and no Date field, so it survives
      `JSON.stringify` and the route's defaults unchanged. */
  lemma DefaultObjectiveKeptByRoute(parse: string -> int, iso: int -> string)
    ensures Serialized(DefaultObjective, iso) == DefaultObjective
    ensures ApiRoutes.CreateData(DefaultObjective, parse) == DefaultObjective
  {
    var stored := ApiRoutes.CreateData(DefaultObjective, parse);
    assert stored.Keys == DefaultObjective.Keys;
  }

  /** The add flow as evidently intended: the button opens the table's add
      dialog, seeded with `defaultNewItem`, and its submission is projected.
      Submitting it untouched sends `DEFAULT_OBJECTIVE`, and the create data
      the route builds is exactly that. */
  method AddThroughDialog(parse: string -> int, iso: int -> string) returns (sent: Record)
    ensures sent == DefaultObjective
    ensures Serialized(sent, iso) == sent
    ensures ApiRoutes.CreateData(Serialized(sent, iso), parse) == DefaultObjective
  {
    var form := new BaseTable.AddForm(true, Some(DefaultNewItem));
    form.Open();
    var submitted := form.AddNew();
    DefaultItemProjectsToDefault();
    DefaultObjectiveKeptByRoute(parse, iso);
    sent := ProjectForAdd(submitted.value);
  }
}
