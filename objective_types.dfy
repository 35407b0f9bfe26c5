/** The closed status and priority vocabulary with its display labels and
    colour classes. */
module ObjectiveTypes {
  import opened Values

  datatype Status = Todo | InProgress | Completed
  datatype Priority = Low | Medium | High | Critical

  /** The stored spelling of each status. */
  function StatusName(s: Status): (r: string)
    ensures r in {"todo", "in_progress", "completed"}
  {
    match s
    case Todo => "todo"
    case InProgress => "in_progress"
    case Completed => "completed"
  }

  /** The stored spelling of each priority. */
  function PriorityName(p: Priority): string {
    match p
    case Low => "low"
    case Medium => "medium"
    case High => "high"
    case Critical => "critical"
  }

  /** `isValidStatus`: membership in `['todo', 'in_progress', 'completed']`. */
  function IsValidStatus(status: string): (b: bool)
    ensures b <==> exists s: Status :: StatusName(s) == status
  {
    assert StatusName(Todo) == "todo" && StatusName(InProgress) == "in_progress" && StatusName(Completed) == "completed";
    status in ["todo", "in_progress", "completed"]
  }

  /** `isValidPriority`: membership in `['low', 'medium', 'high', 'critical']`. */
  function IsValidPriority(priority: string): (b: bool)
    ensures b <==> exists p: Priority :: PriorityName(p) == priority
  {
    assert PriorityName(Low) == "low" && PriorityName(Medium) == "medium";
    assert PriorityName(High) == "high" && PriorityName(Critical) == "critical";
    priority in ["low", "medium", "high", "critical"]
  }

  /** `formatStatus`: 'in_progress' reads "In Progress"; any other status is
      capitalised. */
  function FormatStatus(status: string): (r: string)
    ensures status == "in_progress" ==> r == "In Progress"
    ensures status != "in_progress" ==> |r| == |status| && (status != "" ==> r[0] == UpperChar(status[0]) && r[1..] == status[1..])
  {
    if status == "in_progress" then "In Progress" else Capitalize(status)
  }

  /** `formatPriority`: the first character upper-cased, the rest kept. */
  function FormatPriority(priority: string): (r: string)
    ensures |r| == |priority|
    ensures priority != "" ==> r[0] == UpperChar(priority[0]) && r[1..] == priority[1..]
  {
    Capitalize(priority)
  }

  /** `getPriorityColor`: the switch has no default, so anything outside the
      four priorities yields `undefined` (None). */
  function PriorityColor(priority: string): (c: Option<string>)
    ensures c.Some? <==> IsValidPriority(priority)
  {
    match priority
    case "critical" => Some("text-red-600")
    case "high" => Some("text-orange-600")
    case "medium" => Some("text-yellow-600")
    case "low" => Some("text-green-600")
    case _ => None
  }

  /** `getStatusColor` */
  function StatusColor(status: string): (c: string)
    ensures c in {"text-green-600", "text-blue-600", "text-gray-600"}
    ensures c == "text-green-600" <==> status == "completed"
    ensures c == "text-blue-600" <==> status == "in_progress"
  {
    match status
    case "completed" => "text-green-600"
    case "in_progress" => "text-blue-600"
    case _ => "text-gray-600"
  }

  /** `DEFAULT_OBJECTIVE` */
  const DefaultObjective: Record := map[
    "title" := Str(""), "description" := Str(""), "status" := Str("todo"),
    "priority" := Str("medium"), "progress" := Num(0), "dueDate" := Null]

  /** The colour of a priority is defined exactly on the four priorities, and
      the four colours are distinct. */
  lemma PriorityColorTotalAndDistinct(a: string, b: string)
    ensures PriorityColor(a).Some? <==> IsValidPriority(a)
    ensures PriorityColor(a).Some? && PriorityColor(b).Some? && a != b ==> PriorityColor(a) != PriorityColor(b)
  {
  }

  /** Completed and in-progress get their own colours; every other string is gray. */
  lemma StatusColorCases(s: string)
    ensures StatusColor(s) == "text-gray-600" <==> s != "completed" && s != "in_progress"
    ensures StatusColor("completed") != StatusColor("in_progress")
  {
  }

  /** The labels of the three statuses. */
  lemma FormatStatusLabels()
    ensures FormatStatus("todo") == "Todo"
    ensures FormatStatus("completed") == "Completed"
    ensures FormatStatus("in_progress") == "In Progress"
  {
    assert UpperChar('t') == 'T' && UpperChar('c') == 'C';
  }

  /** The default objective has a valid status and priority, no progress and no due date. */
  lemma DefaultObjectiveIsValid()
    ensures IsValidStatus(DefaultObjective["status"].s) && DefaultObjective["status"] == Str(StatusName(Todo))
    ensures IsValidPriority(DefaultObjective["priority"].s) && DefaultObjective["priority"] == Str(PriorityName(Medium))
    ensures DefaultObjective["progress"] == Num(0) && DefaultObjective["dueDate"] == Null
  {
  }
}
