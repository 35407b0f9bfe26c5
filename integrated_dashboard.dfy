/** The integrated dashboard: one section per entity kind, each shown as
    cards or as a table, with a per-section toggle between the two. */
module IntegratedDashboard {
  import opened Values
  import opened Popover
  import ActionConfigs

  datatype ViewMode = CardView | TableView

  datatype Section = Tasks | Projects | Objectives

  datatype ViewModes = ViewModes(tasks: ViewMode, projects: ViewMode, objectives: ViewMode) {
    function Of(s: Section): ViewMode {
      match s
      case Tasks => tasks
      case Projects => projects
      case Objectives => objectives
    }
  }

  function Flip(m: ViewMode): ViewMode {
    if m == CardView then TableView else CardView
  }

  /** `{ ...prev, [section]: prev[section] === 'card' ? 'table' : 'card' }` */
  function Toggled(modes: ViewModes, s: Section): (r: ViewModes)
    ensures r.Of(s) != modes.Of(s)
    ensures forall t :: t != s ==> r.Of(t) == modes.Of(t)
  {
    match s
    case Tasks => modes.(tasks := Flip(modes.tasks))
    case Projects => modes.(projects := Flip(modes.projects))
    case Objectives => modes.(objectives := Flip(modes.objectives))
  }

  /** Toggling a section twice restores every mode; toggles of different
      sections commute. */
  lemma ToggleLaws(modes: ViewModes, s: Section, t: Section)
    ensures Toggled(Toggled(modes, s), s) == modes
    ensures Toggled(Toggled(modes, s), t) == Toggled(Toggled(modes, t), s)
  {
  }

  /** `title.toLowerCase().slice(0, -1)`: the prop name a card gets its item under. */
  function PropName(title: string): (r: string)
    ensures |title| > 0 ==> |r| == |title| - 1 && forall i :: 0 <= i < |r| ==> r[i] == LowerChar(title[i])
    ensures title == "" ==> r == ""
  {
    var lower := Lower(title);
    if |lower| == 0 then "" else lower[..|lower| - 1]
  }

  /** The section titles name the props the card components read. */
  lemma SectionPropNames()
    ensures PropName("Projects") == "project"
    ensures PropName("Objectives") == "objective"
    ensures PropName("Tasks") == "task"
  {
    var p := PropName("Projects");
    assert p[0] == 'p' && p[1] == 'r' && p[2] == 'o' && p[3] == 'j' && p[4] == 'e' && p[5] == 'c' && p[6] == 't';
    var o := PropName("Objectives");
    assert o[0] == 'o' && o[1] == 'b' && o[2] == 'j' && o[3] == 'e' && o[4] == 'c';
    assert o[5] == 't' && o[6] == 'i' && o[7] == 'v' && o[8] == 'e';
    var t := PropName("Tasks");
    assert t[0] == 't' && t[1] == 'a' && t[2] == 's' && t[3] == 'k';
  }

  /** What a section shows: a card per item, each with the item under the
      section's prop name and the section's actions, or the entity's table. */
  datatype SectionView = Cards(prop: string, items: seq<Record>, actions: seq<Action>) | Table

  function SectionTitle(s: Section): string {
    match s
    case Tasks => "Tasks"
    case Projects => "Projects"
    case Objectives => "Objectives"
  }

  function SectionKind(s: Section): ActionConfigs.EntityKind {
    match s
    case Tasks => ActionConfigs.TaskEntity
    case Projects => ActionConfigs.ProjectEntity
    case Objectives => ActionConfigs.ObjectiveEntity
  }

  /** `renderEntitySection(title, items, ..., actions, viewMode)` */
  function RenderSection(modes: ViewModes, s: Section, items: seq<Record>): (v: SectionView)
    ensures modes.Of(s) == TableView <==> v.Table?
    ensures modes.Of(s) == CardView ==>
      v == Cards(PropName(SectionTitle(s)), items, ActionConfigs.Actions(SectionKind(s)))
  {
    match modes.Of(s)
    case CardView => Cards(PropName(SectionTitle(s)), items, ActionConfigs.Actions(SectionKind(s)))
    case TableView => Table
  }

  /** `tasksLoading || projectsLoading || objectivesLoading` */
  predicate AnyLoading(tasksLoading: bool, projectsLoading: bool, objectivesLoading: bool) {
    tasksLoading || projectsLoading || objectivesLoading
  }

  class Dashboard {
    var viewModes: ViewModes

    constructor()
      ensures viewModes == ViewModes(CardView, CardView, CardView)
    {
      viewModes := ViewModes(CardView, CardView, CardView);
    }

    /** `onToggleView(section)` */
    method Toggle(s: Section)
      modifies this
      ensures viewModes == Toggled(old(viewModes), s)
    {
      viewModes := Toggled(viewModes, s);
    }
  }

  /** From the start, toggling the projects section shows the projects
      table while tasks and objectives stay as cards. */
  method ToggleProjectsScenario() returns (d: Dashboard)
    ensures d.viewModes == ViewModes(CardView, TableView, CardView)
  {
    d := new Dashboard();
    d.Toggle(Projects);
  }
}
