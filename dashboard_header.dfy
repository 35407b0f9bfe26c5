/** The dashboard's "New Task / New Project / New Objective" dialog: which
    kind is being added, the form, and the date fields it shows for projects
    and objectives. */
module DashboardHeader {
  import opened Values
  import opened DateFields

  datatype Kind = TaskKind | ProjectKind | ObjectiveKind

  /** The form a "New ..." button starts from. */
  function StartForm(kind: Kind): (r: Record)
    ensures "status" in r && r["status"] == Str("todo")
    ensures kind == TaskKind ==> r.Keys == {"status"}
    ensures kind != TaskKind ==> r.Keys == {"status", "priority", "progress"}
    ensures kind != TaskKind ==> Get(r, "priority") == Str("medium") && Get(r, "progress") == Num(0)
  {
    if kind == TaskKind then map["status" := Str("todo")]
    else map["status" := Str("todo"), "priority" := Str("medium"), "progress" := Num(0)]
  }

  /** The dialog's title. */
  function DialogTitle(isAdding: Option<Kind>): string {
    match isAdding
    case None => ""
    case Some(TaskKind) => "Add New Task"
    case Some(ProjectKind) => "Add New Project"
    case Some(ObjectiveKind) => "Add New Objective"
  }

  /** Only projects and objectives get the priority select and the dates. */
  predicate HasPriorityAndDates(isAdding: Option<Kind>) {
    isAdding == Some(ProjectKind) || isAdding == Some(ObjectiveKind)
  }

  /** The value the date handler writes into the form: the picked date only
      for a patch that itself enables the field, `null` otherwise. */
  function FormDateValue(p: DatePatch): (v: Value)
    ensures p.enabled != Some(true) ==> v == Null
    ensures v == Null || v.Date?
  {
    if p.enabled == Some(true) then DateValue(p.value) else Null
  }

  class Header {
    var isAdding: Option<Kind>
    var form: Record
    var dates: Dates

    constructor()
      ensures isAdding == None && form == map[] && dates == DefaultDates
    {
      isAdding, form, dates := None, map[], DefaultDates;
    }

    /** A "New ..." button: opens the dialog for `kind` with a fresh form. The
        dates are kept from any earlier dialog. */
    method Open(kind: Kind)
      modifies this
      ensures isAdding == Some(kind) && form == StartForm(kind) && dates == old(dates)
    {
      isAdding, form := Some(kind), StartForm(kind);
    }

    /** Typing a title or a description, or selecting a priority. */
    method SetField(key: string, text: string)
      requires key in {"title", "description", "priority"}
      modifies this
      ensures form == old(form)[key := Str(text)]
      ensures isAdding == old(isAdding) && dates == old(dates)
    {
      form := form[key := Str(text)];
    }

    /** `handleDateUpdate(key, patch)`: the dates always change; the form gets
        the key only while a project or an objective is being added. */
    method UpdateDate(key: string, p: DatePatch)
      requires key in dates
      modifies this
      ensures dates == UpdateDates(old(dates), key, p)
      ensures HasPriorityAndDates(isAdding) ==> form == old(form)[key := FormDateValue(p)]
      ensures !HasPriorityAndDates(isAdding) ==> form == old(form)
      ensures isAdding == old(isAdding)
    {
      dates := UpdateDates(dates, key, p);
      if isAdding == Some(ProjectKind) || isAdding == Some(ObjectiveKind) {
        form := form[key := FormDateValue(p)];
      }
    }

    /** `handleSubmit`: `call` is the callback invoked with the form, if any;
        `threw` says whether awaiting it threw. Only a call that did not throw
        closes the dialog and clears the form; with no kind set nothing is
        called and the form is cleared as well. */
    method Submit(threw: bool) returns (call: Option<(Kind, Record)>)
      modifies this
      ensures call == (if old(isAdding).Some? then Some((old(isAdding).value, old(form))) else None)
      ensures !threw ==> isAdding == None && form == map[]
      ensures threw ==> isAdding == old(isAdding) && form == old(form)
      ensures dates == old(dates)
    {
      if isAdding.Some? {
        call := Some((isAdding.value, form));
      } else {
        call := None;
      }
      if !threw {
        isAdding, form := None, map[];
      }
    }

    /** Cancel, or closing the dialog: only the kind is cleared. */
    method Cancel()
      modifies this
      ensures isAdding == None && form == old(form) && dates == old(dates)
    {
      isAdding := None;
    }
  }

  /** The date selector's "enable, then pick a date" leaves the field enabled
      with the date, while the form holds `null` for it: the value-only patch
      does not enable the field. */
  lemma PickedDateIsNullInForm(form: Record, dates: Dates, key: string, t: int)
    requires key in dates
    ensures UpdateDates(UpdateDates(dates, key, DatePatch(None, Absent, Some(true))), key, DatePatch(None, At(t), None))[key]
            == DateField(dates[key].caption, Some(t), true)
    ensures form[key := FormDateValue(DatePatch(None, Absent, Some(true)))][key := FormDateValue(DatePatch(None, At(t), None))][key] == Null
  {
  }

  /** Adding a task: the callback gets the task form with the typed title,
      and the dialog then closes with an empty form. */
  method AddTaskScenario(h: Header, title: string) returns (call: Option<(Kind, Record)>)
    modifies h
    ensures call == Some((TaskKind, map["status" := Str("todo"), "title" := Str(title)]))
    ensures h.isAdding == None && h.form == map[]
  {
    h.Open(TaskKind);
    h.SetField("title", title);
    call := h.Submit(false);
  }
}
