/** The generic table with its "Add New" dialog: the status label mapping,
    the cell formatter that relabels status, the add-field skip list, and the
    dialog's state (`isAddingNew`, `newItem`, `dates`). */
module BaseTable {
  import opened Values
  import opened ListOps
  import opened ObjectiveTypes
  import opened DateFields
  import BaseTableSystem

  /** `normalizeStatus`: display spellings (any case) to stored statuses;
      anything else is returned unchanged. */
  function Normalize(status: string): (r: string)
    ensures r == status || IsValidStatus(r)
    ensures IsValidStatus(status) ==> r == status
  {
    LowerOfStoredNames();
    match Lower(status)
    case "in progress" => "in_progress"
    case "in-progress" => "in_progress"
    case "todo" => "todo"
    case "completed" => "completed"
    case _ => status
  }

  /** `denormalizeStatus`: stored statuses (any case) to display labels;
      anything else is returned unchanged. */
  function Denormalize(status: string): (r: string)
    ensures r == status || r in {"In Progress", "Todo", "Completed"}
    ensures IsValidStatus(status) ==> r == FormatStatus(status)
  {
    LowerOfStoredNames();
    FormatStatusLabels();
    match Lower(status)
    case "in_progress" => "In Progress"
    case "todo" => "Todo"
    case "completed" => "Completed"
    case _ => status
  }

  /** Normalising yields a valid status exactly for the accepted spellings
      (in any case) and for the stored names themselves. */
  lemma NormalizeValid(s: string)
    ensures IsValidStatus(Normalize(s)) <==>
      Lower(s) in {"in progress", "in-progress", "todo", "completed"} || IsValidStatus(s)
  {
    LowerOfStoredNames();
  }

  /** `normalizeStatus` is idempotent. */
  lemma NormalizeIdempotent(s: string)
    ensures Normalize(Normalize(s)) == Normalize(s)
  {
    var l := Lower(s);
    if l == "in progress" || l == "in-progress" {
      assert Normalize(s) == "in_progress";
      LowerInProgress();
    } else if l == "todo" {
      assert Normalize(s) == "todo";
      LowerTodo();
    } else if l == "completed" {
      assert Normalize(s) == "completed";
      LowerCompleted();
    } else {
      assert Normalize(s) == s;
    }
  }

  /** The display label of each status normalises back to the status, and
      each label is a fixed point of labelling its normal form. */
  lemma LabelRoundTrip(st: Status)
    ensures Normalize(Denormalize(StatusName(st))) == StatusName(st)
    ensures Denormalize(Normalize(Denormalize(StatusName(st)))) == Denormalize(StatusName(st))
    ensures Denormalize(StatusName(st)) == FormatStatus(StatusName(st))
  {
    LowerOfStoredNames();
    LowerOfLabels();
    FormatStatusLabels();
  }

  /** `formatCellValue` of this table: like the plain table's, except that the
      status column is relabelled. */
  function FormatCellValue(item: Record, key: string, custom: Option<(Record, string) -> BaseTableSystem.Node>): (r: BaseTableSystem.Node)
    ensures key == "actions" ==> r == BaseTableSystem.Text("")
    ensures key != "actions" && custom.Some? && BaseTableSystem.NodeTruthy(custom.value(item, key)) ==> r == custom.value(item, key)
    ensures key == "status" && (custom.None? || !BaseTableSystem.NodeTruthy(custom.value(item, key))) ==>
      r == BaseTableSystem.Text(Denormalize(ToJsString(Get(item, "status"))))
    ensures key != "status" ==> r == BaseTableSystem.FormatCellValue(item, key, custom)
  {
    if key == "actions" then BaseTableSystem.Text("")
    else if custom.Some? && BaseTableSystem.NodeTruthy(custom.value(item, key)) then custom.value(item, key)
    else if key == "status" then BaseTableSystem.Text(Denormalize(ToJsString(Get(item, key))))
    else BaseTableSystem.FormatCellValue(item, key, custom)
  }

  /** Keys the add dialog never shows as inputs. */
  const AddFormSkipped: set<string> := {"startOn", "started", "dueDate", "id", "createdAt", "updatedAt", "actions"}

  /** The keys of the columns that get an input in the add dialog, in column order. */
  function AddFieldColumns(columnKeys: seq<string>): (r: seq<string>)
    ensures forall i :: 0 <= i < |r| ==> r[i] !in AddFormSkipped && r[i] in columnKeys
    ensures forall i :: 0 <= i < |columnKeys| && columnKeys[i] !in AddFormSkipped ==> columnKeys[i] in r
  {
    Filter(columnKeys, k => k !in AddFormSkipped)
  }

  /** What `handleAddNew` passes on: the pending item with its status
      normalised, or 'todo' when the status is missing or empty. */
  function SubmittedItem(newItem: Record): (r: Record)
    ensures r.Keys == newItem.Keys + {"status"}
    ensures forall k :: k in newItem && k != "status" ==> r[k] == newItem[k]
  {
    var status := Get(newItem, "status");
    newItem["status" := Str(if Truthy(status) then Normalize(ToJsString(status)) else "todo")]
  }

  /** The submitted status is 'todo' for a missing or empty status, and the
      normal form of the given spelling otherwise; a status picked from the
      dialog's select, or left at its default, is always valid. */
  lemma SubmittedStatus(newItem: Record)
    ensures !Truthy(Get(newItem, "status")) ==> SubmittedItem(newItem)["status"] == Str("todo")
    ensures Get(newItem, "status").Str? && Get(newItem, "status").s != "" ==>
      SubmittedItem(newItem)["status"] == Str(Normalize(Get(newItem, "status").s))
    ensures !Truthy(Get(newItem, "status")) || (Get(newItem, "status").Str? && IsValidStatus(Get(newItem, "status").s))
      ==> IsValidStatus(SubmittedItem(newItem)["status"].s)
  {
    var status := Get(newItem, "status");
    if status.Str? && IsValidStatus(status.s) {
      LowerOfStoredNames();
    }
  }

  /** What the add dialog shows for the field `key`: the status and priority
      selects fall back to 'todo' and 'medium', other inputs to the empty text. */
  function FieldDisplay(newItem: Record, key: string): (t: string)
    ensures key == "status" && !Truthy(Get(newItem, key)) ==> t == "todo"
    ensures key == "priority" && !Truthy(Get(newItem, key)) ==> t == "medium"
    ensures key != "status" && key != "priority" ==> t == InputText(newItem, key)
    ensures Get(newItem, key).Str? && Get(newItem, key).s != "" ==> t == Get(newItem, key).s
  {
    if key == "status" then ToJsString(Or(Get(newItem, key), Str("todo")))
    else if key == "priority" then ToJsString(Or(Get(newItem, key), Str("medium")))
    else InputText(newItem, key)
  }

  /** The status the dialog shows is the status it submits, as long as the
      field holds nothing or one of the select's options. */
  lemma ShownStatusIsSubmitted(newItem: Record)
    requires !Truthy(Get(newItem, "status")) || (Get(newItem, "status").Str? && IsValidStatus(Get(newItem, "status").s))
    ensures SubmittedItem(newItem)["status"] == Str(FieldDisplay(newItem, "status"))
  {
    SubmittedStatus(newItem);
    var status := Get(newItem, "status");
    if Truthy(status) {
      LowerOfStoredNames();
    }
  }

  /** The priority select shows 'medium' for an item without a priority, but
      the item submitted then still has no priority. */
  lemma ShownPriorityNotSubmitted(newItem: Record)
    requires "priority" !in newItem
    ensures FieldDisplay(newItem, "priority") == "medium"
    ensures "priority" !in SubmittedItem(newItem)
  {
  }

  /** The add dialog's state. `hasAddNewItem` says whether the `addNewItem`
      prop was given; `defaultNewItem` is the prop (`undefined` is None). */
  class AddForm {
    const hasAddNewItem: bool
    const defaultNewItem: Option<Record>
    var isAddingNew: bool
    var newItem: Record
    var dates: Dates

    constructor(hasAddNewItem: bool, defaultNewItem: Option<Record>)
      ensures this.hasAddNewItem == hasAddNewItem && this.defaultNewItem == defaultNewItem
      ensures !isAddingNew && newItem == defaultNewItem.GetOr(map[]) && dates == DefaultDates
    {
      this.hasAddNewItem := hasAddNewItem;
      this.defaultNewItem := defaultNewItem;
      isAddingNew := false;
      newItem := defaultNewItem.GetOr(map[]);
      dates := DefaultDates;
    }

    /** The "Add New" button, shown only when `addNewItem` is given. */
    method Open()
      requires hasAddNewItem
      modifies this
      ensures isAddingNew && newItem == old(newItem) && dates == old(dates)
    {
      isAddingNew := true;
    }

    /** Typing into (or selecting in) the input of `key`. */
    method SetField(key: string, text: string)
      modifies this
      ensures newItem == old(newItem)[key := Str(text)]
      ensures isAddingNew == old(isAddingNew) && dates == old(dates)
    {
      newItem := newItem[key := Str(text)];
    }

    /** `handleDateUpdate(key, patch)` */
    method UpdateDate(key: string, p: DatePatch)
      requires key in dates
      modifies this
      ensures dates == UpdateDates(old(dates), key, p)
      ensures newItem == MergeIntoItem(old(newItem), key, p)
      ensures isAddingNew == old(isAddingNew)
    {
      dates := UpdateDates(dates, key, p);
      newItem := MergeIntoItem(newItem, key, p);
    }

    /** `handleAddNew`: returns the item passed to `addNewItem`, if any. The
        dates are not reset. */
    method AddNew() returns (submitted: Option<Record>)
      modifies this
      ensures hasAddNewItem ==> (submitted == Some(SubmittedItem(old(newItem)))
        && newItem == defaultNewItem.GetOr(map[]) && !isAddingNew && dates == old(dates))
      ensures !hasAddNewItem ==> (submitted == None
        && newItem == old(newItem) && isAddingNew == old(isAddingNew) && dates == old(dates))
    {
      if hasAddNewItem {
        submitted := Some(SubmittedItem(newItem));
        newItem := defaultNewItem.GetOr(map[]);
        isAddingNew := false;
      } else {
        submitted := None;
      }
    }

    /** Closing the dialog other than by Cancel (`onOpenChange(false)`): the
        pending item and the dates are kept for the next opening. */
    method Dismiss()
      modifies this
      ensures !isAddingNew && newItem == old(newItem) && dates == old(dates)
    {
      isAddingNew := false;
    }

    /** The dialog's Cancel button: close, and reset the item and the dates. */
    method Cancel()
      modifies this
      ensures !isAddingNew && newItem == defaultNewItem.GetOr(map[]) && dates == DefaultDates
    {
      isAddingNew := false;
      newItem := defaultNewItem.GetOr(map[]);
      dates := DefaultDates;
    }
  }
}
