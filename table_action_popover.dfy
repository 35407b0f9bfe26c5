/** The table row's action popover. Besides 'Modify' it knows two status
    shortcuts, saves the draft with its status normalised, and its Cancel
    button throws the draft away. The draft is taken afresh from the item
    whenever the dialog opens or the item changes while it is open. */
module TableActionPopover {
  import opened Values
  import opened ObjectiveTypes
  import opened Popover
  import BaseTable

  /** A click on action `i`: 'Modify' opens the dialog; 'Mark In Progress'
      and 'Mark Complete' send the item with the status replaced; any other
      action gets the item as it is. */
  function TableDispatch(actions: seq<Action>, i: nat, item: Record): (e: Effect)
    requires i < |actions|
    ensures actions[i].caption == "Modify" <==> e == OpenEditor
    ensures actions[i].caption == "Mark In Progress" ==> e == Invoke(i, item["status" := Str("in_progress")])
    ensures actions[i].caption == "Mark Complete" ==> e == Invoke(i, item["status" := Str("completed")])
    ensures actions[i].caption !in {"Modify", "Mark In Progress", "Mark Complete"} ==> e == PlainDispatch(actions, i, item)
  {
    var name := actions[i].caption;
    if name == "Modify" then OpenEditor
    else if name == "Mark In Progress" then Invoke(i, item["status" := Str("in_progress")])
    else if name == "Mark Complete" then Invoke(i, item["status" := Str("completed")])
    else Invoke(i, item)
  }

  /** What 'Save Changes' sends: the draft with a truthy status normalised,
      and a falsy one replaced by `undefined`. */
  function SavePayload(draft: Record): (r: Record)
    ensures r.Keys == draft.Keys + {"status"}
    ensures forall k :: k in draft && k != "status" ==> r[k] == draft[k]
    ensures !Truthy(Get(draft, "status")) ==> r["status"] == Undefined
    ensures Get(draft, "status").Str? && Get(draft, "status").s != "" ==>
      r["status"] == Str(BaseTable.Normalize(Get(draft, "status").s))
  {
    var status := Get(draft, "status");
    draft["status" := if Truthy(status) then Str(BaseTable.Normalize(ToJsString(status))) else Undefined]
  }

  /** Every option of the status select, and every label the table shows,
      is saved as a valid status. */
  lemma SavedStatusValid(draft: Record, st: Status)
    ensures Get(draft, "status") == Str(StatusName(st)) ==> SavePayload(draft)["status"] == Str(StatusName(st))
    ensures Get(draft, "status") == Str(BaseTable.Denormalize(StatusName(st))) ==> SavePayload(draft)["status"] == Str(StatusName(st))
  {
    BaseTable.LabelRoundTrip(st);
    LowerOfStoredNames();
  }

  class TablePopover {
    const actions: seq<Action>
    var item: Record
    var isModifying: bool
    var modifiedItem: Record

    constructor(actions: seq<Action>, item: Record)
      ensures this.actions == actions && this.item == item
      ensures !isModifying && modifiedItem == item
    {
      this.actions := actions;
      this.item := item;
      isModifying := false;
      modifiedItem := item;
    }

    /** A click on action `i`. Opening the dialog takes a fresh draft from
        the item (the effect on `isModifying`); a click on 'Modify' while it
        is already open changes nothing. */
    method Click(i: nat) returns (invoked: Option<(nat, Record)>)
      requires i < |actions|
      modifies this
      ensures TableDispatch(actions, i, item) == OpenEditor ==>
        invoked == None && isModifying
        && modifiedItem == (if old(isModifying) then old(modifiedItem) else item)
      ensures TableDispatch(actions, i, item).Invoke? ==>
        invoked == Some((i, TableDispatch(actions, i, item).payload))
        && isModifying == old(isModifying) && modifiedItem == old(modifiedItem)
      ensures item == old(item)
    {
      var e := TableDispatch(actions, i, item);
      if e == OpenEditor {
        if !isModifying {
          isModifying := true;
          modifiedItem := item;
        }
        invoked := None;
      } else {
        invoked := Some((i, e.payload));
      }
    }

    /** The `item` prop changes; while the dialog is open the draft follows it. */
    method ItemChanged(newItem: Record)
      modifies this
      ensures item == newItem && isModifying == old(isModifying)
      ensures modifiedItem == (if isModifying then newItem else old(modifiedItem))
    {
      item := newItem;
      if isModifying {
        modifiedItem := newItem;
      }
    }

    /** Typing into (or selecting in) the field `key` of the dialog. */
    method Edit(key: string, text: string)
      requires key in EditableKeys(item)
      modifies this
      ensures modifiedItem == old(modifiedItem)[key := Str(text)]
      ensures item == old(item) && isModifying == old(isModifying)
    {
      modifiedItem := modifiedItem[key := Str(text)];
    }

    /** 'Save Changes' (`handleModify`): the first 'Modify' action gets the
        normalised draft and the dialog closes; without a 'Modify' action
        nothing happens. */
    method Save() returns (invoked: Option<(nat, Record)>)
      modifies this
      ensures FindModify(actions).Some? ==>
        invoked == Some((FindModify(actions).value, SavePayload(old(modifiedItem)))) && !isModifying
      ensures FindModify(actions).None? ==> invoked == None && isModifying == old(isModifying)
      ensures item == old(item) && modifiedItem == old(modifiedItem)
    {
      var m := FindModify(actions);
      if m.Some? {
        invoked := Some((m.value, SavePayload(modifiedItem)));
        isModifying := false;
      } else {
        invoked := None;
      }
    }

    /** The Cancel button (`handleClose`): close and reset the draft. */
    method Cancel()
      modifies this
      ensures !isModifying && modifiedItem == item && item == old(item)
    {
      isModifying := false;
      modifiedItem := item;
    }

    /** Closing the dialog by other means: the draft is kept. */
    method Dismiss()
      modifies this
      ensures !isModifying && modifiedItem == old(modifiedItem) && item == old(item)
    {
      isModifying := false;
    }
  }

  /** Opening the dialog, choosing "In Progress" in the status select and
      saving sends the item with the stored status 'in_progress'. */
  method EditStatusScenario(p: TablePopover) returns (invoked: Option<(nat, Record)>)
    requires !p.isModifying && "status" in p.item
    requires FindModify(p.actions).Some?
    modifies p
    ensures invoked == Some((FindModify(p.actions).value, p.item["status" := Str("in_progress")]))
    ensures !p.isModifying
  {
    var m := FindModify(p.actions);
    var clicked := p.Click(m.value);
    p.Edit("status", "in_progress");
    invoked := p.Save();
    LowerOfStoredNames();
    assert BaseTable.Normalize("in_progress") == "in_progress";
    assert p.item["status" := Str("in_progress")]["status" := Str("in_progress")] == p.item["status" := Str("in_progress")];
  }
}
