/** The data table's action popover. 'Modify' opens the edit dialog; every
    other action gets the item as it is. The draft is taken from the item
    once, when the popover is created, and never again: neither opening the
    dialog nor a change of the item refreshes it. Save sends the draft
    unchanged and Cancel only closes. Its status select offers 'todo',
    'in-progress' and 'completed'. */
module DataTableActionPopover {
  import opened Values
  import opened ObjectiveTypes
  import opened Popover
  import BaseTable

  /** The options of the data table dialog's status select. */
  const StatusOptions: seq<string> := ["todo", "in-progress", "completed"]

  /** 'in-progress' is not a stored status and this popover sends it as it
      is, while the table's normalisation would have mapped it. */
  lemma InProgressOptionNotAStatus()
    ensures IsValidStatus(StatusOptions[0]) && IsValidStatus(StatusOptions[2])
    ensures !IsValidStatus(StatusOptions[1])
    ensures BaseTable.Normalize(StatusOptions[1]) == "in_progress"
  {
    var r := Lower("in-progress");
    assert r[0] == 'i' && r[1] == 'n' && r[2] == '-' && r[3] == 'p';
    assert r[4] == 'r' && r[5] == 'o' && r[6] == 'g' && r[7] == 'r';
    assert r[8] == 'e' && r[9] == 's' && r[10] == 's';
    assert r == "in-progress";
  }

  class DataTablePopover {
    const actions: seq<Action>
    var item: Record
    var isModifying: bool
    var modifiedItem: Record

    constructor(actions: seq<Action>, item: Record)
      ensures this.actions == actions && this.item == item
      ensures !isModifying && modifiedItem == item
    {
      this.actions := actions;
      this.item := item;
      isModifying := false;
      modifiedItem := item;
    }

    /** A click on action `i`: 'Modify' opens the dialog on the current
        draft, any other action gets the item. */
    method Click(i: nat) returns (invoked: Option<(nat, Record)>)
      requires i < |actions|
      modifies this
      ensures PlainDispatch(actions, i, item) == OpenEditor ==> invoked == None && isModifying
      ensures PlainDispatch(actions, i, item).Invoke? ==> invoked == Some((i, item)) && isModifying == old(isModifying)
      ensures modifiedItem == old(modifiedItem) && item == old(item)
    {
      if actions[i].caption == "Modify" {
        isModifying := true;
        invoked := None;
      } else {
        invoked := Some((i, item));
      }
    }

    /** The `item` prop changes: the draft does not follow. */
    method ItemChanged(newItem: Record)
      modifies this
      ensures item == newItem && isModifying == old(isModifying) && modifiedItem == old(modifiedItem)
    {
      item := newItem;
    }

    /** Typing into (or selecting in) the field `key` of the dialog. */
    method Edit(key: string, text: string)
      requires key in EditableKeys(item)
      modifies this
      ensures modifiedItem == old(modifiedItem)[key := Str(text)]
      ensures item == old(item) && isModifying == old(isModifying)
    {
      modifiedItem := modifiedItem[key := Str(text)];
    }

    /** 'Save Changes': the first 'Modify' action gets the draft as it is and
        the dialog closes; without a 'Modify' action nothing happens. */
    method Save() returns (invoked: Option<(nat, Record)>)
      modifies this
      ensures FindModify(actions).Some? ==> invoked == Some((FindModify(actions).value, old(modifiedItem))) && !isModifying
      ensures FindModify(actions).None? ==> invoked == None && isModifying == old(isModifying)
      ensures item == old(item) && modifiedItem == old(modifiedItem)
    {
      var m := FindModify(actions);
      if m.Some? {
        invoked := Some((m.value, modifiedItem));
        isModifying := false;
      } else {
        invoked := None;
      }
    }

    /** Cancel, or closing the dialog: the draft is kept. */
    method Cancel()
      modifies this
      ensures !isModifying && modifiedItem == old(modifiedItem) && item == old(item)
    {
      isModifying := false;
    }
  }

  /** After the row's item has been replaced, opening the dialog and saving
      without edits sends the item the popover was created with, not the
      current one. */
  method StaleDraftScenario(actions: seq<Action>, first: Record, current: Record) returns (invoked: Option<(nat, Record)>)
    requires FindModify(actions).Some?
    ensures invoked == Some((FindModify(actions).value, first))
  {
    var p := new DataTablePopover(actions, first);
    p.ItemChanged(current);
    var clicked := p.Click(FindModify(actions).value);
    invoked := p.Save();
  }
}
