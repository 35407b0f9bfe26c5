/** The card's action popover. 'Modify' opens the edit dialog; every other
    action gets the item as it is. The draft is taken afresh from the item
    whenever the dialog opens or the item changes while it is open; Save
    sends the draft unchanged, and Cancel only closes. Its status select
    offers 'active' and 'completed'. */
module CardActionPopover {
  import opened Values
  import opened ObjectiveTypes
  import opened Popover

  /** The options of the card dialog's status select. */
  const StatusOptions: seq<string> := ["active", "completed"]

  /** 'active' is not one of the stored statuses: choosing it saves an
      invalid status. */
  lemma ActiveIsNotAStatus()
    ensures !IsValidStatus(StatusOptions[0]) && IsValidStatus(StatusOptions[1])
  {
  }

  class CardPopover {
    const actions: seq<Action>
    var item: Record
    var isModifying: bool
    var modifiedItem: Record

    constructor(actions: seq<Action>, item: Record)
      ensures this.actions == actions && this.item == item
      ensures !isModifying && modifiedItem == item
    {
      this.actions := actions;
      this.item := item;
      isModifying := false;
      modifiedItem := item;
    }

    /** A click on action `i`. Opening the dialog takes a fresh draft from
        the item; a click on 'Modify' while it is already open changes nothing. */
    method Click(i: nat) returns (invoked: Option<(nat, Record)>)
      requires i < |actions|
      modifies this
      ensures PlainDispatch(actions, i, item) == OpenEditor ==>
        invoked == None && isModifying
        && modifiedItem == (if old(isModifying) then old(modifiedItem) else item)
      ensures PlainDispatch(actions, i, item).Invoke? ==>
        invoked == Some((i, item)) && isModifying == old(isModifying) && modifiedItem == old(modifiedItem)
      ensures item == old(item)
    {
      if actions[i].caption == "Modify" {
        if !isModifying {
          isModifying := true;
          modifiedItem := item;
        }
        invoked := None;
      } else {
        invoked := Some((i, item));
      }
    }

    /** The `item` prop changes; while the dialog is open the draft follows it. */
    method ItemChanged(newItem: Record)
      modifies this
      ensures item == newItem && isModifying == old(isModifying)
      ensures modifiedItem == (if isModifying then newItem else old(modifiedItem))
    {
      item := newItem;
      if isModifying {
        modifiedItem := newItem;
      }
    }

    /** Typing into (or selecting in) the field `key` of the dialog. */
    method Edit(key: string, text: string)
      requires key in EditableKeys(item)
      modifies this
      ensures modifiedItem == old(modifiedItem)[key := Str(text)]
      ensures item == old(item) && isModifying == old(isModifying)
    {
      modifiedItem := modifiedItem[key := Str(text)];
    }

    /** 'Save Changes': the first 'Modify' action gets the draft as it is and
        the dialog closes; without a 'Modify' action nothing happens. */
    method Save() returns (invoked: Option<(nat, Record)>)
      modifies this
      ensures FindModify(actions).Some? ==> invoked == Some((FindModify(actions).value, old(modifiedItem))) && !isModifying
      ensures FindModify(actions).None? ==> invoked == None && isModifying == old(isModifying)
      ensures item == old(item) && modifiedItem == old(modifiedItem)
    {
      var m := FindModify(actions);
      if m.Some? {
        invoked := Some((m.value, modifiedItem));
        isModifying := false;
      } else {
        invoked := None;
      }
    }

    /** Cancel, or closing the dialog: the draft is kept until the next opening. */
    method Cancel()
      modifies this
      ensures !isModifying && modifiedItem == old(modifiedItem) && item == old(item)
    {
      isModifying := false;
    }
  }

  /** Edits abandoned with Cancel are gone when the dialog is opened again:
      the draft is the item once more. */
  method CancelledEditsDiscarded(p: CardPopover, i: nat, key: string, text: string)
    requires i < |p.actions| && p.actions[i].caption == "Modify" && !p.isModifying
    requires key in EditableKeys(p.item)
    modifies p
    ensures p.isModifying && p.modifiedItem == p.item && p.item == old(p.item)
  {
    var clicked := p.Click(i);
    p.Edit(key, text);
    p.Cancel();
    clicked := p.Click(i);
  }
}
