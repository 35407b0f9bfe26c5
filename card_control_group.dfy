/** The card group with its "Add New" dialog. Unlike the table's dialog, it
    submits the pending item as it stands, builds its inputs from the keys of
    `defaultNewItem`, and has its own optional set of date fields that it
    resets to only when that set was given. */
module CardControlGroup {
  import opened Values
  import opened DateFields

  /** Keys of `defaultNewItem` that get no text input. */
  const SkippedKeys: set<string> := {"id", "createdAt", "updatedAt", "startOn", "started", "dueDate"}

  /** The keys that get a text input: those of the default item, less the
      system and date keys. */
  function AddFieldKeys(defaultNewItem: Record): (r: set<string>)
    ensures forall k :: k in r <==> k in defaultNewItem && k !in SkippedKeys
  {
    defaultNewItem.Keys - SkippedKeys
  }

  /** The dialog's state. `hasAddNewItem` says whether `addNewItem` was given;
      `dateFields` is the optional prop of that name. */
  class CardGroupForm {
    const hasAddNewItem: bool
    const defaultNewItem: Record
    const dateFields: Option<Dates>
    var isAddingNew: bool
    var newItem: Record
    var dates: Dates

    /** The dates start from `dateFields`, or from the three disabled fields. */
    constructor(hasAddNewItem: bool, defaultNewItem: Record, dateFields: Option<Dates>)
      ensures this.hasAddNewItem == hasAddNewItem && this.defaultNewItem == defaultNewItem
      ensures this.dateFields == dateFields
      ensures !isAddingNew && newItem == defaultNewItem && dates == dateFields.GetOr(DefaultDates)
    {
      this.hasAddNewItem := hasAddNewItem;
      this.defaultNewItem := defaultNewItem;
      this.dateFields := dateFields;
      isAddingNew := false;
      newItem := defaultNewItem;
      dates := dateFields.GetOr(DefaultDates);
    }

    /** The "Add New" button, shown only when `addNewItem` is given. */
    method Open()
      requires hasAddNewItem
      modifies this
      ensures isAddingNew && newItem == old(newItem) && dates == old(dates)
    {
      isAddingNew := true;
    }

    /** Typing into the input of `key`. */
    method SetField(key: string, text: string)
      requires key in AddFieldKeys(defaultNewItem)
      modifies this
      ensures newItem == old(newItem)[key := Str(text)]
      ensures InputText(newItem, key) == text
      ensures isAddingNew == old(isAddingNew) && dates == old(dates)
    {
      newItem := newItem[key := Str(text)];
    }

    /** `handleDateUpdate(key, patch)`, from the date selector shown when
        `dateFields` is given. */
    method UpdateDate(key: string, p: DatePatch)
      requires key in dates
      modifies this
      ensures dates == UpdateDates(old(dates), key, p)
      ensures newItem == MergeIntoItem(old(newItem), key, p)
      ensures isAddingNew == old(isAddingNew)
    {
      dates := UpdateDates(dates, key, p);
      newItem := MergeIntoItem(newItem, key, p);
    }

    /** `handleAddNew`: returns the item passed to `addNewItem`, unchanged. The
        dates go back to `dateFields` only when it was given. */
    method AddNew() returns (submitted: Option<Record>)
      modifies this
      ensures hasAddNewItem ==> (submitted == Some(old(newItem)) && newItem == defaultNewItem && !isAddingNew
        && dates == (if dateFields.Some? then dateFields.value else old(dates)))
      ensures !hasAddNewItem ==> (submitted == None && newItem == old(newItem)
        && isAddingNew == old(isAddingNew) && dates == old(dates))
    {
      if hasAddNewItem {
        submitted := Some(newItem);
        newItem := defaultNewItem;
        if dateFields.Some? {
          dates := dateFields.value;
        }
        isAddingNew := false;
      } else {
        submitted := None;
      }
    }

    /** Closing the dialog other than by Cancel (`onOpenChange(false)`): the
        pending item and the dates are kept for the next opening. */
    method Dismiss()
      modifies this
      ensures !isAddingNew && newItem == old(newItem) && dates == old(dates)
    {
      isAddingNew := false;
    }

    /** The dialog's Cancel button: close, reset the item, and reset the dates
        when `dateFields` was given. */
    method Cancel()
      modifies this
      ensures !isAddingNew && newItem == defaultNewItem
      ensures dates == (if dateFields.Some? then dateFields.value else old(dates))
    {
      isAddingNew := false;
      newItem := defaultNewItem;
      if dateFields.Some? {
        dates := dateFields.value;
      }
    }
  }

  /** Typing a title and then adding submits the default item with that
      title, and leaves the dialog closed and ready for the next item. */
  method TypeThenAdd(form: CardGroupForm, key: string, text: string) returns (submitted: Option<Record>)
    requires form.hasAddNewItem && key in AddFieldKeys(form.defaultNewItem)
    requires form.newItem == form.defaultNewItem
    modifies form
    ensures submitted == Some(form.defaultNewItem[key := Str(text)])
    ensures form.newItem == form.defaultNewItem && !form.isAddingNew
  {
    form.Open();
    form.SetField(key, text);
    submitted := form.AddNew();
  }
}
