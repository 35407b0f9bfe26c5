/** The three optional date fields of the add forms (start-on, started,
    due date), each with a label, a value and an enabled flag, and the patches
    the date selector sends: `{ enabled }` from a checkbox, `{ value }` from a
    date input. */
module DateFields {
  import opened Values

  /** `label` is a reserved word in Dafny: the field label is `caption`. */
  datatype DateField = DateField(caption: string, value: Option<int>, enabled: bool)

  /** The `value` of a patch: absent, `null`, or a date. */
  datatype DateInput = Absent | NullDate | At(time: int)

  /** `Partial<DateField>` */
  datatype DatePatch = DatePatch(caption: Option<string>, value: DateInput, enabled: Option<bool>)

  type Dates = map<string, DateField>

  /** The three fields, disabled and empty. */
  const DefaultDates: Dates := map[
    "startOn" := DateField("Start On", None, false),
    "started" := DateField("Started", None, false),
    "dueDate" := DateField("Due Date", None, false)]

  /** `{ ...prev, ...updates, value: updates.enabled === false ? null : (updates.value ?? prev.value) }` */
  function PatchField(prev: DateField, p: DatePatch): (f: DateField)
    ensures p.enabled == Some(false) ==> f.value == None && !f.enabled
    ensures p.enabled != Some(false) && p.value.At? ==> f.value == Some(p.value.time)
    ensures p.enabled != Some(false) && !p.value.At? ==> f.value == prev.value
    ensures p.enabled.None? ==> f.enabled == prev.enabled
    ensures p.caption.None? ==> f.caption == prev.caption
  {
    DateField(
      p.caption.GetOr(prev.caption),
      if p.enabled == Some(false) then None else if p.value.At? then Some(p.value.time) else prev.value,
      p.enabled.GetOr(prev.enabled))
  }

  /** `handleDateUpdate`'s update of the `dates` state, shared by all three forms. */
  function UpdateDates(dates: Dates, key: string, p: DatePatch): (r: Dates)
    requires key in dates
    ensures r.Keys == dates.Keys
    ensures r[key] == PatchField(dates[key], p)
    ensures forall k :: k in dates && k != key ==> r[k] == dates[k]
  {
    dates[key := PatchField(dates[key], p)]
  }

  /** `updates.value || null` */
  function DateValue(v: DateInput): Value {
    if v.At? then Date(v.time) else Null
  }

  /** The table's and the card group's merge into the pending item: only a
      patch with `enabled: true` writes the key; any other patch removes it. */
  function MergeIntoItem(item: Record, key: string, p: DatePatch): (r: Record)
    ensures p.enabled == Some(true) ==> r == item[key := DateValue(p.value)]
    ensures p.enabled != Some(true) ==> key !in r && r.Keys == item.Keys - {key}
    ensures forall k :: k in item && k != key ==> k in r && r[k] == item[k]
  {
    if p.enabled == Some(true) then item[key := DateValue(p.value)] else item - {key}
  }

  /** Disabling a field clears its value; any later value-only patch (as the
      date input sends) keeps the field disabled. */
  lemma DisableClears(dates: Dates, key: string, caption: Option<string>, v: DateInput)
    requires key in dates
    ensures UpdateDates(dates, key, DatePatch(caption, v, Some(false)))[key].value == None
    ensures !UpdateDates(UpdateDates(dates, key, DatePatch(None, Absent, Some(false))), key, DatePatch(None, v, None))[key].enabled
  {
  }

  /** What the selector sends for "enable the field, then pick a date" leaves
      the field enabled with the date, but the pending item without the key:
      enabling writes `null`, and the value-only patch then removes the key. */
  lemma PickedDateNotInItem(dates: Dates, item: Record, key: string, t: int)
    requires key in dates
    ensures UpdateDates(UpdateDates(dates, key, DatePatch(None, Absent, Some(true))), key, DatePatch(None, At(t), None))[key]
            == DateField(dates[key].caption, Some(t), true)
    ensures key !in MergeIntoItem(MergeIntoItem(item, key, DatePatch(None, Absent, Some(true))), key, DatePatch(None, At(t), None))
  {
  }
}
