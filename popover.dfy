/** What the three row/card action popovers have in common: the action list,
    the search for the 'Modify' action, the fields their edit dialog offers,
    and what a click on an action does. */
module Popover {
  import opened Values

  /** An action button: its label (`caption`, as `label` is reserved in
      Dafny) and optional button variant. The callback
      is identified by the action's index. */
  datatype Action = Action(caption: string, variant: Option<string>)

  /** `action.variant || "ghost"` */
  function ButtonVariant(a: Action): (v: string)
    ensures a.variant.Some? && a.variant.value != "" ==> v == a.variant.value
    ensures a.variant.None? || a.variant.value == "" ==> v == "ghost"
  {
    if a.variant.Some? && a.variant.value != "" then a.variant.value else "ghost"
  }

  /** What a click on an action does: open the edit dialog, or call the
      action at `index` with `payload`. */
  datatype Effect = OpenEditor | Invoke(index: nat, payload: Record)

  /** `actions.find(action => action.label === 'Modify')`, from position `from` on, as
      the index of the first such action. */
  function FindModifyFrom(actions: seq<Action>, from: nat): (r: Option<nat>)
    requires from <= |actions|
    ensures r.Some? ==> (from <= r.value < |actions| && actions[r.value].caption == "Modify"
      && forall j :: from <= j < r.value ==> actions[j].caption != "Modify")
    ensures r.None? ==> forall j :: from <= j < |actions| ==> actions[j].caption != "Modify"
    decreases |actions| - from
  {
    if from == |actions| then None
    else if actions[from].caption == "Modify" then Some(from)
    else FindModifyFrom(actions, from + 1)
  }

  function FindModify(actions: seq<Action>): (r: Option<nat>)
    ensures r.Some? ==> (r.value < |actions| && actions[r.value].caption == "Modify"
      && forall j :: 0 <= j < r.value ==> actions[j].caption != "Modify")
    ensures r.None? <==> forall j :: 0 <= j < |actions| ==> actions[j].caption != "Modify"
  {
    FindModifyFrom(actions, 0)
  }

  /** The fields the edit dialog offers: every key of the item except the
      internal ones. */
  const InternalKeys: set<string> := {"id", "createdAt", "updatedAt"}

  function EditableKeys(item: Record): (r: set<string>)
    ensures forall k :: k in r <==> k in item && k !in InternalKeys
  {
    item.Keys - InternalKeys
  }

  /** A click on action `i` in the card and data-table popovers: 'Modify'
      opens the dialog, any other action gets the item as it is. */
  function PlainDispatch(actions: seq<Action>, i: nat, item: Record): (e: Effect)
    requires i < |actions|
    ensures actions[i].caption == "Modify" <==> e == OpenEditor
    ensures actions[i].caption != "Modify" ==> e == Invoke(i, item)
  {
    if actions[i].caption == "Modify" then OpenEditor else Invoke(i, item)
  }
}
