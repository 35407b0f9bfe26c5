/** The list reconciliations the stores apply after a round-trip: replace by
    id (`map`), remove by id (`filter`), and the local store's merge by id. */
module EntityList {
  import opened Values
  import opened ListOps

  /** `entity.id === id` */
  predicate HasId(r: Record, id: string) {
    Get(r, "id") == Str(id)
  }

  /** `entity.status === s` */
  predicate StatusIs(r: Record, s: string) {
    Get(r, "status") == Str(s)
  }

  /** `item.priority === 'high' || item.priority === 'critical'` */
  predicate IsHighPriority(item: Record) {
    Get(item, "priority") == Str("high") || Get(item, "priority") == Str("critical")
  }

  /** No two entities in the list carry the same `id` value. */
  ghost predicate DistinctIds(s: seq<Record>) {
    forall i, j :: 0 <= i < j < |s| ==> Get(s[i], "id") != Get(s[j], "id")
  }

  /** `list.map(e => e.id === id ? x : e)` */
  function ReplaceById(s: seq<Record>, id: string, x: Record): (r: seq<Record>)
    ensures |r| == |s|
    ensures forall i :: 0 <= i < |s| && HasId(s[i], id) ==> r[i] == x
    ensures forall i :: 0 <= i < |s| && !HasId(s[i], id) ==> r[i] == s[i]
  {
    if s == [] then []
    else [if HasId(s[0], id) then x else s[0]] + ReplaceById(s[1..], id, x)
  }

  /** `list.filter(e => e.id !== id)` */
  function RemoveById(s: seq<Record>, id: string): (r: seq<Record>)
    ensures |r| <= |s|
    ensures forall i :: 0 <= i < |r| ==> !HasId(r[i], id) && r[i] in s
    ensures forall i :: 0 <= i < |s| && !HasId(s[i], id) ==> s[i] in r
  {
    Filter(s, e => !HasId(e, id))
  }

  /** `{ ...e, ...updates, updatedAt: now }` */
  function Merged(e: Record, updates: Record, now: int): (m: Record)
    ensures m.Keys == e.Keys + updates.Keys + {"updatedAt"}
    ensures m["updatedAt"] == Date(now)
    ensures forall k :: k in updates && k != "updatedAt" ==> m[k] == updates[k]
    ensures forall k :: k in e && k !in updates && k != "updatedAt" ==> m[k] == e[k]
  {
    e + updates + map["updatedAt" := Date(now)]
  }

  /** The local store's update: every entity whose id matches is merged with
      `updates` and stamped with `now`. */
  function MergeById(s: seq<Record>, id: string, updates: Record, now: int): (r: seq<Record>)
    ensures |r| == |s|
    ensures forall i :: 0 <= i < |s| && !HasId(s[i], id) ==> r[i] == s[i]
    ensures forall i :: 0 <= i < |s| && HasId(s[i], id) ==> r[i] == Merged(s[i], updates, now)
  {
    if s == [] then []
    else [if HasId(s[0], id) then Merged(s[0], updates, now) else s[0]] + MergeById(s[1..], id, updates, now)
  }

  /** Replacing by an id no entity has leaves the list as it was. */
  lemma {:induction false} ReplaceAbsentId(s: seq<Record>, id: string, x: Record)
    requires forall i :: 0 <= i < |s| ==> !HasId(s[i], id)
    ensures ReplaceById(s, id, x) == s
  {
    if s != [] {
      ReplaceAbsentId(s[1..], id, x);
    }
  }

  /** Removing keeps the survivors in their order: removal distributes over
      concatenation. */
  lemma RemoveKeepsOrder(a: seq<Record>, b: seq<Record>, id: string)
    ensures RemoveById(a + b, id) == RemoveById(a, id) + RemoveById(b, id)
  {
    FilterAppend(a, b, e => !HasId(e, id));
  }

  /** Deleting an id no entity has is a no-op. */
  lemma RemoveAbsentId(s: seq<Record>, id: string)
    requires forall i :: 0 <= i < |s| ==> !HasId(s[i], id)
    ensures RemoveById(s, id) == s
  {
    FilterAllAccepted(s, e => !HasId(e, id));
  }

  /** Deleting the same id twice is deleting it once. */
  lemma RemoveIdempotent(s: seq<Record>, id: string)
    ensures RemoveById(RemoveById(s, id), id) == RemoveById(s, id)
  {
    FilterIdempotent(s, e => !HasId(e, id));
  }

  /** Removing one entity of a list with distinct ids shortens it by exactly one. */
  lemma {:induction false} RemovePresentDistinct(s: seq<Record>, id: string, k: nat)
    requires DistinctIds(s)
    requires k < |s| && HasId(s[k], id)
    ensures |RemoveById(s, id)| == |s| - 1
  {
    var p := e => !HasId(e, id);
    assert s == s[..k] + [s[k]] + s[k + 1..];
    FilterAppend(s[..k] + [s[k]], s[k + 1..], p);
    FilterAppend(s[..k], [s[k]], p);
    FilterAllAccepted(s[..k], p);
    FilterAllAccepted(s[k + 1..], p);
    assert Filter([s[k]], p) == [];
  }

  /** A new entity whose id no listed entity has keeps the ids distinct. */
  lemma AppendFreshKeepsDistinct(s: seq<Record>, x: Record, id: string)
    requires DistinctIds(s)
    requires HasId(x, id) && forall i :: 0 <= i < |s| ==> !HasId(s[i], id)
    ensures DistinctIds(s + [x])
    ensures DistinctIds([x] + s)
  {
  }

  /** Removal never makes ids clash. */
  lemma {:induction false} RemoveKeepsDistinct(s: seq<Record>, id: string)
    requires DistinctIds(s)
    ensures DistinctIds(RemoveById(s, id))
  {
    if s != [] {
      assert DistinctIds(s[1..]);
      RemoveKeepsDistinct(s[1..], id);
      var rest := RemoveById(s[1..], id);
      if !HasId(s[0], id) {
        assert RemoveById(s, id) == [s[0]] + rest;
        forall j | 0 <= j < |rest|
          ensures Get(s[0], "id") != Get(rest[j], "id")
        {
          assert rest[j] in s[1..];
        }
      } else {
        assert RemoveById(s, id) == rest;
      }
    }
  }
}
