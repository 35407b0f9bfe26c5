/** What the client sees of the collection endpoints: the settled result of one
    request, and the store calls an action issues. */
module Remote {
  import opened Values

  /** The settled result of `fetch(...)` followed by `response.json()`:
      either a response (its `ok` flag and decoded body) or a rejection
      (network failure or an undecodable body). */
  datatype Outcome<T> = Responded(ok: bool, body: T) | Thrown

  /** A call an action makes on a store, in the order it is issued:
      `update(id, patch)`, `delete(id)`, or a re-fetch of the list. */
  datatype Call = Update(id: Value, patch: Record) | Delete(id: Value) | Refetch

  /** A value as `JSON.stringify` writes it: a Date through its `toJSON`,
      the ISO string `iso` gives for its time; anything else as it is. */
  function Sent(v: Value, iso: int -> string): Value {
    if v.Date? then Str(iso(v.time)) else v
  }

  /** The record `JSON.stringify` sends for `r`: keys holding `undefined`
      are dropped and dates become ISO strings. */
  function Serialized(r: Record, iso: int -> string): (j: Record)
    ensures forall k :: k in j <==> k in r && r[k] != Undefined
    ensures forall k :: k in j && r[k].Date? ==> j[k] == Str(iso(r[k].time))
    ensures forall k :: k in j && !r[k].Date? ==> j[k] == r[k]
    ensures forall k :: !Get(r, k).Date? ==> Get(j, k) == Get(r, k)
  {
    map k | k in r && r[k] != Undefined :: Sent(r[k], iso)
  }
}
