/** The server-backed objective list cache. As in the project store, a call is
    `Begin()` followed by the matching `Complete...` once the request has
    settled; unlike it, this store never looks at `response.ok`: whatever
    body decodes is applied, and only a rejection takes the error path. The
    store holds the decoded JSON as it came: normally a list, but an object
    when the server answered the fetch with one. */
module ObjectiveStore {
  import opened Values
  import opened Remote
  import opened EntityList
  import opened ApiRoutes

  const FetchError := "Failed to fetch objectives"
  const AddError := "Failed to add objective"
  const UpdateError := "Failed to update objective"
  const DeleteError := "Failed to delete objective"

  class ObjectiveStore {
    var objectives: Body
    var isLoading: bool
    var error: Option<string>

    constructor()
      ensures objectives == Many([]) && !isLoading && error == None
    {
      objectives, isLoading, error := Many([]), false, None;
    }

    /** `set({ isLoading: true, error: null })`, the first step of every operation. */
    method Begin()
      modifies this
      ensures isLoading && error == None && objectives == old(objectives)
    {
      isLoading, error := true, None;
    }

    /** `fetchObjectives` after its request settled: the decoded body is stored
        whatever it is. */
    method CompleteFetch(outcome: Outcome<Body>)
      modifies this
      ensures !isLoading
      ensures outcome.Responded? ==> objectives == outcome.body && error == old(error)
      ensures outcome.Thrown? ==> objectives == old(objectives) && error == Some(FetchError)
    {
      match outcome
      case Responded(_, body) =>
        objectives, isLoading := body, false;
      case Thrown =>
        error, isLoading := Some(FetchError), false;
    }

    /** `addObjective` after its request settled. Spreading a stored object that
        is not a list throws, which takes the error path. */
    method CompleteAdd(outcome: Outcome<Record>)
      modifies this
      ensures !isLoading
      ensures outcome.Responded? && old(objectives).Many? ==>
        objectives == Many(old(objectives).records + [outcome.body]) && error == old(error)
      ensures outcome.Thrown? || old(objectives).One? ==> objectives == old(objectives) && error == Some(AddError)
    {
      if outcome.Responded? && objectives.Many? {
        objectives, isLoading := Many(objectives.records + [outcome.body]), false;
      } else {
        error, isLoading := Some(AddError), false;
      }
    }

    /** `updateObjective(id, updates)` after its request settled; a stored
        object has no `map`, which takes the error path. */
    method CompleteUpdate(id: string, outcome: Outcome<Record>)
      modifies this
      ensures !isLoading
      ensures outcome.Responded? && old(objectives).Many? ==>
        objectives == Many(ReplaceById(old(objectives).records, id, outcome.body)) && error == old(error)
      ensures outcome.Thrown? || old(objectives).One? ==> objectives == old(objectives) && error == Some(UpdateError)
    {
      if outcome.Responded? && objectives.Many? {
        objectives, isLoading := Many(ReplaceById(objectives.records, id, outcome.body)), false;
      } else {
        error, isLoading := Some(UpdateError), false;
      }
    }

    /** `deleteObjective(id)` after its request settled; a stored object has no
        `filter`, which takes the error path. */
    method CompleteDelete(id: string, outcome: Outcome<()>)
      modifies this
      ensures !isLoading
      ensures outcome.Responded? && old(objectives).Many? ==>
        objectives == Many(RemoveById(old(objectives).records, id)) && error == old(error)
      ensures outcome.Thrown? || old(objectives).One? ==> objectives == old(objectives) && error == Some(DeleteError)
    {
      if outcome.Responded? && objectives.Many? {
        objectives, isLoading := Many(RemoveById(objectives.records, id)), false;
      } else {
        error, isLoading := Some(DeleteError), false;
      }
    }
  }

  /** A whole `deleteObjective` call removes the objective from a stored list even
      when the server answers with an error status. */
  method DeleteDespiteServerError(store: ObjectiveStore, id: string, body: ())
    modifies store
    ensures old(store.objectives).Many? ==>
      store.objectives == Many(RemoveById(old(store.objectives).records, id)) && store.error == None
    ensures !store.isLoading
  {
    store.Begin();
    store.CompleteDelete(id, Responded(false, body));
  }

  /** When the objectives GET route fails, the store keeps its error reply
      `{error, details}` in place of the list and reports no error; the next
      add then fails, as would an update or a delete, until a fetch succeeds. */
  method FailedFetchBlocksEdits(store: ObjectiveStore, db: Query -> DbResult<seq<Record>>, created: Record)
    requires db(ListQuery).Failed?
    modifies store
    ensures store.objectives == GetObjectives(db).body && store.objectives.One?
    ensures store.objectives.record["error"] == Str("Failed to fetch objectives")
    ensures store.error == Some(AddError) && !store.isLoading
  {
    var reply := GetObjectives(db);
    store.Begin();
    store.CompleteFetch(Responded(reply.status == 200, reply.body));
    assert store.error == None;
    store.Begin();
    store.CompleteAdd(Responded(true, created));
  }
}
