/** The server-backed task list cache. As in the project store, a call is
    `Begin()` followed by the matching `Complete...` once the request has
    settled; unlike it, this store never looks at `response.ok`: whatever
    body decodes is applied, and only a rejection takes the error path. The
    store holds the decoded JSON as it came: normally a list, but an object
    when the server answered the fetch with one. */
module TaskStore {
  import opened Values
  import opened Remote
  import opened EntityList
  import opened ApiRoutes

  const FetchError := "Failed to fetch tasks"
  const AddError := "Failed to add task"
  const UpdateError := "Failed to update task"
  const DeleteError := "Failed to delete task"

  class TaskStore {
    var tasks: Body
    var isLoading: bool
    var error: Option<string>

    constructor()
      ensures tasks == Many([]) && !isLoading && error == None
    {
      tasks, isLoading, error := Many([]), false, None;
    }

    /** `set({ isLoading: true, error: null })`, the first step of every operation. */
    method Begin()
      modifies this
      ensures isLoading && error == None && tasks == old(tasks)
    {
      isLoading, error := true, None;
    }

    /** `fetchTasks` after its request settled: the decoded body is stored
        whatever it is. */
    method CompleteFetch(outcome: Outcome<Body>)
      modifies this
      ensures !isLoading
      ensures outcome.Responded? ==> tasks == outcome.body && error == old(error)
      ensures outcome.Thrown? ==> tasks == old(tasks) && error == Some(FetchError)
    {
      match outcome
      case Responded(_, body) =>
        tasks, isLoading := body, false;
      case Thrown =>
        error, isLoading := Some(FetchError), false;
    }

    /** `addTask` after its request settled. Spreading a stored object that
        is not a list throws, which takes the error path. */
    method CompleteAdd(outcome: Outcome<Record>)
      modifies this
      ensures !isLoading
      ensures outcome.Responded? && old(tasks).Many? ==>
        tasks == Many(old(tasks).records + [outcome.body]) && error == old(error)
      ensures outcome.Thrown? || old(tasks).One? ==> tasks == old(tasks) && error == Some(AddError)
    {
      if outcome.Responded? && tasks.Many? {
        tasks, isLoading := Many(tasks.records + [outcome.body]), false;
      } else {
        error, isLoading := Some(AddError), false;
      }
    }

    /** `updateTask(id, updates)` after its request settled; a stored
        object has no `map`, which takes the error path. */
    method CompleteUpdate(id: string, outcome: Outcome<Record>)
      modifies this
      ensures !isLoading
      ensures outcome.Responded? && old(tasks).Many? ==>
        tasks == Many(ReplaceById(old(tasks).records, id, outcome.body)) && error == old(error)
      ensures outcome.Thrown? || old(tasks).One? ==> tasks == old(tasks) && error == Some(UpdateError)
    {
      if outcome.Responded? && tasks.Many? {
        tasks, isLoading := Many(ReplaceById(tasks.records, id, outcome.body)), false;
      } else {
        error, isLoading := Some(UpdateError), false;
      }
    }

    /** `deleteTask(id)` after its request settled; a stored object has no
        `filter`, which takes the error path. */
    method CompleteDelete(id: string, outcome: Outcome<()>)
      modifies this
      ensures !isLoading
      ensures outcome.Responded? && old(tasks).Many? ==>
        tasks == Many(RemoveById(old(tasks).records, id)) && error == old(error)
      ensures outcome.Thrown? || old(tasks).One? ==> tasks == old(tasks) && error == Some(DeleteError)
    {
      if outcome.Responded? && tasks.Many? {
        tasks, isLoading := Many(RemoveById(tasks.records, id)), false;
      } else {
        error, isLoading := Some(DeleteError), false;
      }
    }
  }

  /** A whole `deleteTask` call removes the task from a stored list even
      when the server answers with an error status. */
  method DeleteDespiteServerError(store: TaskStore, id: string, body: ())
    modifies store
    ensures old(store.tasks).Many? ==>
      store.tasks == Many(RemoveById(old(store.tasks).records, id)) && store.error == None
    ensures !store.isLoading
  {
    store.Begin();
    store.CompleteDelete(id, Responded(false, body));
  }
}
