/** The project list cache. A call of one of its operations is `Begin()`
    (the `set` before the request) followed, once the request has settled,
    by the matching `Complete...` with the request's outcome. This store
    checks `response.ok`: a non-ok response takes the error path. */
module ProjectStore {
  import opened Values
  import opened Remote
  import opened EntityList

  const FetchError := "Failed to fetch projects"
  const AddError := "Failed to add project"
  const UpdateError := "Failed to update project"
  const DeleteError := "Failed to delete project"

  /** The request succeeded in this store's sense: it resolved with `ok`. */
  predicate Succeeded<T>(outcome: Outcome<T>) {
    outcome.Responded? && outcome.ok
  }

  class ProjectStore {
    var projects: seq<Record>
    var isLoading: bool
    var error: Option<string>

    constructor()
      ensures projects == [] && !isLoading && error == None
    {
      projects, isLoading, error := [], false, None;
    }

    /** `set({ isLoading: true, error: null })`, the first step of every operation. */
    method Begin()
      modifies this
      ensures isLoading && error == None && projects == old(projects)
    {
      isLoading, error := true, None;
    }

    /** `fetchProjects` after its request settled. */
    method CompleteFetch(outcome: Outcome<seq<Record>>)
      modifies this
      ensures !isLoading
      ensures Succeeded(outcome) ==> projects == outcome.body && error == old(error)
      ensures !Succeeded(outcome) ==> projects == old(projects) && error == Some(FetchError)
    {
      if outcome.Responded? && outcome.ok {
        projects, isLoading := outcome.body, false;
      } else {
        error, isLoading := Some(FetchError), false;
      }
    }

    /** `addProject` after its request settled; `refetch` says that it then
        starts `fetchProjects` (without awaiting it). */
    method CompleteAdd(outcome: Outcome<Record>) returns (refetch: bool)
      modifies this
      ensures !isLoading
      ensures refetch == Succeeded(outcome)
      ensures Succeeded(outcome) ==> projects == [outcome.body] + old(projects) && error == old(error)
      ensures !Succeeded(outcome) ==> projects == old(projects) && error == Some(AddError)
    {
      if outcome.Responded? && outcome.ok {
        projects, isLoading := [outcome.body] + projects, false;
        refetch := true;
      } else {
        error, isLoading := Some(AddError), false;
        refetch := false;
      }
    }

    /** `updateProject(id, updates)` after its request settled. */
    method CompleteUpdate(id: string, outcome: Outcome<Record>)
      modifies this
      ensures !isLoading
      ensures Succeeded(outcome) ==> projects == ReplaceById(old(projects), id, outcome.body) && error == old(error)
      ensures !Succeeded(outcome) ==> projects == old(projects) && error == Some(UpdateError)
    {
      if outcome.Responded? && outcome.ok {
        projects, isLoading := ReplaceById(projects, id, outcome.body), false;
      } else {
        error, isLoading := Some(UpdateError), false;
      }
    }

    /** `deleteProject(id)` after its request settled. */
    method CompleteDelete(id: string, outcome: Outcome<()>)
      modifies this
      ensures !isLoading
      ensures Succeeded(outcome) ==> projects == RemoveById(old(projects), id) && error == old(error)
      ensures !Succeeded(outcome) ==> projects == old(projects) && error == Some(DeleteError)
    {
      if outcome.Responded? && outcome.ok {
        projects, isLoading := RemoveById(projects, id), false;
      } else {
        error, isLoading := Some(DeleteError), false;
      }
    }
  }

  /** A whole `addProject` call (begin, then an ok response) puts the created
      project first, keeps the old list after it and clears the error. The
      re-fetch it then calls sets `isLoading` again before `addProject`
      returns, so the call ends loading. */
  method AddProjectScenario(store: ProjectStore, created: Record) returns (refetch: bool)
    modifies store
    ensures refetch
    ensures store.projects == [created] + old(store.projects)
    ensures store.projects[0] == created && store.projects[1..] == old(store.projects)
    ensures store.isLoading && store.error == None
  {
    store.Begin();
    refetch := store.CompleteAdd(Responded(true, created));
    if refetch {
      store.Begin();
    }
  }

  /** A whole `deleteProject` call that gets a non-ok response leaves the list
      alone and reports the delete error. */
  method FailedDeleteScenario(store: ProjectStore, id: string, body: ())
    modifies store
    ensures store.projects == old(store.projects)
    ensures !store.isLoading && store.error == Some(DeleteError)
  {
    store.Begin();
    store.CompleteDelete(id, Responded(false, body));
  }
}
