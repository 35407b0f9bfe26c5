/** The collection endpoints for objectives and projects: GET lists the
    records newest first, POST creates one from the request body with
    defaults for status, priority, progress and due date. The database is
    a parameter: what it answers for a query or a create. */
module ApiRoutes {
  import opened Values

  /** What a database call settles to: a value, or a thrown error with its
      message (None when the thrown value is not an `Error`). */
  datatype DbResult<T> = Done(value: T) | Failed(message: Option<string>)

  /** The body of a response. */
  datatype Body = One(record: Record) | Many(records: seq<Record>)

  datatype Response = Response(status: int, body: Body)

  /** The ordering GET asks for: `orderBy: { createdAt: 'desc' }`. */
  datatype Query = OrderBy(field: string, descending: bool)

  const ListQuery: Query := OrderBy("createdAt", true)

  /** The data POST passes to `create`; `parse` reads a date string. */
  function CreateData(json: Record, parse: string -> int): (d: Record)
    ensures d.Keys == {"title", "description", "status", "priority", "progress", "dueDate"}
    ensures d["title"] == Get(json, "title") && d["description"] == Get(json, "description")
    ensures d["status"] == (if Truthy(Get(json, "status")) then Get(json, "status") else Str("todo"))
    ensures d["priority"] == (if Truthy(Get(json, "priority")) then Get(json, "priority") else Str("medium"))
    ensures d["progress"] == (if Truthy(Get(json, "progress")) then Get(json, "progress") else Num(0))
    ensures !Truthy(Get(json, "dueDate")) <==> d["dueDate"] == Null
    ensures d["dueDate"] == Null || d["dueDate"].Date?
  {
    map[
      "title" := Get(json, "title"),
      "description" := Get(json, "description"),
      "status" := Or(Get(json, "status"), Str("todo")),
      "priority" := Or(Get(json, "priority"), Str("medium")),
      "progress" := Or(Get(json, "progress"), Num(0)),
      "dueDate" := if Truthy(Get(json, "dueDate")) then Date(TimeOf(Get(json, "dueDate"), parse)) else Null]
  }

  /** Creating from data that was itself produced by `CreateData` changes
      nothing: the defaults are already in place and dates stay dates. */
  lemma CreateDataIdempotent(json: Record, parse: string -> int)
    ensures CreateData(CreateData(json, parse), parse) == CreateData(json, parse)
  {
    var d := CreateData(json, parse);
    var dd := CreateData(d, parse);
    assert dd.Keys == d.Keys;
    assert forall k :: k in d ==> dd[k] == d[k];
  }

  /** The fields a request leaves out, or sends falsy, take their defaults. */
  lemma CreateFromEmptyBody(parse: string -> int)
    ensures CreateData(map[], parse) == map[
      "title" := Undefined, "description" := Undefined, "status" := Str("todo"),
      "priority" := Str("medium"), "progress" := Num(0), "dueDate" := Null]
  {
  }

  /** `error instanceof Error ? error.message : 'An unknown error occurred'` */
  function Details(message: Option<string>): (d: string)
    ensures message.Some? ==> d == message.value
    ensures message.None? ==> d == "An unknown error occurred"
  {
    message.GetOr("An unknown error occurred")
  }

  /** The objectives route's error body: the error and its details. */
  function ObjectiveError(error: string, message: Option<string>): (r: Record)
    ensures r.Keys == {"error", "details"} && r["error"] == Str(error)
    ensures message.Some? ==> r["details"] == Str(message.value)
    ensures message.None? ==> r["details"] == Str("An unknown error occurred")
  {
    map["error" := Str(error), "details" := Str(Details(message))]
  }

  /** The rows a query returns are in the order it asks for, reading the
      field as a time. */
  ghost predicate OrderedBy(rows: seq<Record>, q: Query, parse: string -> int) {
    forall i, j :: 0 <= i < j < |rows| ==>
      if q.descending then TimeOf(Get(rows[i], q.field), parse) >= TimeOf(Get(rows[j], q.field), parse)
      else TimeOf(Get(rows[i], q.field), parse) <= TimeOf(Get(rows[j], q.field), parse)
  }

  /** GET /api/objectives: `findMany` with the newest-first ordering, given
      what the database answers for a query. */
  function GetObjectives(db: Query -> DbResult<seq<Record>>): (r: Response)
    ensures db(ListQuery).Done? ==> r == Response(200, Many(db(ListQuery).value))
    ensures db(ListQuery).Failed? ==>
      r == Response(500, One(ObjectiveError("Failed to fetch objectives", db(ListQuery).message)))
  {
    match db(ListQuery)
    case Done(list) => Response(200, Many(list))
    case Failed(m) => Response(500, One(ObjectiveError("Failed to fetch objectives", m)))
  }

  /** GET /api/projects: the same query; the error body carries no details. */
  function GetProjects(db: Query -> DbResult<seq<Record>>): (r: Response)
    ensures db(ListQuery).Done? ==> r == Response(200, Many(db(ListQuery).value))
    ensures db(ListQuery).Failed? ==> r == Response(500, One(map["error" := Str("Failed to fetch projects")]))
  {
    match db(ListQuery)
    case Done(list) => Response(200, Many(list))
    case Failed(_) => Response(500, One(map["error" := Str("Failed to fetch projects")]))
  }

  /** A database that honours the query it is given makes both GET routes
      answer with the records newest first, by `createdAt`. */
  lemma GetListsNewestFirst(db: Query -> DbResult<seq<Record>>, parse: string -> int)
    requires db(ListQuery).Done? && OrderedBy(db(ListQuery).value, ListQuery, parse)
    ensures GetObjectives(db).body.Many? && GetProjects(db).body.Many?
    ensures forall i, j :: 0 <= i < j < |GetObjectives(db).body.records| ==>
      TimeOf(Get(GetObjectives(db).body.records[i], "createdAt"), parse) >=
      TimeOf(Get(GetObjectives(db).body.records[j], "createdAt"), parse)
    ensures GetProjects(db).body == GetObjectives(db).body
  {
  }

  /** The JSON value a request body parses to: an object, `null`, or any
      other value (a string, number, boolean or array). */
  datatype JsonBody = ObjectBody(fields: Record) | NullBody | OtherBody

  /** What `await request.json()` settles to: the parsed value, or the
      message of the `SyntaxError` it rejects with. */
  datatype Decoded = Parsed(json: JsonBody) | Unparsable(message: string)

  /** The message of the `TypeError` Node.js raises for `json.title` when the
      body is `null`. */
  const NullReadMessage := "Cannot read properties of null (reading 'title')"

  /** The fields `json.title`, `json.description`, ... read: an object's own
      fields; nothing from any other non-null value; None where reading
      throws (a `null` body). */
  function Fields(json: JsonBody): (f: Option<Record>)
    ensures json.NullBody? <==> f.None?
    ensures json.ObjectBody? ==> f == Some(json.fields)
    ensures json.OtherBody? ==> f == Some(map[])
  {
    match json
    case ObjectBody(fields) => Some(fields)
    case NullBody => None
    case OtherBody => Some(map[])
  }

  /** The message of the error thrown before `create` is called, if any. */
  function ReadError(request: Decoded): (m: Option<string>)
    ensures request.Unparsable? ==> m == Some(request.message)
    ensures request.Parsed? ==> (m.Some? <==> request.json.NullBody?)
    ensures request.Parsed? && request.json.NullBody? ==> m == Some(NullReadMessage)
  {
    match request
    case Unparsable(message) => Some(message)
    case Parsed(json) => if json.NullBody? then Some(NullReadMessage) else None
  }

  /** POST /api/objectives. `create` is what the database answers for the
      data; every error thrown is an `Error`, so `details` is its message. */
  function PostObjective(request: Decoded, create: Record -> DbResult<Record>, parse: string -> int): (r: Response)
    ensures ReadError(request).Some? ==>
      r == Response(500, One(ObjectiveError("Failed to create objective", ReadError(request))))
    ensures ReadError(request).None? ==>
      var data := CreateData(Fields(request.json).value, parse);
      (create(data).Done? ==> r == Response(200, One(create(data).value))) &&
      (create(data).Failed? ==> r == Response(500, One(ObjectiveError("Failed to create objective", create(data).message))))
  {
    match ReadError(request)
    case Some(m) => Response(500, One(ObjectiveError("Failed to create objective", Some(m))))
    case None =>
      match create(CreateData(Fields(request.json).value, parse))
      case Done(created) => Response(200, One(created))
      case Failed(m) => Response(500, One(ObjectiveError("Failed to create objective", m)))
  }

  /** POST /api/projects: the same data as for objectives; the error body
      carries no details. */
  function PostProject(request: Decoded, create: Record -> DbResult<Record>, parse: string -> int): (r: Response)
    ensures ReadError(request).Some? ==> r == Response(500, One(map["error" := Str("Failed to create project")]))
    ensures ReadError(request).None? ==>
      var data := CreateData(Fields(request.json).value, parse);
      (create(data).Done? ==> r == Response(200, One(create(data).value))) &&
      (create(data).Failed? ==> r == Response(500, One(map["error" := Str("Failed to create project")])))
  {
    if ReadError(request).Some? then Response(500, One(map["error" := Str("Failed to create project")]))
    else
      match create(CreateData(Fields(request.json).value, parse))
      case Done(created) => Response(200, One(created))
      case Failed(_) => Response(500, One(map["error" := Str("Failed to create project")]))
  }

  /** A body that parses to a string, number, boolean or array is answered
      exactly as the empty object `{}` is: it reaches `create` with every
      default and no title. */
  lemma NonObjectBodyIsEmptyObject(create: Record -> DbResult<Record>, parse: string -> int)
    ensures PostObjective(Parsed(OtherBody), create, parse) == PostObjective(Parsed(ObjectBody(map[])), create, parse)
    ensures PostProject(Parsed(OtherBody), create, parse) == PostProject(Parsed(ObjectBody(map[])), create, parse)
  {
  }

  /** Both routes answer 200 exactly when the body parses to something other
      than `null` and the database call succeeds; every failure is a 500 whose
      body names the error, and the objectives route also gives the thrown
      error's message. */
  lemma PostStatus(request: Decoded, create: Record -> DbResult<Record>, parse: string -> int)
    ensures (PostObjective(request, create, parse).status == 200) <==>
      request.Parsed? && !request.json.NullBody? && create(CreateData(Fields(request.json).value, parse)).Done?
    ensures (PostProject(request, create, parse).status == 200) <==>
      request.Parsed? && !request.json.NullBody? && create(CreateData(Fields(request.json).value, parse)).Done?
    ensures PostObjective(request, create, parse).status in {200, 500} && PostProject(request, create, parse).status in {200, 500}
    ensures PostObjective(request, create, parse).status == 500 ==> "error" in PostObjective(request, create, parse).body.record
    ensures PostProject(request, create, parse).status == 500 ==> "error" in PostProject(request, create, parse).body.record
    ensures request.Unparsable? ==>
      PostObjective(request, create, parse).body.record["details"] == Str(request.message)
  {
  }
}
