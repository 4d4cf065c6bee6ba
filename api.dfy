/**
 * The planner's operations: for each, the path it requests (with its
 * arguments escaped), the method and body it sends, and how the reply is
 * decoded. Decoding JSON bytes into a record is a parameter (`Codec`).
 */
module Api {
  import opened Wrappers
  import opened Text
  import opened Json
  import opened Errors
  import opened Url
  import opened Models
  import opened Client

  /** `json.Unmarshal` into each reply type: the value, or the decoder's complaint. */
  datatype Codec = Codec(
    taskOf: Bytes -> Result<Task, string>,
    tasksOf: Bytes -> Result<seq<Task>, string>,
    userOf: Bytes -> Result<User, string>,
    usageOf: Bytes -> Result<APIUsage, string>,
    labelOf: Bytes -> Result<Label, string>,
    labelsOf: Bytes -> Result<seq<Label>, string>,
    listsOf: Bytes -> Result<seq<List>, string>)

  /**
   * The rule every operation applies to the client's result: its error
   * unchanged, a decoding failure as a parse error, else the decoded value.
   */
  predicate Answers<T(==)>(r: Result<T, Error>, resp: Result<Bytes, Error>, decode: Bytes -> Result<T, string>) {
    (resp.Failure? ==> r == Failure(resp.error))
    && (resp.Success? && decode(resp.value).Failure? ==> r == Failure(ParseFailed(decode(resp.value).error)))
    && (resp.Success? && decode(resp.value).Success? ==> r == Success(decode(resp.value).value))
  }

  function Decode<T(==)>(resp: Result<Bytes, Error>, decode: Bytes -> Result<T, string>): (r: Result<T, Error>)
    ensures Answers(r, resp, decode)
  {
    match resp
    case Failure(e) => Failure(e)
    case Success(bytes) =>
      match decode(bytes)
      case Failure(cause) => Failure(ParseFailed(cause))
      case Success(v) => Success(v)
  }

  /** The request a GET of `path` sends, and the request a POST of `path` with `body` sends. */
  function GetRequest(c: Client, path: string): Request {
    Outgoing(c, GET, path, None)
  }

  function PostRequest(c: Client, path: string, body: Option<Json>): Request {
    Outgoing(c, POST, path, body)
  }

  // ------------------------------------------------------------------ paths

  /** The server reads the path as the route and one `taskId` parameter, whose value unescapes to the id. */
  function GetTaskPath(taskId: string): (p: string)
    ensures Target(p) == ("/v1/tasks/getTask", [("taskId", QueryEscape(taskId))])
    ensures Unescape(Target(p).1[0].1, QueryComponent) == Some(Utf8(taskId))
  {
    OneParamAfter("/v1/tasks/getTask?taskId=", "/v1/tasks/getTask", "taskId", taskId);
    QueryEscapeRoundTrip(taskId);
    "/v1/tasks/getTask?taskId=" + QueryEscape(taskId)
  }

  /** `timeZone` is a second parameter exactly when it is non-empty; both unescape to their values. */
  function ByDatePath(date: string, timeZone: string): (p: string)
    ensures timeZone == "" ==> Target(p) == ("/v1/tasks/byDate", [("date", QueryEscape(date))])
    ensures timeZone != "" ==>
      Target(p) == ("/v1/tasks/byDate", [("date", QueryEscape(date)), ("timeZone", QueryEscape(timeZone))])
    ensures Unescape(Target(p).1[0].1, QueryComponent) == Some(Utf8(date))
    ensures timeZone != "" ==> Unescape(Target(p).1[1].1, QueryComponent) == Some(Utf8(timeZone))
  {
    QueryEscapeRoundTrip(date);
    if timeZone != "" then DateAndZonePath(date, timeZone) else DateOnlyPath(date)
  }

  /** The by-date path without a time zone. */
  function DateOnlyPath(date: string): (p: string)
    ensures Target(p) == ("/v1/tasks/byDate", [("date", QueryEscape(date))])
  {
    OneParamAfter("/v1/tasks/byDate?date=", "/v1/tasks/byDate", "date", date);
    "/v1/tasks/byDate?date=" + QueryEscape(date)
  }

  /** The by-date path with a time zone, which is appended after the date. */
  function DateAndZonePath(date: string, timeZone: string): (p: string)
    ensures Target(p) == ("/v1/tasks/byDate", [("date", QueryEscape(date)), ("timeZone", QueryEscape(timeZone))])
    ensures Unescape(Target(p).1[1].1, QueryComponent) == Some(Utf8(timeZone))
  {
    TwoParamsAfter("/v1/tasks/byDate?date=", "/v1/tasks/byDate", "date", date, "&timeZone=", "timeZone", timeZone);
    QueryEscapeRoundTrip(timeZone);
    "/v1/tasks/byDate?date=" + QueryEscape(date) + "&timeZone=" + QueryEscape(timeZone)
  }

  function ByListPath(listId: string): (p: string)
    ensures Target(p) == ("/v1/tasks/byList", [("listId", QueryEscape(listId))])
    ensures Unescape(Target(p).1[0].1, QueryComponent) == Some(Utf8(listId))
  {
    OneParamAfter("/v1/tasks/byList?listId=", "/v1/tasks/byList", "listId", listId);
    QueryEscapeRoundTrip(listId);
    "/v1/tasks/byList?listId=" + QueryEscape(listId)
  }

  const UpdateTaskRoute := "/v1/tasks/updateTask"
  const UpdateTaskPrefix := UpdateTaskRoute + "/"

  /** After the route, the id is one whole last segment that unescapes to itself; there is no query. */
  function UpdateTaskPath(taskId: string): (p: string)
    ensures Target(p) == (p, [])
    ensures HasPrefix(p, UpdateTaskPrefix)
    ensures Avoids(p[|UpdateTaskPrefix|..], '/')
    ensures Split(p, '/') == Split(UpdateTaskRoute, '/') + [p[|UpdateTaskPrefix|..]]
    ensures Unescape(p[|UpdateTaskPrefix|..], PathSegment) == Some(Utf8(taskId))
  {
    EscapedSegment(UpdateTaskRoute, taskId);
    PathEscapeRoundTrip(taskId);
    var p := UpdateTaskPrefix + PathEscape(taskId);
    assert p[|UpdateTaskPrefix|..] == PathEscape(taskId);
    p
  }

  function MarkCompletePath(taskId: string): (p: string)
    ensures Target(p) == ("/v1/tasks/markTaskAsComplete", [("taskId", QueryEscape(taskId))])
    ensures Unescape(Target(p).1[0].1, QueryComponent) == Some(Utf8(taskId))
  {
    OneParamAfter("/v1/tasks/markTaskAsComplete?taskId=", "/v1/tasks/markTaskAsComplete", "taskId", taskId);
    QueryEscapeRoundTrip(taskId);
    "/v1/tasks/markTaskAsComplete?taskId=" + QueryEscape(taskId)
  }

  // ---------------------------------------------------------------- tasks

  /** `Client.GetTask`. */
  function GetTask(c: Client, t: Transport, codec: Codec, taskId: string): (r: Result<Task, Error>)
    ensures Answers(r, Classify(t(GetRequest(c, GetTaskPath(taskId)))), codec.taskOf)
  {
    Decode(Get(c, t, GetTaskPath(taskId)), codec.taskOf)
  }

  /** `Client.GetTasksByDate`. */
  function GetTasksByDate(c: Client, t: Transport, codec: Codec, date: string, timeZone: string)
    : (r: Result<seq<Task>, Error>)
    ensures Answers(r, Classify(t(GetRequest(c, ByDatePath(date, timeZone)))), codec.tasksOf)
  {
    Decode(Get(c, t, ByDatePath(date, timeZone)), codec.tasksOf)
  }

  /** `Client.GetTasksByList`. */
  function GetTasksByList(c: Client, t: Transport, codec: Codec, listId: string): (r: Result<seq<Task>, Error>)
    ensures Answers(r, Classify(t(GetRequest(c, ByListPath(listId)))), codec.tasksOf)
  {
    Decode(Get(c, t, ByListPath(listId)), codec.tasksOf)
  }

  /** `Client.GetBraindump`. */
  function GetBraindump(c: Client, t: Transport, codec: Codec): (r: Result<seq<Task>, Error>)
    ensures Answers(r, Classify(t(GetRequest(c, "/v1/tasks/getBraindump"))), codec.tasksOf)
  {
    Decode(Get(c, t, "/v1/tasks/getBraindump"), codec.tasksOf)
  }

  /** `Client.CreateTask`: the request is sent as it is given. */
  function CreateTask(c: Client, t: Transport, codec: Codec, req: CreateTaskRequest): (r: Result<Task, Error>)
    ensures Answers(r, Classify(t(PostRequest(c, "/v1/tasks/createTask", Some(EncodeCreateTaskRequest(req))))),
                    codec.taskOf)
  {
    Decode(Post(c, t, "/v1/tasks/createTask", Some(EncodeCreateTaskRequest(req))), codec.taskOf)
  }

  /** `Client.UpdateTask`: the id goes in the path, the request is sent as it is given. */
  function UpdateTask(c: Client, t: Transport, codec: Codec, taskId: string, req: UpdateTaskRequest)
    : (r: Result<Task, Error>)
    ensures Answers(r, Classify(t(PostRequest(c, UpdateTaskPath(taskId), Some(EncodeUpdateTaskRequest(req))))),
                    codec.taskOf)
  {
    Decode(Post(c, t, UpdateTaskPath(taskId), Some(EncodeUpdateTaskRequest(req))), codec.taskOf)
  }

  /** `Client.MarkTaskComplete`: a POST with no body. */
  function MarkTaskComplete(c: Client, t: Transport, codec: Codec, taskId: string): (r: Result<Task, Error>)
    ensures Answers(r, Classify(t(PostRequest(c, MarkCompletePath(taskId), None))), codec.taskOf)
  {
    Decode(Post(c, t, MarkCompletePath(taskId), None), codec.taskOf)
  }

  /** `Client.DeleteTask`: the body names the task; the reply's bytes are not looked at. */
  function DeleteTask(c: Client, t: Transport, taskId: string): (r: Option<Error>)
    ensures var resp := Classify(t(PostRequest(c, "/v1/tasks/deleteTask",
                                               Some(EncodeDeleteTaskRequest(DeleteTaskRequest(taskId))))));
      (r.None? <==> resp.Success?) && (resp.Failure? ==> r == Some(resp.error))
  {
    var resp := Post(c, t, "/v1/tasks/deleteTask", Some(EncodeDeleteTaskRequest(DeleteTaskRequest(taskId))));
    if resp.Failure? then Some(resp.error) else None
  }

  /** `Client.SearchTasks`: the body holds the query alone. */
  function SearchTasks(c: Client, t: Transport, codec: Codec, query: string): (r: Result<seq<Task>, Error>)
    ensures Answers(r, Classify(t(PostRequest(c, "/v1/tasks/search",
                                              Some(EncodeSearchRequest(SearchRequest(query)))))), codec.tasksOf)
  {
    Decode(Post(c, t, "/v1/tasks/search", Some(EncodeSearchRequest(SearchRequest(query)))), codec.tasksOf)
  }

  // ---------------------------------------------------------------- users

  /** `Client.GetCurrentUser`. */
  function GetCurrentUser(c: Client, t: Transport, codec: Codec): (r: Result<User, Error>)
    ensures Answers(r, Classify(t(GetRequest(c, "/v1/users/me"))), codec.userOf)
  {
    Decode(Get(c, t, "/v1/users/me"), codec.userOf)
  }

  /** `Client.GetAPIUsage`. */
  function GetAPIUsage(c: Client, t: Transport, codec: Codec): (r: Result<APIUsage, Error>)
    ensures Answers(r, Classify(t(GetRequest(c, "/v1/users/apiUsage"))), codec.usageOf)
  {
    Decode(Get(c, t, "/v1/users/apiUsage"), codec.usageOf)
  }

  // --------------------------------------------------------------- labels

  /** `Client.GetLabels`. */
  function GetLabels(c: Client, t: Transport, codec: Codec): (r: Result<seq<Label>, Error>)
    ensures Answers(r, Classify(t(GetRequest(c, "/v1/labels/getLabels"))), codec.labelsOf)
  {
    Decode(Get(c, t, "/v1/labels/getLabels"), codec.labelsOf)
  }

  /** `Client.CreateLabel`: the request is sent as it is given. */
  function CreateLabel(c: Client, t: Transport, codec: Codec, req: CreateLabelRequest): (r: Result<Label, Error>)
    ensures Answers(r, Classify(t(PostRequest(c, "/v1/labels/createLabel", Some(EncodeCreateLabelRequest(req))))),
                    codec.labelOf)
  {
    Decode(Post(c, t, "/v1/labels/createLabel", Some(EncodeCreateLabelRequest(req))), codec.labelOf)
  }

  // ---------------------------------------------------------------- lists

  /** `Client.GetLists`. */
  function GetLists(c: Client, t: Transport, codec: Codec): (r: Result<seq<List>, Error>)
    ensures Answers(r, Classify(t(GetRequest(c, "/v1/lists/getLists"))), codec.listsOf)
  {
    Decode(Get(c, t, "/v1/lists/getLists"), codec.listsOf)
  }

  // ------------------------------------------------------------ properties

  /** A reply with an error status gives the API error and no user. */
  lemma UserErrorStatus(c: Client, t: Transport, codec: Codec)
    requires t(GetRequest(c, "/v1/users/me")).Received?
    requires var st := t(GetRequest(c, "/v1/users/me")).status; st < 200 || st >= 300
    ensures var x := t(GetRequest(c, "/v1/users/me"));
      GetCurrentUser(c, t, codec) == Failure(ApiError(x.status, x.body))
  {
  }

  /** Deleting succeeds on any 2xx reply, whatever bytes it carries. */
  lemma DeleteIgnoresReplyBody(c: Client, t1: Transport, t2: Transport, taskId: string)
    requires var q := PostRequest(c, "/v1/tasks/deleteTask", Some(EncodeDeleteTaskRequest(DeleteTaskRequest(taskId))));
      t1(q).Received? && t2(q).Received? && 200 <= t1(q).status < 300 && 200 <= t2(q).status < 300
    ensures DeleteTask(c, t1, taskId) == DeleteTask(c, t2, taskId) == None
  {
  }

  /** What the service decodes from a create or update body is the request the caller gave. */
  lemma BodiesArriveIntact(create: CreateTaskRequest, update: UpdateTaskRequest)
    ensures ReadCreateTaskRequest(EncodeCreateTaskRequest(create)) == Some(create)
    ensures ReadUpdateTaskRequest(EncodeUpdateTaskRequest(update)) == Some(update)
  {
    CreateTaskRequestRoundTrip(create);
    UpdateTaskRequestRoundTrip(update);
  }
}
