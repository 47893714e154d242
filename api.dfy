/** The client's API service, src/services/api.ts: the request each operation sends, and how the
    outcome of `fetch` becomes a returned value, a `CustomApiError` carrying the status, or a plain
    `Error` with a fixed network message. */
module Api {
  import opened Wrappers
  import opened Json

  /** The body of a reply as `response.json()` sees it: a JSON value, or text that is not JSON
      (including an empty body), on which `json()` throws. */
  datatype BodyText = Parsed(value: Json) | Unparseable

  /** What `fetch` yields: a rejected promise, or a reply. */
  datatype HttpReply = NetworkFailure | Reply(status: int, body: BodyText)

  /** How an operation ends: it returns a value, throws a `CustomApiError(status, message)`, or throws
      a plain `Error(message)`. */
  datatype ApiResult<T> = Ok(value: T) | ApiError(status: int, message: string) | PlainError(message: string)

  /** A request as the server receives it; the query is already split into its parameters. */
  datatype Request = Request(verb: string, path: string, query: map<string, Json>, body: Option<Json>)

  const FetchDefault := "获取任务失败"
  const FetchNetwork := "获取任务时发生网络错误"
  const CreateDefault := "创建任务失败"
  const CreateNetwork := "创建任务时发生网络错误"
  const UpdateDefault := "更新任务失败"
  const UpdateNetwork := "更新任务时发生网络错误"
  const DeleteDefault := "删除任务失败"
  const DeleteNetwork := "删除任务时发生网络错误"

  /** `response.ok` */
  predicate IsOk(status: int) {
    200 <= status <= 299
  }

  /** `Array.isArray(data.errors) ? data.errors.join(', ') : data.error || fallback` on a parsed body
      other than `null`. */
  function ErrorMessage(data: Json, fallback: string): (m: string)
    requires !data.JNull?
    ensures (Field(data, "errors").Some? && Field(data, "errors").value.JArr?) ==>
      m == ArrayJoin(Field(data, "errors").value.items, ", ")
    ensures (!(Field(data, "errors").Some? && Field(data, "errors").value.JArr?) && Present(Field(data, "error"))) ==>
      m == ToStr(Field(data, "error").value)
    ensures (!(Field(data, "errors").Some? && Field(data, "errors").value.JArr?) && !Present(Field(data, "error"))) ==>
      m == fallback
  {
    var errors := Field(data, "errors");
    var error := Field(data, "error");
    if errors.Some? && errors.value.JArr? then ArrayJoin(errors.value.items, ", ")
    else if Present(error) then ToStr(error.value)
    else fallback
  }

  /** The shape shared by `fetchTasks`, `createTask` and `updateTask` (api.ts:14-32, 36-58, 62-84):
      `json()` is read before `ok` is looked at, so a body that is not JSON is a network error even on
      an ok status, and so is a `null` body on a failed one, where reading `data.errors` throws. */
  function JsonCall(reply: HttpReply, fallback: string, network: string): (r: ApiResult<Json>)
    ensures r.Ok? <==> reply.Reply? && IsOk(reply.status) && reply.body.Parsed?
    ensures r.Ok? ==> r.value == reply.body.value
    ensures r.ApiError? <==> reply.Reply? && !IsOk(reply.status) && reply.body.Parsed? && !reply.body.value.JNull?
    ensures r.ApiError? ==> r.status == reply.status && r.message == ErrorMessage(reply.body.value, fallback)
    ensures r.PlainError? ==> r.message == network
  {
    match reply
    case NetworkFailure => PlainError(network)
    case Reply(status, Unparseable) => PlainError(network)
    case Reply(status, Parsed(data)) =>
      if IsOk(status) then Ok(data)
      else if data.JNull? then PlainError(network)
      else ApiError(status, ErrorMessage(data, fallback))
  }

  /** `deleteTask` (api.ts:87-115): an ok status returns without reading the body; otherwise a body
      that is not JSON reads as `{ error: fallback }`, and the message is
      `(data && (Array.isArray(data.errors) ? data.errors.join(', ') : data.error)) || fallback`. */
  function DeleteCall(reply: HttpReply): (r: ApiResult<()>)
    ensures r.Ok? <==> reply.Reply? && IsOk(reply.status)
    ensures r.ApiError? <==> reply.Reply? && !IsOk(reply.status)
    ensures r.ApiError? ==> r.status == reply.status
    ensures (reply.Reply? && !IsOk(reply.status) && reply.body.Unparseable?) ==> r == ApiError(reply.status, DeleteDefault)
    ensures (reply.Reply? && !IsOk(reply.status) && reply.body.Parsed?) ==>
      r == ApiError(reply.status, DeleteMessage(reply.body.value))
    ensures r.PlainError? ==> r.message == DeleteNetwork
  {
    match reply
    case NetworkFailure => PlainError(DeleteNetwork)
    case Reply(status, body) =>
      if IsOk(status) then Ok(())
      else
        var data := if body.Parsed? then body.value else JObj(map["error" := JStr(DeleteDefault)]);
        ApiError(status, DeleteMessage(data))
  }

  /** The message of a failed delete: the joined `errors` when they are an array, else `error`,
      each only when the body and it are truthy; otherwise the fallback. */
  function DeleteMessage(data: Json): (m: string)
    ensures !Truthy(data) ==> m == DeleteDefault
    ensures (Truthy(data) && Field(data, "errors").Some? && Field(data, "errors").value.JArr?) ==>
      m == if ArrayJoin(Field(data, "errors").value.items, ", ") == "" then DeleteDefault
           else ArrayJoin(Field(data, "errors").value.items, ", ")
    ensures (Truthy(data) && !(Field(data, "errors").Some? && Field(data, "errors").value.JArr?)) ==>
      m == if Present(Field(data, "error")) then ToStr(Field(data, "error").value) else DeleteDefault
  {
    if !Truthy(data) then DeleteDefault
    else
      var errors := Field(data, "errors");
      var picked := if errors.Some? && errors.value.JArr? then Some(JStr(ArrayJoin(errors.value.items, ", ")))
                    else Field(data, "error");
      if Present(picked) then ToStr(picked.value) else DeleteDefault
  }

  function FetchTasks(reply: HttpReply): ApiResult<Json> {
    JsonCall(reply, FetchDefault, FetchNetwork)
  }

  function CreateTask(reply: HttpReply): ApiResult<Json> {
    JsonCall(reply, CreateDefault, CreateNetwork)
  }

  function UpdateTask(reply: HttpReply): ApiResult<Json> {
    JsonCall(reply, UpdateDefault, UpdateNetwork)
  }

  /** `GET ${API_BASE_URL}/tasks?start=${start}&end=${end}` (api.ts:15-17). */
  function FetchRequest(start: string, end: string): (q: Request)
    ensures q.verb == "GET" && q.path == "/api/tasks" && q.body.None?
    ensures q.query.Keys == {"start", "end"} && q.query["start"] == JStr(start) && q.query["end"] == JStr(end)
  {
    Request("GET", "/api/tasks", map["start" := JStr(start), "end" := JStr(end)], None)
  }

  /** `POST ${API_BASE_URL}/tasks` with the new task as its JSON body (api.ts:37-43). */
  function CreateRequest(content: string, date: string, completed: bool): (q: Request)
    ensures q.verb == "POST" && q.path == "/api/tasks" && q.query == map[]
    ensures q.body == Some(JObj(map["content" := JStr(content), "date" := JStr(date), "completed" := JBool(completed)]))
  {
    Request("POST", "/api/tasks", map[],
      Some(JObj(map["content" := JStr(content), "date" := JStr(date), "completed" := JBool(completed)])))
  }

  /** `PUT ${API_BASE_URL}/tasks/${id}` with the given fields as its JSON body (api.ts:63-69); a
      field left out of the partial task is absent from the body. */
  function UpdateRequest(id: string, content: Option<string>, date: Option<string>, completed: Option<bool>): (q: Request)
    ensures q.verb == "PUT" && q.path == "/api/tasks/" + id && q.query == map[] && q.body.Some?
    ensures q.body.value.JObj? && q.body.value.fields.Keys <= {"content", "date", "completed"}
    ensures "content" in q.body.value.fields <==> content.Some?
    ensures "date" in q.body.value.fields <==> date.Some?
    ensures "completed" in q.body.value.fields <==> completed.Some?
    ensures content.Some? ==> q.body.value.fields["content"] == JStr(content.value)
    ensures date.Some? ==> q.body.value.fields["date"] == JStr(date.value)
    ensures completed.Some? ==> q.body.value.fields["completed"] == JBool(completed.value)
  {
    var m1: map<string, Json> := if content.Some? then map["content" := JStr(content.value)] else map[];
    var m2 := if date.Some? then m1["date" := JStr(date.value)] else m1;
    var m3 := if completed.Some? then m2["completed" := JBool(completed.value)] else m2;
    Request("PUT", "/api/tasks/" + id, map[], Some(JObj(m3)))
  }

  /** `DELETE ${API_BASE_URL}/tasks/${id}` without a body (api.ts:89-95). */
  function DeleteRequest(id: string): (q: Request)
    ensures q.verb == "DELETE" && q.path == "/api/tasks/" + id && q.query == map[] && q.body.None?
  {
    Request("DELETE", "/api/tasks/" + id, map[], None)
  }

  /** An `{ error }` reply on a failed status surfaces its message unchanged in every operation,
      with the status. */
  lemma ErrorFieldSurfaces(status: int, e: string)
    requires !IsOk(status) && e != ""
    ensures FetchTasks(Reply(status, Parsed(JObj(map["error" := JStr(e)])))) == ApiError(status, e)
    ensures CreateTask(Reply(status, Parsed(JObj(map["error" := JStr(e)])))) == ApiError(status, e)
    ensures UpdateTask(Reply(status, Parsed(JObj(map["error" := JStr(e)])))) == ApiError(status, e)
    ensures DeleteCall(Reply(status, Parsed(JObj(map["error" := JStr(e)])))) == ApiError(status, e)
  {
    var data := JObj(map["error" := JStr(e)]);
    assert Field(data, "errors") == None && Field(data, "error") == Some(JStr(e));
  }

  /** An empty `errors` array gives an empty message in the three JSON-reading operations, but the
      fallback in `deleteTask`. */
  lemma EmptyErrorsArray(status: int)
    requires !IsOk(status)
    ensures FetchTasks(Reply(status, Parsed(JObj(map["errors" := JArr([])])))) == ApiError(status, "")
    ensures DeleteCall(Reply(status, Parsed(JObj(map["errors" := JArr([])])))) == ApiError(status, DeleteDefault)
  {
    var data := JObj(map["errors" := JArr([])]);
    assert Field(data, "errors") == Some(JArr([]));
    assert ArrayJoin([], ", ") == "";
  }

  /** A body that is not JSON is a network error in the three JSON-reading operations, even with an
      ok status, but a failed delete reports the fallback with the status. */
  lemma UnparseableBody(status: int)
    ensures FetchTasks(Reply(status, Unparseable)) == PlainError(FetchNetwork)
    ensures CreateTask(Reply(status, Unparseable)) == PlainError(CreateNetwork)
    ensures UpdateTask(Reply(status, Unparseable)) == PlainError(UpdateNetwork)
    ensures !IsOk(status) ==> DeleteCall(Reply(status, Unparseable)) == ApiError(status, DeleteDefault)
    ensures IsOk(status) ==> DeleteCall(Reply(status, Unparseable)) == Ok(())
  {
    var data := JObj(map["error" := JStr(DeleteDefault)]);
    assert Field(data, "errors") == None && Field(data, "error") == Some(JStr(DeleteDefault));
  }
}
