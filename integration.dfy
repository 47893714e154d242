/** How the client of src/services/api.ts and src/App.tsx meets the handlers that
    server/src/index.js mounts: the requests the client builds, what the middleware makes of them,
    and what the client makes of the answer. */
module Integration {
  import opened Wrappers
  import opened Json
  import opened Dates
  import opened TaskModel
  import opened Validation
  import opened Http
  import opened Store
  import opened Api
  import opened Week
  import Server

  /** A server answer as `fetch` hands it to the client: the status, and the body's JSON text, which
      an empty body does not have. */
  function Deliver(res: Response): (reply: HttpReply)
    ensures reply.Reply? && reply.status == res.status
    ensures reply.body.Parsed? <==> !res.body.Empty?
    ensures reply.body.Parsed? ==> Some(reply.body.value) == BodyWire(res.body)
  {
    Reply(res.status, if res.body.Empty? then Unparseable else Parsed(BodyWire(res.body).value))
  }

  /** The client names its bounds `start` and `end`, the range validator wants `startDate` and
      `endDate`: every list request the client can send is refused, whatever the bounds. */
  lemma ClientListRequestRejected(start: string, end: string, parse: DateParser)
    ensures ValidateDateRange(FetchRequest(start, end).query, parse) == Reject(RangeRequired)
  {
    var q := FetchRequest(start, end).query;
    assert "startDate" !in q;
  }

  /** A week fetch end to end: the list request goes to the mounted handler, which answers 400 before
      the collection is read, and `fetchTasks` throws that status with the validator's message. */
  method FetchWeek(store: TaskStore, start: string, end: string, parse: DateParser, fault: Option<string>)
    returns (r: ApiResult<Json>)
    ensures r == ApiError(400, RangeRequired)
  {
    ClientListRequestRejected(start, end, parse);
    var res := Server.ListTasks(store, FetchRequest(start, end).query, parse, fault);
    ErrorFieldSurfaces(400, RangeRequired);
    r := FetchTasks(Deliver(res));
  }

  /** The board creates a task with empty content; `validateTask` refuses such a body with the content
      message before looking at the date. */
  lemma ClientCreateRequestRejected(date: string, parse: DateParser)
    ensures CreateRequest("", date, false).body.Some? && CreateRequest("", date, false).body.value.JObj?
    ensures ValidateTask(CreateRequest("", date, false).body.value.fields, parse) == Reject(ContentRequired)
  {
    var body := CreateRequest("", date, false).body.value.fields;
    assert Get(body, "content") == Some(JStr(""));
  }

  /** A board create end to end, assuming `optimisticApi.createTask` (which `src/services/api.ts`
      does not define) passes the board's task unchanged to `api.createTask`: the handler answers 400
      and stores nothing, and `createTask` throws that status with the content message. */
  method CreateFromBoard(store: TaskStore, date: string, parse: DateParser, newId: ObjectId, now: Timestamp,
                         fault: Option<string>)
    returns (r: ApiResult<Json>)
    requires store.Valid() && newId !in Ids(store.docs)
    modifies store
    ensures r == ApiError(400, ContentRequired) && store.docs == old(store.docs)
  {
    ClientCreateRequestRejected(date, parse);
    var res := Server.CreateTask(store, CreateRequest("", date, false).body.value.fields, parse, newId, now, fault);
    ErrorFieldSurfaces(400, ContentRequired);
    r := Api.CreateTask(Deliver(res));
  }

  /** A delete end to end: the client reports success exactly when the id names a stored document and
      no store error occurs, so the 204 with its empty body reads as success; an id that does not cast
      surfaces as a 400 and an unknown id as a 404, each with the handler's message. */
  method DeleteFromBoard(store: TaskStore, id: string, fault: Option<string>) returns (r: ApiResult<()>)
    requires store.Valid()
    modifies store
    ensures store.Valid()
    ensures r.Ok? <==> CastObjectId(id).Some? && fault.None? && CastObjectId(id).value in Ids(old(store.docs))
    ensures r.Ok? ==> store.docs == RemoveAt(old(store.docs), IndexOf(old(store.docs), CastObjectId(id).value).value)
    ensures !r.Ok? ==> store.docs == old(store.docs)
    ensures (CastObjectId(id).Some? && fault.None? && CastObjectId(id).value !in Ids(old(store.docs))) ==>
      r == ApiError(404, Server.NotFound)
    ensures CastObjectId(id).None? ==> r == ApiError(400, IdCastFailed)
  {
    var res := Server.DeleteTask(store, id, fault);
    ErrorFieldSurfaces(400, IdCastFailed);
    ErrorFieldSurfaces(404, Server.NotFound);
    r := DeleteCall(Deliver(res));
  }

  /** A stored document as the board holds it, dated by its day. */
  function BoardTask(r: Record): (t: Task)
    ensures t.id == r.id && t.content == r.content && t.completed == r.completed
    ensures t.date == DayOf(r.date)
  {
    Task(r.id, r.content, r.completed, DayOf(r.date))
  }

  /** Tasks that came from the server carry ObjectIds, never a placeholder id, so confirming a create
      leaves every one of them in place. */
  lemma {:induction false} ServerTasksSurviveConfirm(rs: seq<Record>, created: Task)
    ensures var ts := seq(|rs|, i requires 0 <= i < |rs| => BoardTask(rs[i]));
      ReplaceTemps(ts, created) == ts
  {
    var ts := seq(|rs|, i requires 0 <= i < |rs| => BoardTask(rs[i]));
    forall j | 0 <= j < |ts| ensures ReplaceTemps(ts, created)[j] == ts[j] {
      ObjectIdIsNeverTemporary(rs[j].id);
    }
  }
}
