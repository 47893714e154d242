/** The responses the two Express handler sets send, and their JSON text as a client sees it. */
module Http {
  import opened Wrappers
  import opened Json
  import opened TaskModel

  datatype Body =
    | Empty                          // `res.status(204).send()`
    | ErrorBody(error: string)       // `{ error }`
    | MessageBody(message: string)   // `{ message }`
    | OneTask(task: TaskJson)        // one document through `toJSON`
    | TaskList(tasks: seq<TaskJson>) // an array of documents through `toJSON`

  datatype Response = Response(status: int, body: Body)

  function TaskWire(t: TaskJson): Json {
    JObj(map[
      "id" := JStr(t.id),
      "content" := JStr(t.content),
      "completed" := JBool(t.completed),
      "date" := JNum(t.date),
      "createdAt" := JNum(t.createdAt),
      "updatedAt" := JNum(t.updatedAt)])
  }

  /** The parsed JSON text of a body; an empty body has none. */
  function BodyWire(b: Body): (j: Option<Json>)
    ensures j.None? <==> b.Empty?
  {
    match b
    case Empty => None
    case ErrorBody(e) => Some(JObj(map["error" := JStr(e)]))
    case MessageBody(m) => Some(JObj(map["message" := JStr(m)]))
    case OneTask(t) => Some(TaskWire(t))
    case TaskList(ts) => Some(JArr(seq(|ts|, i requires 0 <= i < |ts| => TaskWire(ts[i]))))
  }
}
