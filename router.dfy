/** The four handlers of server/src/routes/tasks.js, an alternative router over the same collection
    that index.js does not mount. It reads `startDate` and `endDate`, builds the document from the
    three task fields only, answers every thrown error with 500 and a fixed message, and answers a
    delete with 200 and a message. `fault`, `now` and `newId` are as for the mounted handlers. */
module Router {
  import opened Wrappers
  import opened Json
  import opened Dates
  import opened TaskModel
  import opened Validation
  import opened Http
  import opened Store

  const NotFound := "Task not found"
  const FetchFailed := "Failed to fetch tasks"
  const CreateFailed := "Failed to create task"
  const UpdateFailed := "Failed to update task"
  const DeleteFailed := "Failed to delete task"
  const Deleted := "Task deleted successfully"

  /** `completed || false` cast to Boolean: a falsy or missing value is false, and a truthy one must
      be a Boolean literal, or the cast fails (None). */
  function RouterCompleted(body: map<string, Json>): (c: Option<bool>)
    ensures !Present(Get(body, "completed")) ==> c == Some(false)
    ensures Present(Get(body, "completed")) ==> c == CastBoolean(body["completed"])
  {
    if Present(Get(body, "completed")) then CastBoolean(body["completed"]) else Some(false)
  }

  /** `new Task({ content, date: new Date(date), completed: completed || false })` of a validated body
      whose `completed` casts. */
  function RouterFields(body: map<string, Json>, parse: DateParser): Fields
    requires ValidateTask(body, parse) == Next && RouterCompleted(body).Some?
  {
    Fields(Some(body["content"].s), RouterCompleted(body), NewDate(Get(body, "date"), parse))
  }

  /** When both handler sets accept a body, they store the same document: the router's
      `completed || false` only differs from the schema default on values the schema cannot cast. */
  lemma CreateVariantsAgree(body: map<string, Json>, parse: DateParser, id: ObjectId, now: Timestamp)
    requires ValidateTask(body, parse) == Next
    requires !CompletedCastFails(body) && RouterCompleted(body).Some?
    ensures SavedRecord(id, RouterFields(body, parse), now) == SavedRecord(id, BodyFields(body, parse), now)
  {
    var rf, bf := RouterFields(body, parse), BodyFields(body, parse);
    assert rf.content == bf.content && rf.date == bf.date;
    CompletedDefaultsAgree(body);
    assert ApplyDefaults(rf, now) == ApplyDefaults(bf, now);
  }

  /** `completed || false` is true exactly when the schema's cast of `completed` is true. */
  lemma CompletedDefaultsAgree(body: map<string, Json>)
    requires !CompletedCastFails(body) && RouterCompleted(body).Some?
    ensures RouterCompleted(body) == Some(true) <==> CompletedValue(body) == Some(true)
  {
    if "completed" in body && !Truthy(body["completed"]) {
      assert CastBoolean(body["completed"]) != Some(true);
    }
  }

  /** The router builds a document from `content`, `date` and `completed` alone: keys outside those
      three change nothing it stores. */
  lemma RouterIgnoresOtherKeys(body: map<string, Json>, key: string, x: Json, parse: DateParser)
    requires key != "content" && key != "date" && key != "completed"
    requires ValidateTask(body, parse) == Next && RouterCompleted(body).Some?
    ensures ValidateTask(body[key := x], parse) == Next && RouterCompleted(body[key := x]).Some?
    ensures RouterFields(body[key := x], parse) == RouterFields(body, parse)
  {
    var b := body[key := x];
    assert Get(b, "content") == Get(body, "content");
    assert Get(b, "date") == Get(body, "date");
    assert Get(b, "completed") == Get(body, "completed");
  }

  /** `GET /` behind `validateDateRange` (tasks.js:8-29): the documents dated on the days from
      `startDate` to `endDate`, both whole, sorted by date; a store error answers 500. */
  method ListTasks(store: TaskStore, query: map<string, Json>, parse: DateParser, fault: Option<string>)
    returns (res: Response)
    ensures ValidateDateRange(query, parse).Reject? ==>
      res == Response(400, ErrorBody(ValidateDateRange(query, parse).error))
    ensures (ValidateDateRange(query, parse) == Next && fault.Some?) ==>
      res == Response(500, ErrorBody(FetchFailed))
    ensures (ValidateDateRange(query, parse) == Next && fault.None?) ==>
      var s := NewDate(Get(query, "startDate"), parse).value;
      var e := NewDate(Get(query, "endDate"), parse).value;
      res == Response(200, TaskList(ToJsonAll(Listing(store.docs, StartOfDay(s), EndOfDay(e)))))
  {
    var verdict := ValidateDateRange(query, parse);
    if verdict.Reject? {
      return Response(400, ErrorBody(verdict.error));
    }
    AcceptedRangeIsOrdered(query, parse);
    if fault.Some? {
      return Response(500, ErrorBody(FetchFailed));
    }
    var s := NewDate(Get(query, "startDate"), parse).value;
    var e := NewDate(Get(query, "endDate"), parse).value;
    var found := store.Find(StartOfDay(s), EndOfDay(e));
    res := Response(200, TaskList(ToJsonAll(found)));
  }

  /** `POST /` behind `validateTask` (tasks.js:31-46): a new document from the three fields,
      answered with 201; a failed save answers 500 and stores nothing. */
  method CreateTask(store: TaskStore, body: map<string, Json>, parse: DateParser, newId: ObjectId,
                    now: Timestamp, fault: Option<string>)
    returns (res: Response)
    requires store.Valid() && newId !in Ids(store.docs)
    modifies store
    ensures store.Valid()
    ensures ValidateTask(body, parse).Reject? ==>
      res == Response(400, ErrorBody(ValidateTask(body, parse).error)) && store.docs == old(store.docs)
    ensures (ValidateTask(body, parse) == Next && (RouterCompleted(body).None? || fault.Some?)) ==>
      res == Response(500, ErrorBody(CreateFailed)) && store.docs == old(store.docs)
    ensures (ValidateTask(body, parse) == Next && RouterCompleted(body).Some? && fault.None?) ==>
      var r := SavedRecord(newId, RouterFields(body, parse), now);
      res == Response(201, OneTask(ToJson(r))) && store.docs == old(store.docs) + [r]
  {
    var verdict := ValidateTask(body, parse);
    if verdict.Reject? {
      return Response(400, ErrorBody(verdict.error));
    }
    if RouterCompleted(body).None? || fault.Some? {
      return Response(500, ErrorBody(CreateFailed));
    }
    var doc := new TaskDocument(newId, RouterFields(body, parse), now);
    var r := doc.Save(now);
    store.Insert(r);
    res := Response(201, OneTask(ToJson(r)));
  }

  /** `PUT /:id` behind `validateTask` (tasks.js:48-65): the document with that id gets `content`,
      `date` and, when given, `completed`; an unknown id answers 404 and any thrown error 500, and
      neither changes the collection. */
  method UpdateTask(store: TaskStore, id: string, body: map<string, Json>, parse: DateParser,
                    now: Timestamp, fault: Option<string>)
    returns (res: Response)
    requires store.Valid()
    modifies store
    ensures store.Valid()
    ensures ValidateTask(body, parse).Reject? ==>
      res == Response(400, ErrorBody(ValidateTask(body, parse).error)) && store.docs == old(store.docs)
    ensures (ValidateTask(body, parse) == Next &&
             (CastObjectId(id).None? || CompletedCastFails(body) || fault.Some?)) ==>
      res == Response(500, ErrorBody(UpdateFailed)) && store.docs == old(store.docs)
    ensures (ValidateTask(body, parse) == Next && CastObjectId(id).Some? && !CompletedCastFails(body) &&
             fault.None? && CastObjectId(id).value !in Ids(old(store.docs))) ==>
      res == Response(404, ErrorBody(NotFound)) && store.docs == old(store.docs)
    ensures (ValidateTask(body, parse) == Next && CastObjectId(id).Some? && !CompletedCastFails(body) &&
             fault.None? && CastObjectId(id).value in Ids(old(store.docs))) ==>
      var k := IndexOf(old(store.docs), CastObjectId(id).value).value;
      var u := ApplyPatch(old(store.docs)[k], BodyPatch(body, parse), now);
      res == Response(200, OneTask(ToJson(u))) && store.docs == old(store.docs)[k := u]
  {
    var verdict := ValidateTask(body, parse);
    if verdict.Reject? {
      return Response(400, ErrorBody(verdict.error));
    }
    var oid := CastObjectId(id);
    if oid.None? || CompletedCastFails(body) || fault.Some? {
      return Response(500, ErrorBody(UpdateFailed));
    }
    var updated := store.FindByIdAndUpdate(oid.value, BodyPatch(body, parse), now);
    if updated.None? {
      return Response(404, ErrorBody(NotFound));
    }
    res := Response(200, OneTask(ToJson(updated.value)));
  }

  /** `DELETE /:id` (tasks.js:67-79): the document with that id is removed and the answer is 200 with
      `{ message }`; an unknown id answers 404 and any thrown error 500, and neither changes the
      collection. */
  method DeleteTask(store: TaskStore, id: string, fault: Option<string>) returns (res: Response)
    requires store.Valid()
    modifies store
    ensures store.Valid()
    ensures (CastObjectId(id).None? || fault.Some?) ==>
      res == Response(500, ErrorBody(DeleteFailed)) && store.docs == old(store.docs)
    ensures (CastObjectId(id).Some? && fault.None? && CastObjectId(id).value !in Ids(old(store.docs))) ==>
      res == Response(404, ErrorBody(NotFound)) && store.docs == old(store.docs)
    ensures (CastObjectId(id).Some? && fault.None? && CastObjectId(id).value in Ids(old(store.docs))) ==>
      res == Response(200, MessageBody(Deleted)) &&
      store.docs == RemoveAt(old(store.docs), IndexOf(old(store.docs), CastObjectId(id).value).value)
  {
    var oid := CastObjectId(id);
    if oid.None? || fault.Some? {
      return Response(500, ErrorBody(DeleteFailed));
    }
    var deleted := store.FindByIdAndDelete(oid.value);
    if deleted.None? {
      return Response(404, ErrorBody(NotFound));
    }
    res := Response(200, MessageBody(Deleted));
  }
}
