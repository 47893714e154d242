/** The four handlers that server/src/index.js mounts under `/api/tasks`, each run against the shared
    collection after its middleware. A store error thrown during the operation (a lost connection,
    say) is the parameter `fault`, carrying the error's message; the moment of the request is
    `now`, and the id that MongoDB gives a new document is `newId`. */
module Server {
  import opened Wrappers
  import opened Json
  import opened Dates
  import opened TaskModel
  import opened Validation
  import opened Http
  import opened Store

  const NotFound := "Task not found"

  /** `GET /api/tasks` behind `validateDateRange` (index.js:36-62). The validator reads `startDate`
      and `endDate`, the handler reads `start` and `end`: when either of those is missing or not a
      date, the query cannot cast its bounds and the handler answers 500. */
  method ListTasks(store: TaskStore, query: map<string, Json>, parse: DateParser, fault: Option<string>)
    returns (res: Response)
    ensures ValidateDateRange(query, parse).Reject? ==>
      res == Response(400, ErrorBody(ValidateDateRange(query, parse).error))
    ensures (ValidateDateRange(query, parse) == Next &&
             (NewDate(Get(query, "start"), parse).None? || NewDate(Get(query, "end"), parse).None?)) ==>
      res == Response(500, ErrorBody(RangeCastFailed))
    ensures (ValidateDateRange(query, parse) == Next &&
             NewDate(Get(query, "start"), parse).Some? && NewDate(Get(query, "end"), parse).Some? &&
             fault.Some?) ==>
      res == Response(500, ErrorBody(fault.value))
    ensures (ValidateDateRange(query, parse) == Next &&
             NewDate(Get(query, "start"), parse).Some? && NewDate(Get(query, "end"), parse).Some? &&
             fault.None?) ==>
      var s := NewDate(Get(query, "start"), parse).value;
      var e := NewDate(Get(query, "end"), parse).value;
      res == Response(200, TaskList(ToJsonAll(Listing(store.docs, StartOfDay(s), EndOfDay(e)))))
  {
    var verdict := ValidateDateRange(query, parse);
    if verdict.Reject? {
      return Response(400, ErrorBody(verdict.error));
    }
    var start := NewDate(Get(query, "start"), parse);
    var end := NewDate(Get(query, "end"), parse);
    if start.None? || end.None? {
      return Response(500, ErrorBody(RangeCastFailed));
    }
    if fault.Some? {
      return Response(500, ErrorBody(fault.value));
    }
    var found := store.Find(StartOfDay(start.value), EndOfDay(end.value));
    res := Response(200, TaskList(ToJsonAll(found)));
  }

  /** `POST /api/tasks` behind `validateTask` (index.js:64-72): the body becomes a new document,
      which `save()` stores with its date at midnight and answers 201 with; a failed save answers
      400 with the error's message and stores nothing. */
  method CreateTask(store: TaskStore, body: map<string, Json>, parse: DateParser, newId: ObjectId,
                    now: Timestamp, fault: Option<string>)
    returns (res: Response)
    requires store.Valid() && newId !in Ids(store.docs)
    modifies store
    ensures store.Valid()
    ensures ValidateTask(body, parse).Reject? ==>
      res == Response(400, ErrorBody(ValidateTask(body, parse).error)) && store.docs == old(store.docs)
    ensures (ValidateTask(body, parse) == Next && CompletedCastFails(body)) ==>
      res == Response(400, ErrorBody(SaveCastFailed)) && store.docs == old(store.docs)
    ensures (ValidateTask(body, parse) == Next && !CompletedCastFails(body) && fault.Some?) ==>
      res == Response(400, ErrorBody(fault.value)) && store.docs == old(store.docs)
    ensures (ValidateTask(body, parse) == Next && !CompletedCastFails(body) && fault.None?) ==>
      var r := SavedRecord(newId, BodyFields(body, parse), now);
      res == Response(201, OneTask(ToJson(r))) && store.docs == old(store.docs) + [r]
  {
    var verdict := ValidateTask(body, parse);
    if verdict.Reject? {
      return Response(400, ErrorBody(verdict.error));
    }
    if CompletedCastFails(body) {
      return Response(400, ErrorBody(SaveCastFailed));
    }
    if fault.Some? {
      return Response(400, ErrorBody(fault.value));
    }
    var doc := new TaskDocument(newId, BodyFields(body, parse), now);
    var r := doc.Save(now);
    store.Insert(r);
    res := Response(201, OneTask(ToJson(r)));
  }

  /** `PUT /api/tasks/:id` behind `validateTask` (index.js:74-88): the document with that id gets the
      body's fields and is answered with; an unknown id answers 404 and a cast or store error 400,
      and neither changes the collection. */
  method UpdateTask(store: TaskStore, id: string, body: map<string, Json>, parse: DateParser,
                    now: Timestamp, fault: Option<string>)
    returns (res: Response)
    requires store.Valid()
    modifies store
    ensures store.Valid()
    ensures ValidateTask(body, parse).Reject? ==>
      res == Response(400, ErrorBody(ValidateTask(body, parse).error)) && store.docs == old(store.docs)
    ensures (ValidateTask(body, parse) == Next && CastObjectId(id).None?) ==>
      res == Response(400, ErrorBody(IdCastFailed)) && store.docs == old(store.docs)
    ensures (ValidateTask(body, parse) == Next && CastObjectId(id).Some? && CompletedCastFails(body)) ==>
      res == Response(400, ErrorBody(UpdateCastFailed)) && store.docs == old(store.docs)
    ensures (ValidateTask(body, parse) == Next && CastObjectId(id).Some? && !CompletedCastFails(body) &&
             fault.Some?) ==>
      res == Response(400, ErrorBody(fault.value)) && store.docs == old(store.docs)
    ensures (ValidateTask(body, parse) == Next && CastObjectId(id).Some? && !CompletedCastFails(body) &&
             fault.None? && CastObjectId(id).value !in Ids(old(store.docs))) ==>
      res == Response(404, ErrorBody(NotFound)) && store.docs == old(store.docs)
    ensures (ValidateTask(body, parse) == Next && CastObjectId(id).Some? && !CompletedCastFails(body) &&
             fault.None? && CastObjectId(id).value in Ids(old(store.docs))) ==>
      var k := IndexOf(old(store.docs), CastObjectId(id).value).value;
      var u := ApplyPatch(old(store.docs)[k], BodyPatch(body, parse), now);
      res == Response(200, OneTask(ToJson(u))) && store.docs == old(store.docs)[k := u]
  {
    var verdict := ValidateTask(body, parse);
    if verdict.Reject? {
      return Response(400, ErrorBody(verdict.error));
    }
    var oid := CastObjectId(id);
    if oid.None? {
      return Response(400, ErrorBody(IdCastFailed));
    }
    if CompletedCastFails(body) {
      return Response(400, ErrorBody(UpdateCastFailed));
    }
    if fault.Some? {
      return Response(400, ErrorBody(fault.value));
    }
    var updated := store.FindByIdAndUpdate(oid.value, BodyPatch(body, parse), now);
    if updated.None? {
      return Response(404, ErrorBody(NotFound));
    }
    res := Response(200, OneTask(ToJson(updated.value)));
  }

  /** `DELETE /api/tasks/:id` (index.js:90-100), which has no validator: the document with that id is
      removed and the answer is 204 with an empty body; an unknown id answers 404 and a cast or
      store error 400, and neither changes the collection. */
  method DeleteTask(store: TaskStore, id: string, fault: Option<string>) returns (res: Response)
    requires store.Valid()
    modifies store
    ensures store.Valid()
    ensures CastObjectId(id).None? ==>
      res == Response(400, ErrorBody(IdCastFailed)) && store.docs == old(store.docs)
    ensures (CastObjectId(id).Some? && fault.Some?) ==>
      res == Response(400, ErrorBody(fault.value)) && store.docs == old(store.docs)
    ensures (CastObjectId(id).Some? && fault.None? && CastObjectId(id).value !in Ids(old(store.docs))) ==>
      res == Response(404, ErrorBody(NotFound)) && store.docs == old(store.docs)
    ensures (CastObjectId(id).Some? && fault.None? && CastObjectId(id).value in Ids(old(store.docs))) ==>
      res == Response(204, Empty) &&
      store.docs == RemoveAt(old(store.docs), IndexOf(old(store.docs), CastObjectId(id).value).value)
  {
    var oid := CastObjectId(id);
    if oid.None? {
      return Response(400, ErrorBody(IdCastFailed));
    }
    if fault.Some? {
      return Response(400, ErrorBody(fault.value));
    }
    var deleted := store.FindByIdAndDelete(oid.value);
    if deleted.None? {
      return Response(404, ErrorBody(NotFound));
    }
    res := Response(204, Empty);
  }
}
