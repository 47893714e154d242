/** The Task document of server/src/models/Task.js: its identifier, the schema's defaults and
    setters, the `pre('save')` hook that moves the date to midnight, and the `toJSON` projection. */
module TaskModel {
  import opened Wrappers
  import opened Json
  import opened Dates

  predicate IsLowerHexDigit(c: char) {
    '0' <= c <= '9' || 'a' <= c <= 'f'
  }

  predicate IsHexDigit(c: char) {
    IsLowerHexDigit(c) || 'A' <= c <= 'F'
  }

  /** The string form of a MongoDB ObjectId: 24 lower-case hexadecimal digits. */
  predicate IsObjectIdHex(s: string) {
    |s| == 24 && forall i :: 0 <= i < |s| ==> IsLowerHexDigit(s[i])
  }

  type ObjectId = s: string | IsObjectIdHex(s) witness "000000000000000000000000"

  function ToLowerHex(c: char): (d: char)
    requires IsHexDigit(c)
    ensures IsLowerHexDigit(d)
    ensures IsLowerHexDigit(c) ==> d == c
  {
    if 'A' <= c <= 'F' then (c as int - 'A' as int + 'a' as int) as char else c
  }

  /** How Mongoose casts an `:id` route parameter to an ObjectId: 24 hexadecimal digits in either
      case name the id written in lower case; anything else fails with a CastError. */
  function CastObjectId(s: string): (r: Option<ObjectId>)
    ensures r.Some? <==> |s| == 24 && forall i :: 0 <= i < |s| ==> IsHexDigit(s[i])
    ensures r.Some? ==> forall i :: 0 <= i < 24 ==> r.value[i] == ToLowerHex(s[i])
    ensures IsObjectIdHex(s) ==> r == Some(s)
  {
    if |s| == 24 && forall i :: 0 <= i < |s| ==> IsHexDigit(s[i]) then
      var id := seq(24, i requires 0 <= i < 24 => ToLowerHex(s[i]));
      assert IsObjectIdHex(s) ==> id == s;
      Some(id)
    else
      None
  }

  /** A stored id never looks like the board's optimistic placeholder: 't', 'm', 'p' and '_' are
      not hexadecimal digits. */
  lemma ObjectIdIsNeverTemporary(id: ObjectId)
    ensures !StartsWith(id, "temp_")
  {
    assert IsLowerHexDigit(id[0]) && !IsLowerHexDigit('t');
  }

  /** What `new Task(...)` is given: None where the field is `undefined`. */
  datatype Fields = Fields(content: Option<string>, completed: Option<bool>, date: Option<Timestamp>)

  /** A document before it is saved: the schema's defaults and the `trim` setter applied. */
  datatype Draft = Draft(content: string, completed: bool, date: Timestamp)

  /** The schema (Task.js:3-16): `content` defaults to '' and is trimmed, `completed` defaults to
      false and `date` to the current instant. */
  function ApplyDefaults(given: Fields, now: Timestamp): (d: Draft)
    ensures given.content.None? ==> d.content == ""
    ensures d.content != "" ==> !IsJsWhitespace(d.content[0]) && !IsJsWhitespace(d.content[|d.content| - 1])
    ensures given.content.Some? ==> |d.content| <= |given.content.value|
    ensures given.content.Some? ==> d.content == Trim(given.content.value)
    ensures d.completed <==> given.completed == Some(true)
    ensures given.date.None? ==> d.date == now
    ensures given.date.Some? ==> d.date == given.date.value
  {
    Draft(Trim(given.content.GetOr("")), given.completed.GetOr(false), given.date.GetOr(now))
  }

  /** Mongoose's cast of a value to Boolean: `true`, 'true', 1, '1' and 'yes' are true; `false`,
      'false', 0, '0' and 'no' are false; anything else fails with a CastError. */
  function CastBoolean(v: Json): (r: Option<bool>)
    ensures r == Some(true) <==> v in {JBool(true), JNum(1), JStr("true"), JStr("1"), JStr("yes")}
    ensures r == Some(false) <==> v in {JBool(false), JNum(0), JStr("false"), JStr("0"), JStr("no")}
  {
    match v
    case JBool(b) => Some(b)
    case JNum(n) => if n == 1 then Some(true) else if n == 0 then Some(false) else None
    case JStr(s) =>
      if s == "true" || s == "1" || s == "yes" then Some(true)
      else if s == "false" || s == "0" || s == "no" then Some(false)
      else None
    case _ => None
  }

  /** A stored document: `_id`, the three schema fields, the `timestamps` pair and the version key
      `__v` that Mongoose adds. */
  datatype Record = Record(
    id: ObjectId,
    content: string,
    completed: bool,
    date: Timestamp,
    createdAt: Timestamp,
    updatedAt: Timestamp,
    version: nat)

  /** The JSON form of a document (`toJSON`, Task.js:33-43). The date is kept as the instant that
      `toISOString()` writes out. */
  datatype TaskJson = TaskJson(
    id: string,
    content: string,
    completed: bool,
    date: Timestamp,
    createdAt: Timestamp,
    updatedAt: Timestamp)

  function ToJson(r: Record): TaskJson {
    TaskJson(r.id, r.content, r.completed, r.date, r.createdAt, r.updatedAt)
  }

  /** `res.json(docs)`: every document of a list through `toJSON`, in order. */
  function ToJsonAll(rs: seq<Record>): seq<TaskJson> {
    seq(|rs|, i requires 0 <= i < |rs| => ToJson(rs[i]))
  }

  /** `toJSON` loses exactly the version key: two documents have the same JSON form exactly when
      they agree on every other field. */
  lemma ToJsonForgetsOnlyVersion(r1: Record, r2: Record)
    ensures ToJson(r1) == ToJson(r2) <==> r1.(version := 0) == r2.(version := 0)
  {
  }

  /** The document that `save()` stores for a new task: the draft with its date at midnight, both
      timestamps at the moment of saving and version 0. */
  function SavedRecord(id: ObjectId, given: Fields, now: Timestamp): (r: Record)
    ensures r.id == id && r.version == 0 && r.createdAt == now && r.updatedAt == now
    ensures r.date % MsPerDay == 0 && DayOf(r.date) == DayOf(given.date.GetOr(now))
    ensures r.content == ApplyDefaults(given, now).content
    ensures r.completed == ApplyDefaults(given, now).completed
  {
    var d := ApplyDefaults(given, now);
    Record(id, d.content, d.completed, StartOfDay(d.date), now, now, 0)
  }

  /** A document in memory, whose fields the save hooks overwrite in place. */
  class TaskDocument {
    const id: ObjectId
    var content: string
    var completed: bool
    var date: Timestamp
    var createdAt: Timestamp
    var updatedAt: Timestamp

    /** `new Task(given)`. */
    constructor(id: ObjectId, given: Fields, now: Timestamp)
      ensures this.id == id
      ensures Draft(content, completed, date) == ApplyDefaults(given, now)
    {
      var d := ApplyDefaults(given, now);
      this.id := id;
      content, completed, date := d.content, d.completed, d.date;
      createdAt, updatedAt := now, now;
    }

    /** The `pre('save')` hook (Task.js:22-30): the date keeps its day and loses its time of day.
        Its guard `if (this.date)` always holds, since a Date object is truthy. */
    method NormaliseDate()
      modifies this`date
      ensures date == StartOfDay(old(date))
      ensures date % MsPerDay == 0 && DayOf(date) == DayOf(old(date))
    {
      date := StartOfDay(date);
    }

    /** `save()` on a new document: the timestamps are set and the hook runs. */
    method Save(now: Timestamp) returns (r: Record)
      modifies this
      ensures r == Record(id, content, completed, date, createdAt, updatedAt, 0)
      ensures date == StartOfDay(old(date)) && createdAt == now && updatedAt == now
      ensures content == old(content) && completed == old(completed)
    {
      createdAt, updatedAt := now, now;
      NormaliseDate();
      r := Record(id, content, completed, date, createdAt, updatedAt, 0);
    }
  }

  /** Running the hook a second time changes nothing. */
  method NormaliseTwice(doc: TaskDocument)
    modifies doc`date
    ensures doc.date == StartOfDay(old(doc.date))
  {
    doc.NormaliseDate();
    ghost var once := doc.date;
    doc.NormaliseDate();
    StartOfDayIdempotent(old(doc.date));
    assert doc.date == once;
  }
}
