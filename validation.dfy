/** The request-validation middleware of server/src/middleware/validateTask.js: two ordered chains
    of guards, each ending either in a 400 response carrying the first failing guard's message or
    in a call to `next()`. */
module Validation {
  import opened Wrappers
  import opened Json
  import opened Dates

  /** Exactly one of the two outcomes of a middleware: a 400 with `{error}`, or `next()`. */
  datatype Verdict = Reject(error: string) | Next

  const ContentRequired := "Content is required and must be a non-empty string"
  const DateFormatRequired := "Date must be in YYYY-MM-DD format"
  const InvalidDate := "Invalid date"
  const RangeRequired := "Both startDate and endDate are required"
  const RangeFormatRequired := "Dates must be in YYYY-MM-DD format"
  const InvalidRange := "Invalid date format"
  const RangeOutOfOrder := "startDate must be before or equal to endDate"

  /** The value is a string with at least one character that `trim()` keeps. */
  predicate HasText(v: Option<Json>) {
    v.Some? && v.value.JStr? && exists i :: 0 <= i < |v.value.s| && !IsJsWhitespace(v.value.s[i])
  }

  /** The value is a string, or an array joining to one, of the form `YYYY-MM-DD`. */
  predicate LooksLikeDay(v: Option<Json>) {
    v.Some? && (v.value.JStr? || v.value.JArr?) && IsDateFormat(ToStr(v.value))
  }

  /** The value names an instant the engine can represent. */
  predicate Parses(v: Option<Json>, parse: DateParser) {
    v.Some? && parse(ToStr(v.value)).Some?
  }

  /** The format guard `!date || !dateRegex.test(date)` fails exactly on values that do not look
      like a day: only strings and arrays can have a dash at index 4 of their string form. */
  lemma FormatGuard(v: Option<Json>)
    ensures (Present(v) && IsDateFormat(ToStr(v.value))) <==> LooksLikeDay(v)
  {
    if Present(v) && IsDateFormat(ToStr(v.value)) {
      DashAtFourOnlyInStringsOrArrays(v.value);
    }
  }

  /** The content guard `!content || typeof content !== 'string' || content.trim().length === 0`
      fails exactly on values that are not a string with text. */
  lemma ContentGuard(v: Option<Json>)
    ensures (Present(v) && v.value.JStr? && |Trim(v.value.s)| != 0) <==> HasText(v)
  {
  }

  /** `validateTask` (validateTask.js:2-22): content first, then the date's format, then the date's
      validity; the request proceeds only if all three pass. */
  function ValidateTask(body: map<string, Json>, parse: DateParser): (v: Verdict)
    ensures v == Next <==>
      HasText(Get(body, "content")) && LooksLikeDay(Get(body, "date")) && Parses(Get(body, "date"), parse)
    ensures !HasText(Get(body, "content")) ==> v == Reject(ContentRequired)
    ensures (HasText(Get(body, "content")) && !LooksLikeDay(Get(body, "date"))) ==>
      v == Reject(DateFormatRequired)
    ensures (HasText(Get(body, "content")) && LooksLikeDay(Get(body, "date")) &&
             !Parses(Get(body, "date"), parse)) ==> v == Reject(InvalidDate)
  {
    var content := Get(body, "content");
    var date := Get(body, "date");
    ContentGuard(content); FormatGuard(date);
    if !Present(content) || !content.value.JStr? || |Trim(content.value.s)| == 0 then
      Reject(ContentRequired)
    else if !Present(date) || !IsDateFormat(ToStr(date.value)) then
      Reject(DateFormatRequired)
    else if NewDate(date, parse).None? then
      Reject(InvalidDate)
    else
      Next
  }

  /** `validateDateRange` (validateTask.js:25-50): both `startDate` and `endDate` present, both of
      the form `YYYY-MM-DD`, both valid dates, and start not after end. */
  function ValidateDateRange(query: map<string, Json>, parse: DateParser): (v: Verdict)
    ensures v == Next <==>
      && LooksLikeDay(Get(query, "startDate")) && LooksLikeDay(Get(query, "endDate"))
      && Parses(Get(query, "startDate"), parse) && Parses(Get(query, "endDate"), parse)
      && parse(ToStr(query["startDate"])).value <= parse(ToStr(query["endDate"])).value
    ensures (!Present(Get(query, "startDate")) || !Present(Get(query, "endDate"))) ==>
      v == Reject(RangeRequired)
    ensures (Present(Get(query, "startDate")) && Present(Get(query, "endDate")) &&
             (!LooksLikeDay(Get(query, "startDate")) || !LooksLikeDay(Get(query, "endDate")))) ==>
      v == Reject(RangeFormatRequired)
    ensures (LooksLikeDay(Get(query, "startDate")) && LooksLikeDay(Get(query, "endDate")) &&
             (!Parses(Get(query, "startDate"), parse) || !Parses(Get(query, "endDate"), parse))) ==>
      v == Reject(InvalidRange)
    ensures (LooksLikeDay(Get(query, "startDate")) && LooksLikeDay(Get(query, "endDate")) &&
             Parses(Get(query, "startDate"), parse) && Parses(Get(query, "endDate"), parse) &&
             parse(ToStr(query["startDate"])).value > parse(ToStr(query["endDate"])).value) ==>
      v == Reject(RangeOutOfOrder)
  {
    var startDate := Get(query, "startDate");
    var endDate := Get(query, "endDate");
    FormatGuard(startDate); FormatGuard(endDate);
    if !Present(startDate) || !Present(endDate) then
      Reject(RangeRequired)
    else if !IsDateFormat(ToStr(startDate.value)) || !IsDateFormat(ToStr(endDate.value)) then
      Reject(RangeFormatRequired)
    else
      var start := NewDate(startDate, parse);
      var end := NewDate(endDate, parse);
      if start.None? || end.None? then
        Reject(InvalidRange)
      else if start.value > end.value then
        Reject(RangeOutOfOrder)
      else
        Next
  }

  /** The content guard wins over every date problem: a body without text is answered with the
      content message whatever its date. */
  lemma ContentCheckedFirst(body: map<string, Json>, date: Json, parse: DateParser)
    requires !HasText(Get(body, "content"))
    ensures ValidateTask(body["date" := date], parse) == Reject(ContentRequired)
    ensures ValidateTask(body - {"date"}, parse) == Reject(ContentRequired)
  {
    assert Get(body["date" := date], "content") == Get(body, "content");
    assert Get(body - {"date"}, "content") == Get(body, "content");
  }

  /** The range validator looks only at `startDate` and `endDate`: any other key, such as the
      `start` and `end` the client sends, changes nothing. */
  lemma RangeIgnoresOtherKeys(query: map<string, Json>, key: string, x: Json, parse: DateParser)
    requires key != "startDate" && key != "endDate"
    ensures ValidateDateRange(query[key := x], parse) == ValidateDateRange(query, parse)
  {
    assert Get(query[key := x], "startDate") == Get(query, "startDate");
    assert Get(query[key := x], "endDate") == Get(query, "endDate");
  }

  /** A one-day range (start equal to end) is accepted when the day is well formed and valid. */
  lemma OneDayRangeAccepted(day: string, parse: DateParser)
    requires IsDateFormat(day) && parse(day).Some?
    ensures ValidateDateRange(map["startDate" := JStr(day), "endDate" := JStr(day)], parse) == Next
  {
    var q := map["startDate" := JStr(day), "endDate" := JStr(day)];
    assert Get(q, "startDate") == Some(JStr(day)) && Get(q, "endDate") == Some(JStr(day));
  }

  /** An accepted range names both keys and is in order. */
  lemma AcceptedRangeIsOrdered(query: map<string, Json>, parse: DateParser)
    requires ValidateDateRange(query, parse) == Next
    ensures "startDate" in query && "endDate" in query
    ensures NewDate(Get(query, "startDate"), parse).Some? && NewDate(Get(query, "endDate"), parse).Some?
    ensures NewDate(Get(query, "startDate"), parse).value <= NewDate(Get(query, "endDate"), parse).value
  {
  }
}
