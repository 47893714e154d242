/** Instants and calendar days. An instant is a count of milliseconds since 1970-01-01T00:00Z and a
    day a count of days since that date; local time is taken to be UTC, so `setHours(0, 0, 0, 0)`
    is the floor to a day boundary. */
module Dates {
  import opened Wrappers
  import opened Json

  type Timestamp = int
  type Day = int

  const MsPerDay: int := 86_400_000

  /** The calendar day an instant falls on (what `dayjs(t).format('YYYY-MM-DD')` names). */
  function DayOf(t: Timestamp): Day {
    t / MsPerDay
  }

  /** The instant at which day `d` begins. */
  function Midnight(d: Day): (t: Timestamp)
    ensures DayOf(t) == d && t % MsPerDay == 0
  {
    d * MsPerDay
  }

  /** `date.setHours(0, 0, 0, 0)`: the first millisecond of the instant's day. */
  function StartOfDay(t: Timestamp): (r: Timestamp)
    ensures r % MsPerDay == 0 && r <= t < r + MsPerDay
    ensures r == Midnight(DayOf(t))
  {
    t - t % MsPerDay
  }

  /** `date.setHours(23, 59, 59, 999)`: the last millisecond of the instant's day. */
  function EndOfDay(t: Timestamp): (r: Timestamp)
    ensures t <= r && DayOf(r) == DayOf(t) && DayOf(r + 1) == DayOf(t) + 1
  {
    StartOfDay(t) + MsPerDay - 1
  }

  /** Normalising to midnight twice is normalising once. */
  lemma StartOfDayIdempotent(t: Timestamp)
    ensures StartOfDay(StartOfDay(t)) == StartOfDay(t)
  {
  }

  /** An instant lies between the start of `a`'s day and the end of `b`'s day exactly when its
      day lies between theirs: the range is inclusive of whole days at both ends. */
  lemma WholeDayRange(a: Timestamp, b: Timestamp, t: Timestamp)
    ensures StartOfDay(a) <= t <= EndOfDay(b) <==> DayOf(a) <= DayOf(t) <= DayOf(b)
  {
    var da, db, dt := DayOf(a), DayOf(b), DayOf(t);
    assert StartOfDay(a) == da * MsPerDay && EndOfDay(b) == db * MsPerDay + MsPerDay - 1;
    assert dt * MsPerDay <= t < dt * MsPerDay + MsPerDay;
    if da <= dt { MonotoneMul(da, dt); }
    if dt <= db { MonotoneMul(dt, db); }
    if StartOfDay(a) <= t && dt < da { MonotoneMul(dt + 1, da); }
    if t <= EndOfDay(b) && db < dt { MonotoneMul(db + 1, dt); }
  }

  lemma MonotoneMul(x: int, y: int)
    requires x <= y
    ensures x * MsPerDay <= y * MsPerDay
  {
  }

  /** Day of the week, Monday = 0 … Sunday = 6; 1970-01-01 was a Thursday. */
  function Weekday(d: Day): (w: nat)
    ensures w < 7 && (d - w) % 7 == 4
  {
    (d + 3) % 7
  }

  /** `startOf('week')` with the week starting on Monday (the locale update of the board). */
  function MondayOf(d: Day): (m: Day)
    ensures Weekday(m) == 0 && m <= d < m + 7
  {
    d - Weekday(d)
  }

  /** Every day of a Monday-start week has that Monday as its week start. */
  lemma MondayOfWeek(m: Day, i: int)
    requires Weekday(m) == 0 && 0 <= i < 7
    ensures MondayOf(m + i) == m
  {
  }

  /** The regular expression `^\d{4}-\d{2}-\d{2}$` (`\d` is an ASCII digit, no multiline flag). */
  predicate IsDateFormat(s: string) {
    && |s| == 10
    && IsAsciiDigit(s[0]) && IsAsciiDigit(s[1]) && IsAsciiDigit(s[2]) && IsAsciiDigit(s[3])
    && s[4] == '-'
    && IsAsciiDigit(s[5]) && IsAsciiDigit(s[6])
    && s[7] == '-'
    && IsAsciiDigit(s[8]) && IsAsciiDigit(s[9])
  }

  /** What the JavaScript engine's `Date` string parser makes of a string: an instant, or None for
      an Invalid Date. Engines differ on strings such as "2024-02-30", so it is a parameter. */
  type DateParser = string -> Option<Timestamp>

  /** `new Date(v)` on a value that may be `undefined`: None is an Invalid Date. `null`, booleans
      and numbers are converted numerically; anything else is parsed from its string form. */
  function NewDate(v: Option<Json>, parse: DateParser): (r: Option<Timestamp>)
    ensures v.Some? && (v.value.JStr? || v.value.JArr?) ==> r == parse(ToStr(v.value))
    ensures v.None? ==> r.None?
  {
    match v
    case None => None
    case Some(JNull) => Some(0)
    case Some(JBool(b)) => Some(if b then 1 else 0)
    case Some(JNum(n)) => Some(n)
    case Some(x) => parse(ToStr(x))
  }
}
