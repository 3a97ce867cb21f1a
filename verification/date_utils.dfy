/** The `DateUtils` static class: the generic parse/format/convert
    operations, their named specializations over the `Formats` catalog, the
    relative-time and month-name helpers, and `padStart`.

    No operation throws. A failure surfaces as a sentinel whose kind depends
    on the operation: `null` (None) for `parse` and for `fromNow` on a string,
    the empty string for `format`, the `convert` family and the month names. */
module DateUtils {
  import opened Wrappers
  import opened DateEngine
  import opened JsText
  import Formats

  /* ---------- the sentinel contracts, stated against the engine ---------- */

  /** `r` is what a no-throw parse of `value` under `fmt` in `mode` must give:
      null exactly when the engine rejects the input, the engine's instant
      otherwise. */
  predicate ParsesAs(e: Engine, value: string, fmt: Option<string>, mode: Mode, r: Option<Date>) {
    var d := e.parse(value, fmt, mode);
    (r.None? <==> !d.ValidDate?) && (r.Some? ==> r.value == d)
  }

  /** `r` is what a no-throw rendering of `date` with `fmt` in `mode` must
      give: the empty string for an Invalid Date, the engine's rendering
      otherwise. */
  predicate FormatsAs(e: Engine, date: Date, fmt: Option<string>, mode: Mode, r: string) {
    (!date.ValidDate? ==> r == "") &&
    (date.ValidDate? ==> r == e.render(Moment(date, mode), fmt))
  }

  /** `r` is what reading `value` under `src` in `readMode` and then writing
      it with `dst` in `writeMode` must give: the empty string when the read
      fails, the engine's rendering of the instant read otherwise. */
  predicate ConvertsAs(e: Engine, value: string, src: Option<string>, dst: Option<string>,
                       readMode: Mode, writeMode: Mode, r: string) {
    var d := e.parse(value, src, readMode);
    (!d.ValidDate? ==> r == "") &&
    (d.ValidDate? ==> r == e.render(Moment(d, writeMode), dst))
  }

  /** JavaScript truthiness of an optional pattern: `undefined`, `null` and
      `""` are all falsy. */
  predicate Falsy(fmt: Option<string>) {
    fmt.None? || fmt.value == ""
  }

  /* ---------- parse ---------- */

  /** `DateUtils.parse(value, format, isUTC = false)` */
  function Parse(e: Engine, value: string, fmt: Option<string>, isUtc: bool := false): (r: Option<Date>)
    ensures ParsesAs(e, value, fmt, ModeOf(isUtc), r)
    ensures r.Some? ==> r.value.ValidDate?
  {
    var m := if isUtc then ParseMoment(e, value, fmt, Utc) else ParseMoment(e, value, fmt, Local);
    if m.IsValid() then Some(m.ToDate()) else None
  }

  function ParseDateCompact(e: Engine, value: string, isUtc: bool := false): (r: Option<Date>)
    ensures ParsesAs(e, value, Some("YYYYMMDD"), ModeOf(isUtc), r)
  {
    Parse(e, value, Some(Formats.DateCompact), isUtc)
  }

  function ParseDateTimeCompact(e: Engine, value: string, isUtc: bool := false): (r: Option<Date>)
    ensures ParsesAs(e, value, Some("YYYYMMDDHHmmss"), ModeOf(isUtc), r)
  {
    Parse(e, value, Some(Formats.DateTimeCompact), isUtc)
  }

  function ParseDateDot(e: Engine, value: string, isUtc: bool := false): (r: Option<Date>)
    ensures ParsesAs(e, value, Some("YYYY.MM.DD"), ModeOf(isUtc), r)
  {
    Parse(e, value, Some(Formats.DateDot), isUtc)
  }

  function ParseDateTimeDot(e: Engine, value: string, isUtc: bool := false): (r: Option<Date>)
    ensures ParsesAs(e, value, Some("YYYY.MM.DD HH:mm:ss"), ModeOf(isUtc), r)
  {
    Parse(e, value, Some(Formats.DateTimeDot), isUtc)
  }

  function ParseDateDash(e: Engine, value: string, isUtc: bool := false): (r: Option<Date>)
    ensures ParsesAs(e, value, Some("YYYY-MM-DD"), ModeOf(isUtc), r)
  {
    Parse(e, value, Some(Formats.DateDash), isUtc)
  }

  function ParseDateTimeDash(e: Engine, value: string, isUtc: bool := false): (r: Option<Date>)
    ensures ParsesAs(e, value, Some("YYYY-MM-DD HH:mm:ss"), ModeOf(isUtc), r)
  {
    Parse(e, value, Some(Formats.DateTimeDash), isUtc)
  }

  function ParseDateSlash(e: Engine, value: string, isUtc: bool := false): (r: Option<Date>)
    ensures ParsesAs(e, value, Some("YYYY/MM/DD"), ModeOf(isUtc), r)
  {
    Parse(e, value, Some(Formats.DateSlash), isUtc)
  }

  function ParseDateTimeSlash(e: Engine, value: string, isUtc: bool := false): (r: Option<Date>)
    ensures ParsesAs(e, value, Some("YYYY/MM/DD HH:mm:ss"), ModeOf(isUtc), r)
  {
    Parse(e, value, Some(Formats.DateTimeSlash), isUtc)
  }

  /** Takes no `isUTC`: always the local-mode parse, leaving the offset in the
      text to fix the instant. */
  function ParseDateTimeWithZone(e: Engine, value: string): (r: Option<Date>)
    ensures ParsesAs(e, value, Some("YYYY-MM-DDTHH:mm:ssZ"), Local, r)
  {
    Parse(e, value, Some(Formats.DateTimeZone))
  }

  /* ---------- format ---------- */

  /** `DateUtils.format(date, format, isUTC = false)` */
  function Format(e: Engine, date: Date, fmt: Option<string>, isUtc: bool := false): (r: string)
    ensures FormatsAs(e, date, fmt, ModeOf(isUtc), r)
  {
    var m := if isUtc then Wrap(date, Utc) else Wrap(date, Local);
    if m.IsValid() then e.render(m, fmt) else ""
  }

  function FormatDateCompact(e: Engine, date: Date, isUtc: bool := false): (r: string)
    ensures FormatsAs(e, date, Some("YYYYMMDD"), ModeOf(isUtc), r)
  {
    Format(e, date, Some(Formats.DateCompact), isUtc)
  }

  function FormatTime(e: Engine, date: Date, isUtc: bool := false): (r: string)
    ensures FormatsAs(e, date, Some("HH:mm:ss"), ModeOf(isUtc), r)
  {
    Format(e, date, Some(Formats.Time), isUtc)
  }

  function FormatDateTimeCompact(e: Engine, date: Date, isUtc: bool := false): (r: string)
    ensures FormatsAs(e, date, Some("YYYYMMDDHHmmss"), ModeOf(isUtc), r)
  {
    Format(e, date, Some(Formats.DateTimeCompact), isUtc)
  }

  function FormatDateDot(e: Engine, date: Date, isUtc: bool := false): (r: string)
    ensures FormatsAs(e, date, Some("YYYY.MM.DD"), ModeOf(isUtc), r)
  {
    Format(e, date, Some(Formats.DateDot), isUtc)
  }

  function FormatDateTimeDot(e: Engine, date: Date, isUtc: bool := false): (r: string)
    ensures FormatsAs(e, date, Some("YYYY.MM.DD HH:mm:ss"), ModeOf(isUtc), r)
  {
    Format(e, date, Some(Formats.DateTimeDot), isUtc)
  }

  function FormatDateDash(e: Engine, date: Date, isUtc: bool := false): (r: string)
    ensures FormatsAs(e, date, Some("YYYY-MM-DD"), ModeOf(isUtc), r)
  {
    Format(e, date, Some(Formats.DateDash), isUtc)
  }

  function FormatDateTimeDash(e: Engine, date: Date, isUtc: bool := false): (r: string)
    ensures FormatsAs(e, date, Some("YYYY-MM-DD HH:mm:ss"), ModeOf(isUtc), r)
  {
    Format(e, date, Some(Formats.DateTimeDash), isUtc)
  }

  function FormatDateSlash(e: Engine, date: Date, isUtc: bool := false): (r: string)
    ensures FormatsAs(e, date, Some("YYYY/MM/DD"), ModeOf(isUtc), r)
  {
    Format(e, date, Some(Formats.DateSlash), isUtc)
  }

  function FormatDateTimeSlash(e: Engine, date: Date, isUtc: bool := false): (r: string)
    ensures FormatsAs(e, date, Some("YYYY/MM/DD HH:mm:ss"), ModeOf(isUtc), r)
  {
    Format(e, date, Some(Formats.DateTimeSlash), isUtc)
  }

  /* ---------- convert ---------- */

  /** `DateUtils.convert(value, fromFormat, toFormat)`: local in, local out;
      a falsy `toFormat` (omitted, null or "") falls back to `fromFormat`. */
  function Convert(e: Engine, value: string, fromFormat: Option<string>, toFormat: Option<string>): (r: string)
    ensures Falsy(toFormat) ==> ConvertsAs(e, value, fromFormat, fromFormat, Local, Local, r)
    ensures !Falsy(toFormat) ==> ConvertsAs(e, value, fromFormat, toFormat, Local, Local, r)
  {
    var m := ParseMoment(e, value, fromFormat, Local);
    var dst := if Falsy(toFormat) then fromFormat else toFormat;
    if m.IsValid() then e.render(m, dst) else ""
  }

  /** `DateUtils.convertFromUTC(value, fromFormat, toFormat = fromFormat)`:
      UTC in, local out. Only an omitted `toFormat` takes the default; an
      explicit "" is passed on to the engine. */
  function ConvertFromUTC(e: Engine, value: string, fromFormat: Option<string>, toFormat: Option<string> := None): (r: string)
    ensures toFormat.None? ==> ConvertsAs(e, value, fromFormat, fromFormat, Utc, Local, r)
    ensures toFormat.Some? ==> ConvertsAs(e, value, fromFormat, toFormat, Utc, Local, r)
  {
    var dst := if toFormat.None? then fromFormat else toFormat;
    var m := ParseMoment(e, value, fromFormat, Utc);
    if m.IsValid() then e.render(m.ToLocal(), dst) else ""
  }

  /** `DateUtils.convertToUTC(value, fromFormat, toFormat = fromFormat)`:
      local in, UTC out. */
  function ConvertToUTC(e: Engine, value: string, fromFormat: Option<string>, toFormat: Option<string> := None): (r: string)
    ensures toFormat.None? ==> ConvertsAs(e, value, fromFormat, fromFormat, Local, Utc, r)
    ensures toFormat.Some? ==> ConvertsAs(e, value, fromFormat, toFormat, Local, Utc, r)
  {
    var dst := if toFormat.None? then fromFormat else toFormat;
    var m := ParseMoment(e, value, fromFormat, Local);
    if m.IsValid() then e.render(m.ToUtc(), dst) else ""
  }

  function ConvertUTCDateTimeCompactToDateTimeDash(e: Engine, value: string): (r: string)
    ensures ConvertsAs(e, value, Some("YYYYMMDDHHmmss"), Some("YYYY-MM-DD HH:mm:ss"), Utc, Local, r)
  {
    ConvertFromUTC(e, value, Some(Formats.DateTimeCompact), Some(Formats.DateTimeDash))
  }

  function ConvertUTCDateTimeCompactToDateTimeDot(e: Engine, value: string): (r: string)
    ensures ConvertsAs(e, value, Some("YYYYMMDDHHmmss"), Some("YYYY.MM.DD HH:mm:ss"), Utc, Local, r)
  {
    ConvertFromUTC(e, value, Some(Formats.DateTimeCompact), Some(Formats.DateTimeDot))
  }

  function ConvertUTCDateTimeCompactToDateTimeSlash(e: Engine, value: string): (r: string)
    ensures ConvertsAs(e, value, Some("YYYYMMDDHHmmss"), Some("YYYY/MM/DD HH:mm:ss"), Utc, Local, r)
  {
    ConvertFromUTC(e, value, Some(Formats.DateTimeCompact), Some(Formats.DateTimeSlash))
  }

  function ConvertUTCDateTimeCompactToDateDash(e: Engine, value: string): (r: string)
    ensures ConvertsAs(e, value, Some("YYYYMMDDHHmmss"), Some("YYYY-MM-DD"), Utc, Local, r)
  {
    ConvertFromUTC(e, value, Some(Formats.DateTimeCompact), Some(Formats.DateDash))
  }

  function ConvertUTCDateTimeCompactToDateDot(e: Engine, value: string): (r: string)
    ensures ConvertsAs(e, value, Some("YYYYMMDDHHmmss"), Some("YYYY.MM.DD"), Utc, Local, r)
  {
    ConvertFromUTC(e, value, Some(Formats.DateTimeCompact), Some(Formats.DateDot))
  }

  /** Unlike its five siblings this one goes through the local `convert`:
      the compact text is read as local time, not as UTC. */
  function ConvertUTCDateTimeCompactToDateSlash(e: Engine, value: string): (r: string)
    ensures ConvertsAs(e, value, Some("YYYYMMDDHHmmss"), Some("YYYY/MM/DD"), Local, Local, r)
  {
    Convert(e, value, Some(Formats.DateTimeCompact), Some(Formats.DateSlash))
  }

  /* ---------- relative time and month names ---------- */

  /** The `Date | string` argument of `fromNow` and the month-name helpers. */
  datatype DateOrString = DateArg(date: Date) | StringArg(text: string)

  /** `DateUtils.fromNow(dateOrString, format, isUTC = false)`. A string is
      parsed first and a failed parse yields null (not ""); a `Date` goes to
      the engine as it is, with no validity check. */
  function FromNow(e: Engine, dateOrString: DateOrString, fmt: Option<string>, isUtc: bool := false): (r: Option<string>)
    ensures dateOrString.DateArg? ==> r == Some(e.relative(Moment(dateOrString.date, Local)))
    ensures dateOrString.StringArg? ==>
              var d := e.parse(dateOrString.text, fmt, ModeOf(isUtc));
              (r.None? <==> !d.ValidDate?) &&
              (d.ValidDate? ==> r == Some(e.relative(Moment(d, Local))))
  {
    match dateOrString
    case StringArg(text) =>
      var parsed := Parse(e, text, fmt, isUtc);
      if parsed.Some? then Some(e.relative(Wrap(parsed.value, Local))) else None
    case DateArg(date) =>
      Some(e.relative(Wrap(date, Local)))
  }

  /** `DateUtils.monthName(dateOrString, format?)`: the full month name, read
      and written in local time only. */
  function MonthName(e: Engine, dateOrString: DateOrString, fmt: Option<string> := None): (r: string)
    ensures dateOrString.StringArg? ==>
              ConvertsAs(e, dateOrString.text, fmt, Some("MMMM"), Local, Local, r)
    ensures dateOrString.DateArg? ==> FormatsAs(e, dateOrString.date, Some("MMMM"), Local, r)
  {
    match dateOrString
    case StringArg(text) => Convert(e, text, fmt, Some(Formats.MonthFullName))
    case DateArg(date) => Format(e, Wrap(date, Local).ToDate(), Some(Formats.MonthFullName))
  }

  /** `DateUtils.monthShortName(dateOrString, format?)`: the abbreviated month
      name, local time only. */
  function MonthShortName(e: Engine, dateOrString: DateOrString, fmt: Option<string> := None): (r: string)
    ensures dateOrString.StringArg? ==>
              ConvertsAs(e, dateOrString.text, fmt, Some("MMM"), Local, Local, r)
    ensures dateOrString.DateArg? ==> FormatsAs(e, dateOrString.date, Some("MMM"), Local, r)
  {
    match dateOrString
    case StringArg(text) => Convert(e, text, fmt, Some(Formats.MonthName))
    case DateArg(date) => Format(e, Wrap(date, Local).ToDate(), Some(Formats.MonthName))
  }

  /* ---------- padStart ---------- */

  /** The `number | string` argument and result of `padStart`. Numbers are
      integers here. */
  datatype NumOrStr = Num(number: int) | Str(text: string)

  /** The template literal `${num}`. */
  function Rendered(v: NumOrStr): string {
    match v
    case Num(n) => IntToString(n)
    case Str(s) => s
  }

  /** `DateUtils.padStart(num, val = 2)`. A value whose rendering is already
      `width` long comes back untouched, a number still a number. Otherwise
      the result is the last `width` characters of "0000" followed by the
      rendering: zeros, then the rendering, and never more than four zeros. */
  function PadStart(num: NumOrStr, width: int := 2): (r: NumOrStr)
    ensures |Rendered(num)| >= width ==> r == num
    ensures |Rendered(num)| < width ==>
              var s := Rendered(num);
              r.Str? &&
              |r.text| == Min(width, |s| + 4) &&
              r.text[|r.text| - |s|..] == s &&
              forall i :: 0 <= i < |r.text| - |s| ==> r.text[i] == '0'
  {
    var numStr := Rendered(num);
    if |numStr| >= width then num
    else Str(JsSlice("0000" + numStr, -width))
  }
}
