/** The catalog of named moment.js token patterns (the exported `FORMATS`
    object). Pure data: every entry is fixed at start-up and never changes. */
module Formats {

  const Year := "YYYY"
  const Month := "MM"
  const MonthName := "MMM"
  const MonthFullName := "MMMM"
  const Day := "DD"
  const Hour := "HH"
  const Minute := "mm"
  const Seconds := "ss"
  const Milliseconds := "SSS"
  const YearMonthCompact := "YYYYMM"
  const YearMonthDot := "YYYY.MM"
  const YearMonthDash := "YYYY-MM"
  const YearMonthName := "YYYY MMM"
  const YearMonthSlash := "YYYY/MM"
  const DateCompact := "YYYYMMDD"
  const DateDot := "YYYY.MM.DD"
  const DateDash := "YYYY-MM-DD"
  const DateSlash := "YYYY/MM/DD"
  const Time := "HH:mm:ss"
  const HourMinute := "HH:mm"
  const DateTimeCompact := "YYYYMMDDHHmmss"
  const DateTimeDot := "YYYY.MM.DD HH:mm:ss"
  const DateTimeDash := "YYYY-MM-DD HH:mm:ss"
  const DateTimeSlash := "YYYY/MM/DD HH:mm:ss"
  const DateTimeZone := "YYYY-MM-DDTHH:mm:ssZ"
  const UsDateTime := "MMMM DD, YYYY"
  const UsDateTimeDay := "dddd, MMMM DD, YYYY"
  const UsDateTimeDayShort := "ddd, MMMM DD, YYYY"
  const UsMonthNameDate := "MMMM DD"
  const UsMonthNameDateDay := "dddd, MMMN DD"
  const UsMonthNameDateDayShort := "ddd, MMMN DD"

  /** The date and date-time entries are built from the single-field entries:
      compact forms concatenate the fields, the dotted, dashed and slashed forms
      put one separator between them, and date-times append the time after a
      space (or a `T` and an offset in the zoned form). */
  lemma CompositePatternsJoinFieldPatterns()
    ensures YearMonthCompact == Year + Month
    ensures DateCompact == Year + Month + Day
    ensures DateTimeCompact == DateCompact + Hour + Minute + Seconds
    ensures YearMonthDot == Year + "." + Month
    ensures YearMonthDash == Year + "-" + Month
    ensures YearMonthSlash == Year + "/" + Month
    ensures YearMonthName == Year + " " + MonthName
    ensures DateDot == Year + "." + Month + "." + Day
    ensures DateDash == Year + "-" + Month + "-" + Day
    ensures DateSlash == Year + "/" + Month + "/" + Day
    ensures HourMinute == Hour + ":" + Minute
    ensures Time == HourMinute + ":" + Seconds
    ensures DateTimeDot == DateDot + " " + Time
    ensures DateTimeDash == DateDash + " " + Time
    ensures DateTimeSlash == DateSlash + " " + Time
    ensures DateTimeZone == DateDash + "T" + Time + "Z"
    ensures UsDateTime == MonthFullName + " " + Day + ", " + Year
    ensures UsMonthNameDate == MonthFullName + " " + Day
  {
  }
}
