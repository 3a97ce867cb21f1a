/** `convertUTCDateTimeCompactToDateSlash` is documented and named like its
    five siblings (a UTC compact text shown in local time) but calls the
    local `convert`, so it reads the compact text as local time. This module
    shows when that matters and gives the definition its name promises. */
module Findings {
  import opened Wrappers
  import opened DateEngine
  import opened JsText
  import opened DateUtils
  import Formats

  const HourMs := 3600000
  const DayMs := 24 * HourMs

  /** Nine hours east of UTC. */
  const OffsetMs := 9 * HourMs

  /** 2020-03-14 20:00:00 as milliseconds since the epoch when read as UTC:
      day 18335 since 1970-01-01, plus twenty hours. */
  const WallClockMs := 18335 * DayMs + 20 * HourMs

  /** The calendar day number a moment shows in its own mode. */
  function ShownDay(m: Moment): int {
    match m.instant
    case ValidDate(ms) => (ms + (if m.mode == Local then OffsetMs else 0)) / DayMs
    case InvalidDate => 0
  }

  /** A minimal engine for a process nine hours east of UTC that is handed the
      text "20200314200000": read as UTC it is 20:00 UTC, read as local time
      it is nine hours earlier; a date pattern shows the day number. */
  function EastOfUtc(): Engine {
    Engine(
      (value: string, fmt: Option<string>, mode: Mode) =>
        if mode == Utc then ValidDate(WallClockMs) else ValidDate(WallClockMs - OffsetMs),
      (m: Moment, fmt: Option<string>) => IntToString(ShownDay(m)),
      (m: Moment) => "")
  }

  /** As written: in such a process the DATE_SLASH variant shows 2020-03-14
      (day 18335) where reading the text as UTC, as the name says and the
      siblings do, shows 2020-03-15 (day 18336). */
  lemma DateSlashReadsUtcTextAsLocal()
    ensures ConvertUTCDateTimeCompactToDateSlash(EastOfUtc(), "20200314200000") == IntToString(18335)
    ensures ConvertFromUTC(EastOfUtc(), "20200314200000", Some(Formats.DateTimeCompact), Some(Formats.DateSlash))
         == IntToString(18336)
    ensures ConvertUTCDateTimeCompactToDateSlash(EastOfUtc(), "20200314200000")
         != ConvertFromUTC(EastOfUtc(), "20200314200000", Some(Formats.DateTimeCompact), Some(Formats.DateSlash))
  {
    var e := EastOfUtc();
    var text := "20200314200000";
    var src := Some(Formats.DateTimeCompact);
    var dst := Some(Formats.DateSlash);
    assert e.parse(text, src, Local) == ValidDate(1584183600000);
    assert e.parse(text, src, Utc) == ValidDate(1584216000000);
    assert ShownDay(Moment(ValidDate(1584183600000), Local)) == 1584216000000 / 86400000 == 18335;
    assert ShownDay(Moment(ValidDate(1584216000000), Local)) == 1584248400000 / 86400000 == 18336;
    IntToStringRoundTrip(18335);
    IntToStringRoundTrip(18336);
  }

  /** The two readings agree whenever the engine reads the text the same way
      in both modes, as in a process whose local zone is UTC. */
  lemma DateSlashAgreesWhenLocalIsUtc(e: Engine, value: string)
    requires e.parse(value, Some(Formats.DateTimeCompact), Local) == e.parse(value, Some(Formats.DateTimeCompact), Utc)
    ensures ConvertUTCDateTimeCompactToDateSlash(e, value)
         == ConvertFromUTC(e, value, Some(Formats.DateTimeCompact), Some(Formats.DateSlash))
  {
  }

  /** The evidently intended definition: read the compact text as UTC, show
      the date in local time. */
  function ConvertUTCDateTimeCompactToDateSlashAsNamed(e: Engine, value: string): (r: string)
    ensures ConvertsAs(e, value, Some("YYYYMMDDHHmmss"), Some("YYYY/MM/DD"), Utc, Local, r)
  {
    ConvertFromUTC(e, value, Some(Formats.DateTimeCompact), Some(Formats.DateSlash))
  }

  /** With the intended definition, the DATE_SLASH and DATE_DASH variants
      read the same instant: whenever both engine renderings of it are
      non-empty they fail together and otherwise show that instant in local
      time. */
  lemma SlashAndDashVariantsReadTheSameInstant(e: Engine, value: string)
    requires var d := e.parse(value, Some(Formats.DateTimeCompact), Utc);
             d.ValidDate? ==>
               e.render(Moment(d, Local), Some(Formats.DateSlash)) != "" &&
               e.render(Moment(d, Local), Some(Formats.DateDash)) != ""
    ensures ConvertUTCDateTimeCompactToDateSlashAsNamed(e, value) == ""
            <==> ConvertUTCDateTimeCompactToDateDash(e, value) == ""
    ensures ConvertUTCDateTimeCompactToDateSlashAsNamed(e, value) != "" ==>
              var d := e.parse(value, Some(Formats.DateTimeCompact), Utc);
              ConvertUTCDateTimeCompactToDateSlashAsNamed(e, value) == e.render(Moment(d, Local), Some(Formats.DateSlash)) &&
              ConvertUTCDateTimeCompactToDateDash(e, value) == e.render(Moment(d, Local), Some(Formats.DateDash))
  {
  }
}
