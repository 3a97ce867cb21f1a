# DateUtils: a Dafny model of the moment-utils date helpers

The system is a thin date layer over moment.js. It has a catalog of named token
patterns (`FORMATS`), and one static class `DateUtils`. That class holds a generic
`parse`, `format` and `convert`, their named specializations, `fromNow`, the
month-name helpers and `padStart`.

The model covers the part of `DateUtils` that decides something itself.

- **The no-throw sentinel contract.** `parse` gives `null` and `format` gives `""`.
  The `convert` family and the month names also give `""`. `fromNow` on a string
  gives `null`.
- **The forwarding.** This covers which pattern each specialization fixes, which
  timezone mode each call reads and writes in, and how an omitted `toFormat` falls
  back to `fromFormat`.
- **`padStart`.** It is modelled in full, over strings.

The date library is a parameter, `DateEngine.Engine`, with three function fields:
- `parse(value, fmt, mode)`, which is `moment(value, fmt)` or `moment.utc(value, fmt)`
  reduced to the instant it denotes (or the Invalid Date);
- `render(moment, fmt)`, which is `moment.format(fmt)`;
- `relative(moment)`, which is `moment.fromNow()`.

Every property is proved for every engine, except the counterexample in
`findings.dfy`, which fixes one engine. Where a property needs the engine to
behave (for example, to read back what it writes), that assumption is a `requires`
of the lemma.

Files:
- `wrappers.dfy`: `Option`, where `None` is `undefined` or `null`.
- `formats.dfy`: the `FORMATS` catalog. The constants are in CamelCase, so
  `DATE_DASH` is `Formats.DateDash`. The values are kept exactly as written,
  including `"dddd, MMMN DD"`.
- `engine.dfy`: timezone mode, `Date`, `Moment` and the engine.
- `js_text.dfy`: JavaScript's template-literal rendering of an integer, and
  `String.prototype.slice`.
- `date_utils.dfy`: every operation of the class.
- `properties.dfy`: lemmas that relate operations to each other.
- `findings.dfy`: the DATE_SLASH converter (see Findings).

There are nine parse specializations, counting `parseDateTimeWithZone`, and nine
format specializations. `fromNow` on a `Date` wraps it in local mode whatever
`isUTC` says, and a `Date` input is never checked for validity.

## Model

| member | source | states |
|---|---|---|
| `Formats.CompositePatternsJoinFieldPatterns` | src/utils/DateUtils.ts:3-58 | The catalog's date and date-time patterns are the single-field patterns joined by their separators (".", "-", "/", " ", "T", ":"); every value is kept as written. |
| `DateEngine.ModeOf` | src/utils/DateUtils.ts:69 | `isUTC` selects UTC exactly when it is true. |
| `DateUtils.Parse` | src/utils/DateUtils.ts:68-71 | The result is null exactly when the engine rejects the text under the pattern in the selected mode (local by default). Otherwise it is the engine's instant. It is never an Invalid Date. |
| `DateUtils.ParseDateCompact` | src/utils/DateUtils.ts:79-81 | Parses with "YYYYMMDD" in the caller's mode, with the parse sentinel. |
| `DateUtils.ParseDateTimeCompact` | src/utils/DateUtils.ts:89-91 | Parses with "YYYYMMDDHHmmss" in the caller's mode, with the parse sentinel. |
| `DateUtils.ParseDateDot` | src/utils/DateUtils.ts:99-101 | Parses with "YYYY.MM.DD" in the caller's mode, with the parse sentinel. |
| `DateUtils.ParseDateTimeDot` | src/utils/DateUtils.ts:109-111 | Parses with "YYYY.MM.DD HH:mm:ss" in the caller's mode, with the parse sentinel. |
| `DateUtils.ParseDateDash` | src/utils/DateUtils.ts:119-121 | Parses with "YYYY-MM-DD" in the caller's mode, with the parse sentinel. |
| `DateUtils.ParseDateTimeDash` | src/utils/DateUtils.ts:129-131 | Parses with "YYYY-MM-DD HH:mm:ss" in the caller's mode, with the parse sentinel. |
| `DateUtils.ParseDateSlash` | src/utils/DateUtils.ts:139-141 | Parses with "YYYY/MM/DD" in the caller's mode, with the parse sentinel. |
| `DateUtils.ParseDateTimeSlash` | src/utils/DateUtils.ts:149-151 | Parses with "YYYY/MM/DD HH:mm:ss" in the caller's mode, with the parse sentinel. |
| `DateUtils.ParseDateTimeWithZone` | src/utils/DateUtils.ts:153-155 | Always parses with "YYYY-MM-DDTHH:mm:ssZ" in local mode. |
| `DateUtils.Format` | src/utils/DateUtils.ts:164-167 | An Invalid Date gives "". A valid date gives the engine's rendering with the pattern in the selected mode (local by default). |
| `DateUtils.FormatDateCompact` | src/utils/DateUtils.ts:175-177 | Formats with "YYYYMMDD" in the caller's mode, with the "" sentinel. |
| `DateUtils.FormatTime` | src/utils/DateUtils.ts:185-187 | Formats with "HH:mm:ss" in the caller's mode, with the "" sentinel. |
| `DateUtils.FormatDateTimeCompact` | src/utils/DateUtils.ts:195-197 | Formats with "YYYYMMDDHHmmss" in the caller's mode, with the "" sentinel. |
| `DateUtils.FormatDateDot` | src/utils/DateUtils.ts:205-207 | Formats with "YYYY.MM.DD" in the caller's mode, with the "" sentinel. |
| `DateUtils.FormatDateTimeDot` | src/utils/DateUtils.ts:215-217 | Formats with "YYYY.MM.DD HH:mm:ss" in the caller's mode, with the "" sentinel. |
| `DateUtils.FormatDateDash` | src/utils/DateUtils.ts:225-227 | Formats with "YYYY-MM-DD" in the caller's mode, with the "" sentinel. |
| `DateUtils.FormatDateTimeDash` | src/utils/DateUtils.ts:235-237 | Formats with "YYYY-MM-DD HH:mm:ss" in the caller's mode, with the "" sentinel. |
| `DateUtils.FormatDateSlash` | src/utils/DateUtils.ts:245-247 | Formats with "YYYY/MM/DD" in the caller's mode, with the "" sentinel. |
| `DateUtils.FormatDateTimeSlash` | src/utils/DateUtils.ts:255-257 | Formats with "YYYY/MM/DD HH:mm:ss" in the caller's mode, with the "" sentinel. |
| `DateUtils.Convert` | src/utils/DateUtils.ts:266-272 | Reads local and writes local. An unreadable text gives "". An omitted, null or empty `toFormat` means `fromFormat`. |
| `DateUtils.ConvertFromUTC` | src/utils/DateUtils.ts:281-288 | Reads in UTC and writes in local time. An unreadable text gives "". Only an omitted `toFormat` means `fromFormat`. |
| `DateUtils.ConvertToUTC` | src/utils/DateUtils.ts:297-304 | Reads in local time and writes in UTC. An unreadable text gives "". Only an omitted `toFormat` means `fromFormat`. |
| `DateUtils.ConvertUTCDateTimeCompactToDateTimeDash` | src/utils/DateUtils.ts:311-317 | Reads "YYYYMMDDHHmmss" in UTC and writes "YYYY-MM-DD HH:mm:ss" in local time. Failure gives "". |
| `DateUtils.ConvertUTCDateTimeCompactToDateTimeDot` | src/utils/DateUtils.ts:324-330 | Reads "YYYYMMDDHHmmss" in UTC and writes "YYYY.MM.DD HH:mm:ss" in local time. Failure gives "". |
| `DateUtils.ConvertUTCDateTimeCompactToDateTimeSlash` | src/utils/DateUtils.ts:337-343 | Reads "YYYYMMDDHHmmss" in UTC and writes "YYYY/MM/DD HH:mm:ss" in local time. Failure gives "". |
| `DateUtils.ConvertUTCDateTimeCompactToDateDash` | src/utils/DateUtils.ts:350-356 | Reads "YYYYMMDDHHmmss" in UTC and writes "YYYY-MM-DD" in local time. Failure gives "". |
| `DateUtils.ConvertUTCDateTimeCompactToDateDot` | src/utils/DateUtils.ts:363-369 | Reads "YYYYMMDDHHmmss" in UTC and writes "YYYY.MM.DD" in local time. Failure gives "". |
| `DateUtils.ConvertUTCDateTimeCompactToDateSlash` | src/utils/DateUtils.ts:376-382 | Reads "YYYYMMDDHHmmss" in LOCAL time and writes "YYYY/MM/DD" in local time. Failure gives "". |
| `DateUtils.FromNow` | src/utils/DateUtils.ts:461-467 | For a string, the result is null exactly when the engine rejects it under the pattern and mode. Otherwise it is the engine's relative phrase for the parsed instant. A `Date` always gets the engine's phrase, with no check. |
| `DateUtils.MonthName` | src/utils/DateUtils.ts:475-480 | A string is read locally and written with "MMMM", with "" on failure. A `Date` is formatted locally with "MMMM". |
| `DateUtils.MonthShortName` | src/utils/DateUtils.ts:488-493 | A string is read locally and written with "MMM", with "" on failure. A `Date` is formatted locally with "MMM". |
| `DateUtils.PadStart` | src/utils/DateUtils.ts:495-501 | If the rendered input is at least `width` long (default 2), the result is the input itself, of the same kind. Otherwise the result is a string of length min(width, len+4): zeros, then the rendered input. |
| `JsText.IntToString` | src/utils/DateUtils.ts:496 | `${num}` for an integer is non-empty. It starts with '-' exactly for negatives, every other character is a digit, and no digit run starts with '0' except the rendering of 0, which is exactly "0". |
| `JsText.IntToStringRoundTrip` | src/utils/DateUtils.ts:496 | Reading back the rendering of an integer gives the integer. |
| `JsText.JsSlice` | src/utils/DateUtils.ts:500 | For k > 0, `slice(-k)` is the suffix of length min(k, len); for a start of 0 or more it drops that many characters. |
| `DateUtilsProperties.ConvertIsParseThenFormat` | src/utils/DateUtils.ts:266-272 | `convert` equals a local `parse` followed by a local `format` with the defaulted pattern, and "" when the parse is null. |
| `DateUtilsProperties.ConvertFromUTCIsParseUtcThenFormatLocal` | src/utils/DateUtils.ts:281-288 | `convertFromUTC` equals a UTC `parse` followed by a local `format`. |
| `DateUtilsProperties.ConvertToUTCIsParseLocalThenFormatUtc` | src/utils/DateUtils.ts:297-304 | `convertToUTC` equals a local `parse` followed by a UTC `format`. |
| `DateUtilsProperties.ConvertDefaultsToFromFormat` | src/utils/DateUtils.ts:266-304 | Omitting `toFormat` means `fromFormat` for all three converts. An empty `toFormat` also means `fromFormat` for `convert`, but reaches the engine as "" in `convertFromUTC`. |
| `DateUtilsProperties.FormatEmptyExactlyWhenInvalid` | src/utils/DateUtils.ts:164-167 | `format` gives "" exactly for an Invalid Date, when the engine never renders a valid date as "". |
| `DateUtilsProperties.ParsedDatesAlwaysFormat` | src/utils/DateUtils.ts:68-71 | A date returned by `parse` always reaches the engine's renderer in `format`, never the sentinel. |
| `DateUtilsProperties.FromNowOnStringIsParseThenFromNow` | src/utils/DateUtils.ts:461-467 | `fromNow` on a string is null when `parse` fails. Otherwise it is `fromNow` on the parsed date. |
| `DateUtilsProperties.FromNowOnDateIgnoresPattern` | src/utils/DateUtils.ts:466 | On a `Date`, `fromNow` never returns null and does not depend on the pattern or flag. |
| `DateUtilsProperties.MonthNamesOnStringAgreeWithDate` | src/utils/DateUtils.ts:475-493 | The month names of a string equal those of the date it parses to locally. Failure gives "", while `fromNow` gives null for the same failure. |
| `DateUtilsProperties.FormatThenParse` | src/utils/DateUtils.ts:68-71 | Formatting a date and parsing back with the same pattern and flag returns the date, when the engine reads back its own output. |
| `DateUtilsProperties.ConvertToUTCUndoesConvertFromUTC` | src/utils/DateUtils.ts:281-304 | `convertToUTC(convertFromUTC(v, P), P)` is `v` for a canonical UTC text, when the engine reads back its local output. |
| `DateUtilsProperties.ConvertFromUTCUndoesConvertToUTC` | src/utils/DateUtils.ts:281-304 | `convertFromUTC(convertToUTC(v, P), P)` is `v` for a canonical local text, when the engine reads back its UTC output. |
| `DateUtilsProperties.ConvertSamePatternNormalizes` | src/utils/DateUtils.ts:266-272 | `convert(v, P, P)` is "" for an unreadable text and `v` for a canonical one. Applying it twice gives the same as once. |
| `DateUtilsProperties.PadStartExamples` | src/utils/DateUtils.ts:495-501 | 5 gives "05", 123 stays the number 123, and "7" to width 3 gives "007". |
| `DateUtilsProperties.PadStartFillsWidth` | src/utils/DateUtils.ts:500 | Within four characters of the width, the result is exactly width−len zeros followed by the rendered input. |
| `DateUtilsProperties.PadStartAddsAtMostFourZeros` | src/utils/DateUtils.ts:500 | Beyond that, the result is "0000" followed by the rendered input, and it is shorter than the width. |
| `DateUtilsProperties.PadStartIdempotent` | src/utils/DateUtils.ts:495-500 | Padding twice to a reachable width is the same as padding once. |
| `DateUtilsProperties.PadStartRepadsBeyondReach` | src/utils/DateUtils.ts:500 | For an unreachable width, padding twice adds four more zeros ("7" to 10 gives "00007", then "000000007"). |
| `DateUtilsProperties.PaddedIsZerosThenRendering` | src/utils/DateUtils.ts:500 | When padding happens, the result is min(width, len+4)−len zeros followed by the rendered input. |
| `DateUtilsProperties.PadStartKeepsValue` | src/utils/DateUtils.ts:495-500 | The padded text of a non-negative integer is all digits and denotes the same integer. |
| `DateUtilsProperties.PadStartNegativeNumber` | src/utils/DateUtils.ts:496-500 | The zeros go before the sign: -5 to width 3 gives "0-5". |
| `Findings.DateSlashReadsUtcTextAsLocal` | src/utils/DateUtils.ts:376-382 | When the local zone is nine hours east of UTC, the DATE_SLASH variant shows 2020-03-14 for "20200314200000". Reading that text as UTC shows 2020-03-15. |
| `Findings.DateSlashAgreesWhenLocalIsUtc` | src/utils/DateUtils.ts:376-382 | The as-written variant agrees with the UTC reading whenever the engine reads the text the same way in both modes. |
| `Findings.ConvertUTCDateTimeCompactToDateSlashAsNamed` | src/utils/DateUtils.ts:371-375 | The corrected variant reads "YYYYMMDDHHmmss" in UTC and writes "YYYY/MM/DD" in local time. Failure gives "". |
| `Findings.SlashAndDashVariantsReadTheSameInstant` | src/utils/DateUtils.ts:350-356 | The corrected DATE_SLASH variant and the DATE_DASH variant fail together and show the same UTC-read instant. |

## Left out

- `now` and `yesterday` (src/utils/DateUtils.ts:388-398) are left out because they read the system clock.
- `startOfDay`, `endOfDay`, `startOfWeek`, `endOfWeek`, `startOfMonth` and `endOfMonth` (src/utils/DateUtils.ts:405-452) are left out. Each is a one-line delegation to the library's calendar arithmetic, and the week start depends on the locale.
- moment.js itself is left out: its token grammar, validity rules, calendar and timezone arithmetic, and relative-time phrasing. These are the engine's unconstrained function fields. The process's local timezone and the clock `fromNow` reads are also hidden inside those fields.
- The pattern strings are not checked against the token grammar. `"dddd, MMMN DD"` and `"ddd, MMMN DD"` are kept as written.
- `null` and `undefined` are both `None`. The source's only distinction between them is in a JavaScript default parameter, and `null` is not passed there by the source itself.
- Calling `format`, `fromNow`, `monthName` or `monthShortName` with `undefined` instead of a `Date` is left out. moment reads that as "now", which is the clock.
- JsText.IntToString: renders every integer in plain decimal. JavaScript switches to exponent notation from 10^21, and numbers beyond 2^53 are not exact doubles. `padStart`'s numeric input is an `int`, so non-integer, infinite and NaN numbers are left out as well.
- DateUtils.PadStart: `width` is an integer. A fractional `val` is left out because it involves float arithmetic. Lengths count Unicode scalar values, not UTF-16 code units as JavaScript's `.length` does, so a string with characters outside the Basic Multilingual Plane pads differently ("😀" to width 2 stays unchanged in JavaScript but gains one zero here).
- JsText.JsSlice: slices Unicode scalar values, not UTF-16 code units as `String.prototype.slice` does; the two agree only on text inside the Basic Multilingual Plane.
- `build/utils/DateUtils.d.ts` is left out. It holds generated type declarations with no behaviour.

## Findings

| source | as written | input that shows it | evidently intended | confidence | as-written member | corrected member |
|---|---|---|---|---|---|---|
| src/utils/DateUtils.ts:376-382 | `convertUTCDateTimeCompactToDateSlash` calls `convert`, which reads the compact text as local time and never crosses from UTC. | "20200314200000" with the local zone at UTC+9 shows "2020/03/14". Read as UTC, as the name says and its five siblings do, it would show "2020/03/15". | Call `convertFromUTC(value, DATE_TIME_COMPACT, DATE_SLASH)` like the other five. | medium, not executed | `Findings.DateSlashReadsUtcTextAsLocal` | `Findings.ConvertUTCDateTimeCompactToDateSlashAsNamed` |
