/** Properties that relate several `DateUtils` operations to each other:
    the convert family as a parse followed by a format, the defaults of the
    optional pattern, the two paths of `fromNow` and the month names, the
    round trips an engine that reads back its own output allows, and the
    behaviour of `padStart`. */
module DateUtilsProperties {
  import opened Wrappers
  import opened DateEngine
  import opened JsText
  import opened DateUtils

  /** The second half of a parse-then-format pipeline: nothing to format
      collapses to "". */
  function FormatParsed(e: Engine, parsed: Option<Date>, fmt: Option<string>, isUtc: bool): string {
    match parsed
    case None => ""
    case Some(d) => Format(e, d, fmt, isUtc)
  }

  /** `e` reads back, under `fmt` in `mode`, what it writes for `d`. */
  predicate ReadsBack(e: Engine, d: Date, fmt: string, mode: Mode) {
    e.parse(e.render(Moment(d, mode), Some(fmt)), Some(fmt), mode) == d
  }

  /** `value` is exactly what `e` writes, under `fmt` in `mode`, for the
      instant it reads from `value`: a text with nothing to normalize. */
  predicate Canonical(e: Engine, value: string, fmt: string, mode: Mode) {
    var d := e.parse(value, Some(fmt), mode);
    d.ValidDate? && e.render(Moment(d, mode), Some(fmt)) == value
  }

  /* ---------- the convert family is parse followed by format ---------- */

  /** `convert` behaves as a local `parse` followed by a local `format`
      with the defaulted pattern. */
  lemma ConvertIsParseThenFormat(e: Engine, value: string, fromFormat: Option<string>, toFormat: Option<string>)
    ensures Convert(e, value, fromFormat, toFormat)
         == FormatParsed(e, Parse(e, value, fromFormat), if Falsy(toFormat) then fromFormat else toFormat, false)
  {
  }

  /** `convertFromUTC` is a UTC `parse` followed by a local `format`. */
  lemma ConvertFromUTCIsParseUtcThenFormatLocal(e: Engine, value: string, fromFormat: Option<string>, toFormat: Option<string>)
    ensures ConvertFromUTC(e, value, fromFormat, toFormat)
         == FormatParsed(e, Parse(e, value, fromFormat, true), if toFormat.None? then fromFormat else toFormat, false)
  {
  }

  /** `convertToUTC` is a local `parse` followed by a UTC `format`. */
  lemma ConvertToUTCIsParseLocalThenFormatUtc(e: Engine, value: string, fromFormat: Option<string>, toFormat: Option<string>)
    ensures ConvertToUTC(e, value, fromFormat, toFormat)
         == FormatParsed(e, Parse(e, value, fromFormat, false), if toFormat.None? then fromFormat else toFormat, true)
  {
  }

  /** Omitting `toFormat` means "same as `fromFormat`" for all three; for
      `convert` an empty `toFormat` does too, for the other two it does not
      (it reaches the engine as ""). */
  lemma ConvertDefaultsToFromFormat(e: Engine, value: string, fromFormat: Option<string>)
    ensures Convert(e, value, fromFormat, None) == Convert(e, value, fromFormat, fromFormat)
    ensures Convert(e, value, fromFormat, Some("")) == Convert(e, value, fromFormat, fromFormat)
    ensures ConvertFromUTC(e, value, fromFormat) == ConvertFromUTC(e, value, fromFormat, fromFormat)
    ensures ConvertToUTC(e, value, fromFormat) == ConvertToUTC(e, value, fromFormat, fromFormat)
    ensures e.parse(value, fromFormat, Utc).ValidDate? ==>
              ConvertFromUTC(e, value, fromFormat, Some(""))
              == e.render(Moment(e.parse(value, fromFormat, Utc), Local), Some(""))
  {
  }

  /* ---------- sentinels ---------- */

  /** `format` yields "" exactly for an Invalid Date, provided the engine's
      own rendering of a valid date is not empty. */
  lemma FormatEmptyExactlyWhenInvalid(e: Engine, date: Date, fmt: Option<string>, isUtc: bool)
    requires date.ValidDate? ==> e.render(Moment(date, ModeOf(isUtc)), fmt) != ""
    ensures Format(e, date, fmt, isUtc) == "" <==> !date.ValidDate?
  {
  }

  /** A date that came out of `parse` is never refused by `format`. */
  lemma ParsedDatesAlwaysFormat(e: Engine, value: string, fmt: Option<string>, isUtc: bool, out: Option<string>, outUtc: bool)
    requires Parse(e, value, fmt, isUtc).Some?
    ensures Format(e, Parse(e, value, fmt, isUtc).value, out, outUtc)
         == e.render(Moment(e.parse(value, fmt, ModeOf(isUtc)), ModeOf(outUtc)), out)
  {
  }

  /** On a string, `fromNow` is `parse` followed by `fromNow` on the date,
      and a failed parse is null. On a `Date`, the pattern and the flag play
      no part. */
  lemma FromNowOnStringIsParseThenFromNow(e: Engine, text: string, fmt: Option<string>, isUtc: bool)
    ensures FromNow(e, StringArg(text), fmt, isUtc)
         == match Parse(e, text, fmt, isUtc)
            case None => None
            case Some(d) => FromNow(e, DateArg(d), fmt, isUtc)
  {
  }

  lemma FromNowOnDateIgnoresPattern(e: Engine, d: Date, fmt: Option<string>, isUtc: bool, fmt': Option<string>, isUtc': bool)
    ensures FromNow(e, DateArg(d), fmt, isUtc) == FromNow(e, DateArg(d), fmt', isUtc')
    ensures FromNow(e, DateArg(d), fmt, isUtc).Some?
  {
  }

  /** The month names on a string agree with the month names on the date the
      string parses to (locally), and are "" when it does not parse: the
      sentinel differs from the null `fromNow` gives for the same failure. */
  lemma MonthNamesOnStringAgreeWithDate(e: Engine, text: string, fmt: Option<string>)
    ensures Parse(e, text, fmt).None? ==>
              MonthName(e, StringArg(text), fmt) == "" &&
              MonthShortName(e, StringArg(text), fmt) == "" &&
              FromNow(e, StringArg(text), fmt) == None
    ensures Parse(e, text, fmt).Some? ==>
              MonthName(e, StringArg(text), fmt) == MonthName(e, DateArg(Parse(e, text, fmt).value)) &&
              MonthShortName(e, StringArg(text), fmt) == MonthShortName(e, DateArg(Parse(e, text, fmt).value))
  {
  }

  /* ---------- round trips ---------- */

  /** Formatting and parsing back with the same pattern and the same flag
      returns the date, whenever the engine reads back its own output. */
  lemma FormatThenParse(e: Engine, d: Date, fmt: string, isUtc: bool)
    requires d.ValidDate?
    requires ReadsBack(e, d, fmt, ModeOf(isUtc))
    ensures Parse(e, Format(e, d, Some(fmt), isUtc), Some(fmt), isUtc) == Some(d)
  {
  }

  /** `convertToUTC` undoes `convertFromUTC` on a canonical UTC text. */
  lemma ConvertToUTCUndoesConvertFromUTC(e: Engine, value: string, fmt: string)
    requires Canonical(e, value, fmt, Utc)
    requires ReadsBack(e, e.parse(value, Some(fmt), Utc), fmt, Local)
    ensures ConvertToUTC(e, ConvertFromUTC(e, value, Some(fmt)), Some(fmt)) == value
  {
  }

  /** `convertFromUTC` undoes `convertToUTC` on a canonical local text. */
  lemma ConvertFromUTCUndoesConvertToUTC(e: Engine, value: string, fmt: string)
    requires Canonical(e, value, fmt, Local)
    requires ReadsBack(e, e.parse(value, Some(fmt), Local), fmt, Utc)
    ensures ConvertFromUTC(e, ConvertToUTC(e, value, Some(fmt)), Some(fmt)) == value
  {
  }

  /** `convert` with one pattern on both sides is a normalization: "" for an
      unreadable text, the text itself when it is canonical, and applying it
      twice changes nothing more. */
  lemma ConvertSamePatternNormalizes(e: Engine, value: string, fmt: string)
    ensures !e.parse(value, Some(fmt), Local).ValidDate? ==> Convert(e, value, Some(fmt), Some(fmt)) == ""
    ensures Canonical(e, value, fmt, Local) ==> Convert(e, value, Some(fmt), Some(fmt)) == value
    ensures e.parse(value, Some(fmt), Local).ValidDate? &&
            ReadsBack(e, e.parse(value, Some(fmt), Local), fmt, Local) ==>
              Convert(e, Convert(e, value, Some(fmt), Some(fmt)), Some(fmt), Some(fmt))
              == Convert(e, value, Some(fmt), Some(fmt))
  {
  }

  /* ---------- padStart ---------- */

  /** The worked examples: 5 becomes "05", 123 stays the number 123, "7" to
      width 3 becomes "007". */
  lemma PadStartExamples()
    ensures PadStart(Num(5)) == Str("05")
    ensures PadStart(Num(123)) == Num(123)
    ensures PadStart(Str("7"), 3) == Str("007")
  {
  }

  /** Within reach of the four zeros, the result is exactly `width` long:
      zeros followed by the rendering. */
  lemma PadStartFillsWidth(num: NumOrStr, width: int)
    requires |Rendered(num)| < width <= |Rendered(num)| + 4
    ensures PadStart(num, width) == Str(Zeros(width - |Rendered(num)|) + Rendered(num))
  {
  }

  /** Beyond reach, exactly four zeros are added and the result stays
      shorter than `width`. */
  lemma PadStartAddsAtMostFourZeros(num: NumOrStr, width: int)
    requires width > |Rendered(num)| + 4
    ensures PadStart(num, width) == Str("0000" + Rendered(num))
    ensures |PadStart(num, width).text| < width
  {
  }

  /** Padding twice to the same width is padding once, as long as the width
      is within reach of the four zeros. */
  lemma PadStartIdempotent(num: NumOrStr, width: int)
    requires width <= |Rendered(num)| + 4
    ensures PadStart(PadStart(num, width), width) == PadStart(num, width)
  {
  }

  /** Beyond reach it is not: "7" to width 10 gives "00007", and padding
      that again gives "000000007". */
  lemma PadStartRepadsBeyondReach()
    ensures PadStart(Str("7"), 10) == Str("00007")
    ensures PadStart(PadStart(Str("7"), 10), 10) == Str("000000007")
  {
    PadStartAddsAtMostFourZeros(Str("7"), 10);
    assert "0000" + "7" == "00007";
    PadStartAddsAtMostFourZeros(Str("00007"), 10);
    assert "0000" + "00007" == "000000007";
  }

  /** Whenever padding happens, the result is some number of zeros (at most
      four) followed by the rendering. */
  lemma PaddedIsZerosThenRendering(num: NumOrStr, width: int)
    requires |Rendered(num)| < width
    ensures PadStart(num, width)
         == Str(Zeros(Min(width, |Rendered(num)| + 4) - |Rendered(num)|) + Rendered(num))
  {
    if width <= |Rendered(num)| + 4 {
      PadStartFillsWidth(num, width);
    } else {
      PadStartAddsAtMostFourZeros(num, width);
      assert "0000" == Zeros(4);
    }
  }

  /** Padding a non-negative number never changes the number its text
      denotes. */
  lemma PadStartKeepsValue(n: nat, width: int)
    ensures AllDigits(Rendered(PadStart(Num(n), width)))
    ensures DecimalValue(Rendered(PadStart(Num(n), width))) == n
  {
    var s := IntToString(n);
    DecimalRoundTrip(n);
    if |s| < width {
      var k := Min(width, |s| + 4) - |s|;
      PaddedIsZerosThenRendering(Num(n), width);
      assert Rendered(PadStart(Num(n), width)) == Zeros(k) + s;
      LeadingZerosKeepValue(k, s);
    }
  }

  /** The zeros go in front of the sign: -5 to width 3 is "0-5". */
  lemma PadStartNegativeNumber()
    ensures PadStart(Num(-5), 3) == Str("0-5")
  {
  }
}
