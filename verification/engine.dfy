/** The date library the utilities delegate to (moment.js), reduced to the
    three questions the utilities ask of it. Its calendar arithmetic, token
    grammar, validity rules, relative-time phrasing, the process's local
    timezone and the clock all live inside the engine's function fields,
    which the model leaves unconstrained. */
module DateEngine {
  import opened Wrappers

  /** How a moment reads and renders wall-clock fields: in Coordinated
      Universal Time (`moment.utc(...)`, `.utc()`) or in the process's local
      timezone (`moment(...)`, `.local()`). */
  datatype Mode = Local | Utc

  /** The mode an `isUTC` flag selects. */
  function ModeOf(isUtc: bool): (m: Mode)
    ensures m == Utc <==> isUtc
  {
    if isUtc then Utc else Local
  }

  /** A JavaScript `Date`: milliseconds since the epoch, or the Invalid Date. */
  datatype Date = ValidDate(epochMs: int) | InvalidDate

  /** A moment: the instant it wraps (possibly invalid) and the mode it
      displays in. */
  datatype Moment = Moment(instant: Date, mode: Mode) {

    /** `m.isValid()` */
    predicate IsValid() {
      instant.ValidDate?
    }

    /** `m.toDate()`: the wrapped instant, whatever the display mode. */
    function ToDate(): Date {
      instant
    }

    /** `m.local()`: same instant, rendered in local time from now on. */
    function ToLocal(): Moment {
      Moment(instant, Local)
    }

    /** `m.utc()`: same instant, rendered in UTC from now on. */
    function ToUtc(): Moment {
      Moment(instant, Utc)
    }
  }

  /** The engine:
      - `parse(value, fmt, mode)` is the instant `moment(value, fmt)` (mode
        Local) or `moment.utc(value, fmt)` (mode Utc) denotes, or InvalidDate;
        `fmt` is None when the caller passed `undefined`;
      - `render(m, fmt)` is `m.format(fmt)`;
      - `relative(m)` is `m.fromNow()`, which also reads the clock. */
  datatype Engine = Engine(
    parse: (string, Option<string>, Mode) -> Date,
    render: (Moment, Option<string>) -> string,
    relative: Moment -> string)

  /** `moment(value, fmt)` or `moment.utc(value, fmt)`: a parsed moment
      displays in the mode it was parsed in. */
  function ParseMoment(e: Engine, value: string, fmt: Option<string>, mode: Mode): Moment {
    Moment(e.parse(value, fmt, mode), mode)
  }

  /** `moment(date)` or `moment.utc(date)`: wrapping a `Date` keeps its
      instant; an Invalid Date gives an invalid moment. */
  function Wrap(date: Date, mode: Mode): Moment {
    Moment(date, mode)
  }
}
