/** The `date` a StateLog is built with when none is given.  The constructor
    defaults it to `Date.now()`, a number, while `update` and `stateAt` call
    `date.getTime()`, which only a Date object has; a number the caller
    passes as `date` is not converted either.  The rest of the model stores
    every date as a Date (an instant in milliseconds); this module keeps the
    distinction to show what the code does as written. */
module DateDefault {
  import opened Json
  import opened Timeline

  /** How the `date` field is held: a Date object, or a bare number. */
  datatype Stamp = DateObject(ms: int) | Millis(ms: int)

  /** A `date` option as the caller passes it: a Date, a date string (whose
      parsing is abstracted to the instant it names), or a number. */
  datatype GivenDate = GivenDateObject(ms: int) | GivenString(ms: int) | GivenNumber(ms: int)

  /** The instant a `date` option names, as the rest of the model stores it. */
  function InstantOf(date: Option<GivenDate>): Option<int> {
    match date
    case Some(d) => Some(d.ms)
    case None => None
  }

  /** The constructor's `date` as written: only a string is turned into a
      Date; a given Date stays one, and a given number and the `Date.now()`
      default stay numbers. */
  function StampAsWritten(date: Option<GivenDate>, now: int): (s: Stamp)
    ensures s.ms == InstantOf(date).GetOr(now)
    ensures s.Millis? <==> (date.None? || date.value.GivenNumber?)
  {
    match date
    case Some(GivenNumber(ms)) => Millis(ms)
    case Some(d) => DateObject(d.ms)
    case None => Millis(now)
  }

  /** The corrected default, `new Date()`: a log built without a date holds a
      Date; what a caller passes is held as before. */
  function StampCorrected(date: Option<GivenDate>, now: int): (s: Stamp)
    ensures s.ms == InstantOf(date).GetOr(now)
    ensures s.Millis? <==> (date.Some? && date.value.GivenNumber?)
    ensures date.Some? ==> s == StampAsWritten(date, now)
  {
    match date
    case Some(GivenNumber(ms)) => Millis(ms)
    case Some(d) => DateObject(d.ms)
    case None => DateObject(now)
  }

  /** What an `update` or `stateAt` of the code as written can throw. */
  datatype Failure = Rejected(error: UpdateError) | GetTimeNotAFunction

  /** `update(newState, newDate)` as written: the order check compares the
      number fine, then `date.getTime()` throws for a number. */
  function UpdateAsWritten(log: Log, stamp: Stamp, newState: Json, newDate: int): (r: Result<Log, Failure>)
    requires log.interval > 0 && stamp.ms == log.date
    ensures newDate < log.date ==> r == Err(Rejected(OutOfOrder(log.date, newDate)))
    ensures newDate >= log.date && stamp.Millis? ==> r == Err(GetTimeNotAFunction)
    ensures stamp.DateObject? ==> (r.Ok? <==> Step(log, newState, newDate).Ok?)
    ensures r.Ok? ==> Ok(r.value) == Step(log, newState, newDate)
  {
    if newDate < log.date then Err(Rejected(OutOfOrder(log.date, newDate)))
    else if stamp.Millis? then Err(GetTimeNotAFunction)
    else match Step(log, newState, newDate)
      case Ok(next) => Ok(next)
      case Err(e) => Err(Rejected(e))
  }

  /** `stateAt(aDate)` as written: `date.getTime()` comes first. */
  function StateAtAsWritten(log: Log, stamp: Stamp, aDate: int): (r: Result<Json, Failure>)
    requires stamp.ms == log.date
    ensures stamp.Millis? <==> r.Err?
    ensures r.Ok? ==> r.value == StateAt(log, aDate)
  {
    if stamp.Millis? then Err(GetTimeNotAFunction) else Ok(StateAt(log, aDate))
  }

  /** As written, a log built without a date can neither be updated at any
      date from its own on, nor asked for any state. */
  lemma DefaultDateIsUnusable(interval: int, state: Json, now: int, newState: Json, newDate: int, aDate: int)
    requires interval > 0 && newDate >= now
    ensures var opts := Opts(Some(interval), None, state, None, None, None, None);
      var log := FromOpts(opts, now);
      var stamp := StampAsWritten(None, now);
      && UpdateAsWritten(log, stamp, newState, newDate) == Err(GetTimeNotAFunction)
      && StateAtAsWritten(log, stamp, aDate) == Err(GetTimeNotAFunction)
  {
  }

  /** As written, a log built with a numeric `date` (such as `Date.now()`)
      fails the same way, since only a string is converted. */
  lemma GivenNumberIsUnusable(interval: int, state: Json, ms: int, now: int, newState: Json, newDate: int, aDate: int)
    requires interval > 0 && newDate >= ms
    ensures var date := Some(GivenNumber(ms));
      var log := FromOpts(Opts(Some(interval), InstantOf(date), state, None, None, None, None), now);
      var stamp := StampAsWritten(date, now);
      && UpdateAsWritten(log, stamp, newState, newDate) == Err(GetTimeNotAFunction)
      && StateAtAsWritten(log, stamp, aDate) == Err(GetTimeNotAFunction)
  {
  }

  /** With the default a Date, the same log takes the update, which makes
      `newState` the state at `newDate`, and answers `stateAt`. */
  lemma CorrectedDefaultIsUsable(interval: int, state: Json, now: int, newState: Json, newDate: int, aDate: int)
    requires interval > 0 && newDate >= now
    ensures var opts := Opts(Some(interval), None, state, None, None, None, None);
      var log := FromOpts(opts, now);
      var stamp := StampCorrected(None, now);
      && UpdateAsWritten(log, stamp, newState, newDate).Ok?
      && StateAt(UpdateAsWritten(log, stamp, newState, newDate).value, newDate) == newState
      && StateAtAsWritten(log, stamp, aDate) == Ok(StateAt(log, aDate))
  {
    var log := FromOpts(Opts(Some(interval), None, state, None, None, None, None), now);
    var next := Step(log, newState, newDate).value;
    MulAtLeast(interval, next.age);
    StateAtCurrent(next, newDate);
  }
}
