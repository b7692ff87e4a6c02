/** The exported StateLog (src/state-log.js): a change log object whose
    `update` mutates its fields in place. */
module StateLogJs {
  import opened Json
  import opened Timeline

  /** `normalizeState(state, properties)` of this revision: a stub that
      returns its input whatever the properties. */
  function NormalizeState(state: Json, properties: Json): (r: Json)
    ensures r == state
  {
    state
  }

  /** The `properties` option, `{}` when absent or `undefined` (the
      destructuring default). */
  function PropertiesFrom(opts: Opts): Json {
    match opts.properties
    case Some(p) => if p.Undefined? then Obj([]) else p
    case None => Obj([])
  }

  class StateLog {
    const interval: int
    var date: int
    var state: Json
    var history: seq<Run>
    var hash: Digest
    var age: int
    var properties: Json

    /** The fields the log's behaviour depends on. */
    function Fields(): Log
      reads this
    {
      Log(interval, date, state, hash, age, history)
    }

    /** `new StateLog(opts)`; `now` stands for `Date.now()`. */
    constructor(opts: Opts, now: int)
      ensures Fields() == FromOpts(opts, now)
      ensures properties == PropertiesFrom(opts)
    {
      var h := opts.history.GetOr([]);
      var d := opts.date.GetOr(now);
      var hsh := match opts.hash case Some(x) => x case None => HashOf(opts.state);
      interval := opts.interval.GetOr(DefaultInterval);
      date, state, history, hash := d, opts.state, h, hsh;
      age := opts.age.GetOr(1);
      properties := PropertiesFrom(opts);
    }

    /** `update(newState, newDate)`: returns the log itself, or the error it
        throws, in which case nothing has changed. */
    method Update(newState: Json, newDate: int) returns (r: Result<StateLog, UpdateError>)
      requires interval > 0
      modifies this
      ensures properties == old(properties)
      ensures r.Err? <==> newDate < old(date)
      ensures r.Ok? ==> r.value == this
      ensures r.Ok? ==> Step(old(Fields()), NormalizeState(newState, old(properties)), newDate) == Ok(Fields())
      ensures r.Err? ==> r.error == OutOfOrder(old(date), newDate) && Fields() == old(Fields())
      ensures old(Positive(Fields())) ==> Positive(Fields())
    {
      ghost var before := Fields();
      var st := NormalizeState(newState, properties);
      var newHash := HashOf(st);
      if newDate < date {
        return Err(OutOfOrder(date, newDate));
      }
      var dtime := newDate - date;
      var dinterval := dtime / interval;
      var dAge := if 1 < dinterval then dinterval else 1;
      if hash != newHash {
        history := history + [Run(age, state)];
        state := st;
        hash := newHash;
        age := dAge;
      } else {
        age := age + dAge;
      }
      date := newDate;
      r := Ok(this);
      if Positive(before) {
        StepKeepsPositive(before, st, newDate);
      }
    }

    /** `stateAt(aDate)`: walks `history` backwards from the live run. */
    method StateAt(aDate: int) returns (result: Json)
      ensures result == Timeline.StateAt(Fields(), aDate)
    {
      var curDate := date - interval * age + 1;
      result := state;
      var i := |history| - 1;
      assert history[..i + 1] == history;
      while aDate < curDate && i >= 0
        invariant -1 <= i < |history|
        invariant Walk(history[..i + 1], interval, curDate, aDate, result) == Timeline.StateAt(Fields(), aDate)
        decreases i
      {
        assert history[..i + 1][..i] == history[..i];
        var run := history[i];
        result := run.state;
        curDate := curDate - interval * run.age;
        i := i - 1;
      }
    }

    /** `stateHistory(intervals, endDate)`: samples `stateAt` back from
        `endDate` once per interval, then reverses to oldest first. */
    method StateHistory(intervals: int, endDate: int) returns (states: seq<Json>)
      ensures states == Timeline.StateHistory(Fields(), intervals, endDate)
    {
      var samples: seq<Json> := [];
      var d := endDate;
      var remaining := intervals;
      while remaining > 0
        invariant remaining >= 0 || remaining == intervals
        invariant |samples| == intervals - remaining
        invariant d == endDate - |samples| * interval
        invariant forall k :: 0 <= k < |samples| ==> samples[k] == Timeline.StateAt(Fields(), endDate - k * interval)
        decreases remaining
      {
        var s := StateAt(d);
        samples := samples + [s];
        d := d - interval;
        remaining := remaining - 1;
      }
      states := Reversed(samples);
      ghost var n := |samples|;
      forall j | 0 <= j < n
        ensures states[j] == Timeline.StateHistory(Fields(), intervals, endDate)[j]
      {
        SampleAt(Fields(), n, endDate, j);
        assert SampleDate(endDate, n, j, interval) == endDate - (n - 1 - j) * interval;
      }
    }
  }

  /** Updates applied in order to the fields of this revision's StateLog:
      each state passes through `normalizeState` with the log's properties. */
  function ReplayNormalized(log: Log, properties: Json, updates: seq<(Json, int)>): Result<Log, UpdateError>
    requires log.interval > 0
    decreases |updates|
  {
    if updates == [] then Ok(log)
    else
      match Step(log, NormalizeState(updates[0].0, properties), updates[0].1)
      case Err(e) => Err(e)
      case Ok(next) => ReplayNormalized(next, properties, updates[1..])
  }

  /** `Array.prototype.reverse` on a fresh array. */
  function Reversed<T>(s: seq<T>): (r: seq<T>)
    ensures |r| == |s|
    ensures forall j :: 0 <= j < |s| ==> r[j] == s[|s| - 1 - j]
  {
    seq(|s|, j requires 0 <= j < |s| => s[|s| - 1 - j])
  }
}
