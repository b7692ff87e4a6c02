/** The earlier StateLog revision (src/state-log.mjs): the same change log
    without `properties` and without a normalisation step. */
module StateLogMjs {
  import opened Json
  import opened Timeline
  import StateLogJs

  class StateLog {
    const interval: int
    var date: int
    var state: Json
    var history: seq<Run>
    var hash: Digest
    var age: int

    /** The fields the log's behaviour depends on. */
    function Fields(): Log
      reads this
    {
      Log(interval, date, state, hash, age, history)
    }

    /** `new StateLog(opts)`; `now` stands for `Date.now()`. */
    constructor(opts: Opts, now: int)
      ensures Fields() == FromOpts(opts, now)
    {
      var h := opts.history.GetOr([]);
      var d := opts.date.GetOr(now);
      var hsh := match opts.hash case Some(x) => x case None => HashOf(opts.state);
      interval := opts.interval.GetOr(DefaultInterval);
      date, state, history, hash := d, opts.state, h, hsh;
      age := opts.age.GetOr(1);
    }

    /** `update(newState, newDate)`: returns the log itself, or the error it
        throws, in which case nothing has changed. */
    method Update(newState: Json, newDate: int) returns (r: Result<StateLog, UpdateError>)
      requires interval > 0
      modifies this
      ensures r.Err? <==> newDate < old(date)
      ensures r.Ok? ==> r.value == this
      ensures r.Ok? ==> Step(old(Fields()), newState, newDate) == Ok(Fields())
      ensures r.Err? ==> r.error == OutOfOrder(old(date), newDate) && Fields() == old(Fields())
      ensures old(Positive(Fields())) ==> Positive(Fields())
    {
      ghost var before := Fields();
      var newHash := HashOf(newState);
      if newDate < date {
        return Err(OutOfOrder(date, newDate));
      }
      var dtime := newDate - date;
      var dinterval := dtime / interval;
      if hash != newHash {
        history := history + [Run(age, state)];
        state := newState;
        hash := newHash;
        age := if 1 < dinterval then dinterval else 1;
      } else {
        age := age + if 1 < dinterval then dinterval else 1;
      }
      date := newDate;
      r := Ok(this);
      if Positive(before) {
        StepKeepsPositive(before, newState, newDate);
      }
    }

    /** `stateAt(aDate)`: walks `history` backwards from the live run. */
    method StateAt(aDate: int) returns (result: Json)
      ensures result == Timeline.StateAt(Fields(), aDate)
    {
      var curDate := date - interval * age + 1;
      result := state;
      var i := |history| - 1;
      assert history[..i + 1] == history;
      while aDate < curDate && i >= 0
        invariant -1 <= i < |history|
        invariant Walk(history[..i + 1], interval, curDate, aDate, result) == Timeline.StateAt(Fields(), aDate)
        decreases i
      {
        assert history[..i + 1][..i] == history[..i];
        var run := history[i];
        result := run.state;
        curDate := curDate - interval * run.age;
        i := i - 1;
      }
    }

    /** `stateHistory(intervals, endDate)`: samples `stateAt` back from
        `endDate` once per interval, then reverses to oldest first. */
    method StateHistory(intervals: int, endDate: int) returns (states: seq<Json>)
      ensures states == Timeline.StateHistory(Fields(), intervals, endDate)
    {
      var samples: seq<Json> := [];
      var d := endDate;
      var remaining := intervals;
      while remaining > 0
        invariant remaining >= 0 || remaining == intervals
        invariant |samples| == intervals - remaining
        invariant d == endDate - |samples| * interval
        invariant forall k :: 0 <= k < |samples| ==> samples[k] == Timeline.StateAt(Fields(), endDate - k * interval)
        decreases remaining
      {
        var s := StateAt(d);
        samples := samples + [s];
        d := d - interval;
        remaining := remaining - 1;
      }
      states := StateLogJs.Reversed(samples);
      ghost var n := |samples|;
      forall j | 0 <= j < n
        ensures states[j] == Timeline.StateHistory(Fields(), intervals, endDate)[j]
      {
        SampleAt(Fields(), n, endDate, j);
        assert SampleDate(endDate, n, j, interval) == endDate - (n - 1 - j) * interval;
      }
    }
  }

  /** The two revisions log the same fields for every sequence of updates:
      the exported revision's `normalizeState` is the identity.  Their
      `stateAt` and `stateHistory` are both proved against
      `Timeline.StateAt` and `Timeline.StateHistory`, so they answer alike
      on equal fields. */
  lemma {:induction false} RevisionsAgree(log: Log, properties: Json, updates: seq<(Json, int)>)
    requires log.interval > 0
    ensures StateLogJs.ReplayNormalized(log, properties, updates) == Replay(log, updates)
    decreases |updates|
  {
    if updates != [] {
      var x := updates[0].0;
      assert StateLogJs.NormalizeState(x, properties) == x;
      match Step(log, x, updates[0].1)
      case Err(_) =>
      case Ok(next) => RevisionsAgree(next, properties, updates[1..]);
    }
  }
}
