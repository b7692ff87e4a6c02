/** The discrete-time change log as a value: one live run {state, hash, age}
    ending at `date`, preceded by archived runs {age, state}, oldest first.
    Both revisions of StateLog are proved against the functions here. */
module Timeline {
  import opened Json

  /** Sampling period of a StateLog built without an `interval`, in ms. */
  const DefaultInterval := 1000

  /** An archived run: `state` held for `age` intervals. */
  datatype Run = Run(age: int, state: Json)

  /** The fields of a StateLog that its behaviour depends on. */
  datatype Log = Log(interval: int, date: int, state: Json, hash: Digest, age: int, history: seq<Run>)

  /** The error `update` throws for a date before the log's date. */
  datatype UpdateError = OutOfOrder(date: int, newDate: int) {
    /** The thrown error's `message` (the date is rendered in milliseconds). */
    function Message(): string {
      "StateLog.update()  newDate must be after " + IntToString(date)
    }
  }

  /** The options record a StateLog is built from: the serialised field
      record after `JSON.parse`, or a caller's partial record. `None` stands
      for an absent (undefined) option. */
  datatype Opts = Opts(
    interval: Option<int>,
    date: Option<int>,
    state: Json,
    history: Option<seq<Run>>,
    hash: Option<Digest>,
    age: Option<int>,
    properties: Option<Json>)

  /** The fields the constructor assigns: defaults for absent options, the
      digest of `state` when no hash is given, `now` when no date is given. */
  function FromOpts(opts: Opts, now: int): Log {
    Log(opts.interval.GetOr(DefaultInterval),
        opts.date.GetOr(now),
        opts.state,
        match opts.hash case Some(h) => h case None => HashOf(opts.state),
        opts.age.GetOr(1),
        opts.history.GetOr([]))
  }

  /** The field record a StateLog serialises to (`JSON.stringify`). */
  function Serialize(log: Log, properties: Option<Json>): Opts {
    Opts(Some(log.interval), Some(log.date), log.state, Some(log.history),
         Some(log.hash), Some(log.age), properties)
  }

  lemma ConstructorDefaults(state: Json, now: int)
    ensures FromOpts(Opts(None, None, state, None, None, None, None), now)
         == Log(1000, now, state, HashOf(state), 1, [])
  {
  }

  /** Rebuilding a log from its serialised record reproduces every field. */
  lemma SerializeRoundTrip(log: Log, properties: Option<Json>, now: int)
    ensures FromOpts(Serialize(log, properties), now) == log
    ensures Serialize(log, properties).properties == properties
  {
  }

  /** `Math.max(1, Math.floor(dtime / interval))`: the whole intervals in
      `dtime`, and at least one. */
  function Ticks(interval: int, dtime: int): (k: int)
    requires interval > 0
    ensures k >= 1
    ensures dtime < 2 * interval ==> k == 1
    ensures dtime >= interval ==> k * interval <= dtime < k * interval + interval
  {
    var d := dtime / interval;
    if d > 1 then d else 1
  }

  /** One `update(newState, newDate)`: an out-of-order date is rejected; an
      equal digest lengthens the live run; a different digest archives the
      live run at the end of `history` and starts a new one. */
  function Step(log: Log, newState: Json, newDate: int): (r: Result<Log, UpdateError>)
    requires log.interval > 0
    ensures r.Err? <==> newDate < log.date
    ensures r.Err? ==> r.error == OutOfOrder(log.date, newDate)
    ensures r.Ok? ==> r.value.interval == log.interval && r.value.date == newDate
    ensures r.Ok? && HashOf(newState) == log.hash ==>
      && r.value.history == log.history
      && r.value.state == log.state
      && r.value.hash == log.hash
      && r.value.age == log.age + Ticks(log.interval, newDate - log.date)
    ensures r.Ok? && HashOf(newState) != log.hash ==>
      && r.value.history == log.history + [Run(log.age, log.state)]
      && r.value.state == newState
      && r.value.hash == HashOf(newState)
      && r.value.age == Ticks(log.interval, newDate - log.date)
  {
    if newDate < log.date then Err(OutOfOrder(log.date, newDate))
    else
      var dAge := Ticks(log.interval, newDate - log.date);
      var newHash := HashOf(newState);
      if log.hash != newHash then
        Ok(Log(log.interval, newDate, newState, newHash, dAge, log.history + [Run(log.age, log.state)]))
      else
        Ok(log.(date := newDate, age := log.age + dAge))
  }

  /** A sequence of updates applied in order, stopping at the first error. */
  function Replay(log: Log, updates: seq<(Json, int)>): Result<Log, UpdateError>
    requires log.interval > 0
    decreases |updates|
  {
    if updates == [] then Ok(log)
    else
      match Step(log, updates[0].0, updates[0].1)
      case Err(e) => Err(e)
      case Ok(next) => Replay(next, updates[1..])
  }

  // ---------------------------------------------------------------------
  // stateAt

  /** First millisecond of the live run: `date - interval*age + 1`. */
  function CurrentStart(log: Log): int {
    log.date - log.interval * log.age + 1
  }

  /** The backward walk of `stateAt`: while `aDate` lies before `curDate`,
      step into the latest remaining archived run. */
  function Walk(runs: seq<Run>, interval: int, curDate: int, aDate: int, result: Json): Json
    decreases |runs|
  {
    if aDate < curDate && |runs| > 0 then
      var last := runs[|runs| - 1];
      Walk(runs[..|runs| - 1], interval, curDate - interval * last.age, aDate, last.state)
    else
      result
  }

  /** `stateAt(aDate)`. */
  function StateAt(log: Log, aDate: int): Json {
    Walk(log.history, log.interval, CurrentStart(log), aDate, log.state)
  }

  /** Total age of a list of runs. */
  function Span(runs: seq<Run>): int {
    if runs == [] then 0 else Span(runs[..|runs| - 1]) + runs[|runs| - 1].age
  }

  /** First millisecond of run `i`; run `|history|` is the live run. */
  function RunStart(log: Log, i: nat): int
    requires i <= |log.history|
  {
    CurrentStart(log) - log.interval * Span(log.history[i..])
  }

  /** The state of run `i`; run `|history|` is the live run. */
  function RunState(log: Log, i: nat): Json
    requires i <= |log.history|
  {
    if i == |log.history| then log.state else log.history[i].state
  }

  /** Every run is at least one interval long. */
  predicate Positive(log: Log) {
    log.age >= 1 && forall i :: 0 <= i < |log.history| ==> log.history[i].age >= 1
  }

  /** The stored digest is the digest of the live state. */
  predicate Consistent(log: Log) {
    log.hash == HashOf(log.state)
  }

  /** No two neighbouring runs hold the same state. */
  predicate Compact(log: Log) {
    && (forall i :: 0 <= i < |log.history| - 1 ==> log.history[i].state != log.history[i + 1].state)
    && (|log.history| > 0 ==> log.history[|log.history| - 1].state != log.state)
  }

  lemma {:induction false} SpanNonnegative(runs: seq<Run>)
    requires forall i :: 0 <= i < |runs| ==> runs[i].age >= 0
    ensures Span(runs) >= 0
  {
    if runs != [] {
      SpanNonnegative(runs[..|runs| - 1]);
    }
  }

  lemma SpanSnoc(runs: seq<Run>, x: Run)
    ensures Span(runs + [x]) == Span(runs) + x.age
  {
    assert (runs + [x])[..|runs|] == runs;
  }

  lemma {:induction false} SpanCons(x: Run, runs: seq<Run>)
    ensures Span([x] + runs) == x.age + Span(runs)
  {
    if runs != [] {
      var n := |runs|;
      assert ([x] + runs)[..n] == [x] + runs[..n - 1];
      SpanCons(x, runs[..n - 1]);
    }
  }

  /** Dropping the last run of a list leaves the starts of the other runs,
      measured from the start of the dropped one, where they were. */
  lemma DropLastKeepsStarts(runs: seq<Run>, interval: int, c: int, j: nat)
    requires 0 < |runs| && j <= |runs| - 1
    ensures var n := |runs|;
      c - interval * runs[n - 1].age - interval * Span(runs[..n - 1][j..])
        == c - interval * Span(runs[j..])
  {
    var n := |runs|;
    assert runs[j..] == runs[..n - 1][j..] + [runs[n - 1]];
    SpanSnoc(runs[..n - 1][j..], runs[n - 1]);
  }

  /** The walk from `c` answers the state of the run whose interval holds
      `t`: run `i` of `runs` covers [c - I*Span(runs[i..]), c - I*Span(runs[i+1..]))
      and the result `r` covers everything from `c` on; times before every
      run get the oldest run. */
  lemma {:induction false} WalkFindsRun(runs: seq<Run>, interval: int, c: int, t: int, r: Json, i: nat)
    requires interval > 0
    requires forall k :: 0 <= k < |runs| ==> runs[k].age >= 0
    requires i <= |runs|
    requires i == 0 || c - interval * Span(runs[i..]) <= t
    requires i == |runs| || t < c - interval * Span(runs[i + 1..])
    ensures Walk(runs, interval, c, t, r) == if i == |runs| then r else runs[i].state
    decreases |runs|
  {
    var n := |runs|;
    if n == 0 {
      return;
    }
    if i == n {
      assert runs[n..] == [];
      return;
    }
    SpanNonnegative(runs[i + 1..]);
    assert interval * Span(runs[i + 1..]) >= 0;
    assert t < c;
    var front, last := runs[..n - 1], runs[n - 1];
    var c' := c - interval * last.age;
    assert Walk(runs, interval, c, t, r) == Walk(front, interval, c', t, last.state);
    DropLastKeepsStarts(runs, interval, c, i);
    if i == n - 1 {
      assert front[n - 1..] == [];
      assert runs[n - 1..] == [last];
      assert Span([last]) == last.age by {
        assert [last][..0] == [];
      }
      WalkFindsRun(front, interval, c', t, last.state, n - 1);
    } else {
      DropLastKeepsStarts(runs, interval, c, i + 1);
      WalkFindsRun(front, interval, c', t, last.state, i);
    }
  }

  /** `stateAt(t)` answers the state of the run whose interval holds `t`. */
  lemma StateAtRun(log: Log, i: nat, t: int)
    requires log.interval > 0 && Positive(log)
    requires i <= |log.history|
    requires i == 0 || RunStart(log, i) <= t
    requires i == |log.history| || t < RunStart(log, i + 1)
    ensures StateAt(log, t) == RunState(log, i)
  {
    WalkFindsRun(log.history, log.interval, CurrentStart(log), t, log.state, i);
  }

  /** From the live run's first millisecond on, `stateAt` is the live state. */
  lemma StateAtCurrent(log: Log, t: int)
    requires t >= CurrentStart(log)
    ensures StateAt(log, t) == log.state
  {
  }

  /** Before every run, `stateAt` answers the oldest known state: the live
      one when nothing is archived. */
  lemma StateAtBeforeAll(log: Log, t: int)
    requires log.interval > 0 && Positive(log)
    requires t < RunStart(log, 0)
    ensures StateAt(log, t) == if log.history == [] then log.state else log.history[0].state
  {
    var h := log.history;
    if h != [] {
      assert h[0..] == [h[0]] + h[1..];
      SpanCons(h[0], h[1..]);
      assert RunStart(log, 0) == RunStart(log, 1) - log.interval * h[0].age;
    }
    StateAtRun(log, 0, t);
  }

  lemma {:induction false} WalkAnswersSomeRun(runs: seq<Run>, interval: int, c: int, t: int, r: Json)
    returns (i: int)
    ensures -1 <= i < |runs|
    ensures Walk(runs, interval, c, t, r) == if i < 0 then r else runs[i].state
    decreases |runs|
  {
    if t < c && |runs| > 0 {
      var n := |runs|;
      i := WalkAnswersSomeRun(runs[..n - 1], interval, c - interval * runs[n - 1].age, t, runs[n - 1].state);
      if i < 0 {
        i := n - 1;
      }
    } else {
      i := -1;
    }
  }

  /** `stateAt` only ever answers a state the log holds. */
  lemma StateAtIsLogged(log: Log, t: int)
    ensures StateAt(log, t) == log.state
         || exists i :: 0 <= i < |log.history| && StateAt(log, t) == log.history[i].state
  {
    var i := WalkAnswersSomeRun(log.history, log.interval, CurrentStart(log), t, log.state);
  }

  lemma {:induction false} WalkShift(runs: seq<Run>, interval: int, c: int, t: int, r: Json, d: int)
    ensures Walk(runs, interval, c + d, t + d, r) == Walk(runs, interval, c, t, r)
    decreases |runs|
  {
    if t < c && |runs| > 0 {
      var n := |runs|;
      WalkShift(runs[..n - 1], interval, c - interval * runs[n - 1].age, t, runs[n - 1].state, d);
    }
  }

  // ---------------------------------------------------------------------
  // What an update does to the timeline

  /** How far an update moves the boundaries of the runs before it: the
      elapsed time minus the whole intervals credited for it. */
  function Drift(interval: int, dtime: int): (d: int)
    requires interval > 0
    ensures 0 <= dtime ==> -interval <= d < interval
    ensures dtime >= interval ==> d >= 0
    ensures 0 <= dtime < interval ==> d == dtime - interval && d < 0
  {
    dtime - interval * Ticks(interval, dtime)
  }

  /** After an update the new state answers the last `Ticks` intervals up to
      `newDate`, and every earlier time answers what the old log answered
      `Drift` milliseconds earlier. */
  lemma UpdateReanchors(log: Log, newState: Json, newDate: int, t: int)
    requires log.interval > 0 && log.age >= 0 && Consistent(log)
    requires log.date <= newDate
    ensures Step(log, newState, newDate).Ok?
    ensures var k := Ticks(log.interval, newDate - log.date);
      StateAt(Step(log, newState, newDate).value, t)
        == if t > newDate - log.interval * k then newState
           else StateAt(log, t - Drift(log.interval, newDate - log.date))
  {
    if HashOf(newState) != log.hash {
      ReanchorArchiving(log, newState, newDate, t);
    } else {
      ReanchorExtending(log, newState, newDate, t);
    }
  }

  lemma ReanchorArchiving(log: Log, newState: Json, newDate: int, t: int)
    requires log.interval > 0 && log.date <= newDate && HashOf(newState) != log.hash
    ensures var k := Ticks(log.interval, newDate - log.date);
      StateAt(Step(log, newState, newDate).value, t)
        == if t > newDate - log.interval * k then newState
           else StateAt(log, t - Drift(log.interval, newDate - log.date))
  {
    var next := Step(log, newState, newDate).value;
    var I, k := log.interval, Ticks(log.interval, newDate - log.date);
    var shift := Drift(I, newDate - log.date);
    var Ik, Ia := I * k, I * log.age;
    assert CurrentStart(next) == newDate - Ik + 1;
    assert CurrentStart(log) == log.date - Ia + 1;
    assert shift == newDate - log.date - Ik;
    if t <= newDate - Ik {
      var h := next.history;
      assert h[..|h| - 1] == log.history;
      assert h[|h| - 1] == Run(log.age, log.state);
      assert StateAt(next, t) == Walk(log.history, I, CurrentStart(next) - Ia, t, log.state);
      assert CurrentStart(next) - Ia == CurrentStart(log) + shift;
      WalkShift(log.history, I, CurrentStart(log), t - shift, log.state, shift);
    }
  }

  lemma ReanchorExtending(log: Log, newState: Json, newDate: int, t: int)
    requires log.interval > 0 && log.age >= 0 && Consistent(log)
    requires log.date <= newDate && HashOf(newState) == log.hash
    ensures var k := Ticks(log.interval, newDate - log.date);
      StateAt(Step(log, newState, newDate).value, t)
        == if t > newDate - log.interval * k then newState
           else StateAt(log, t - Drift(log.interval, newDate - log.date))
  {
    var next := Step(log, newState, newDate).value;
    var I, k := log.interval, Ticks(log.interval, newDate - log.date);
    var shift := Drift(I, newDate - log.date);
    var Ik, Ia := I * k, I * log.age;
    assert I * (log.age + k) == Ia + Ik;
    assert CurrentStart(next) == CurrentStart(log) + shift;
    WalkShift(log.history, I, CurrentStart(log), t - shift, log.state, shift);
    if t > newDate - Ik {
      assert Ia >= 0;
      StateAtCurrent(log, t - shift);
    }
  }

  lemma {:induction false} MulAtLeast(interval: int, x: int)
    requires interval > 0 && x >= 1
    ensures interval * x >= interval
    decreases x
  {
    if x > 1 {
      MulAtLeast(interval, x - 1);
      assert interval * x == interval * (x - 1) + interval;
    }
  }

  lemma TicksOfWholeIntervals(interval: int, m: int)
    requires interval > 0 && m >= 1
    ensures Ticks(interval, interval * m) == m
  {
    var q, r := (interval * m) / interval, (interval * m) % interval;
    assert interval * q + r == interval * m;
    assert interval * (m - q) == r by {
      assert interval * (m - q) == interval * m - interval * q;
    }
    if m - q >= 1 {
      MulAtLeast(interval, m - q);
    }
    if q - m >= 1 {
      MulAtLeast(interval, q - m);
    }
    assert interval * (q - m) == -(interval * (m - q));
    assert q == m;
  }

  /** An update a whole number of intervals after the last one keeps the
      past exactly: times up to the old date answer as before, later ones
      answer the new state. */
  lemma OnTimeUpdateKeepsPast(log: Log, newState: Json, m: int, t: int)
    requires log.interval > 0 && log.age >= 0 && Consistent(log) && m >= 1
    ensures Step(log, newState, log.date + log.interval * m).Ok?
    ensures StateAt(Step(log, newState, log.date + log.interval * m).value, t)
         == if t > log.date then newState else StateAt(log, t)
  {
    TicksOfWholeIntervals(log.interval, m);
    UpdateReanchors(log, newState, log.date + log.interval * m, t);
  }

  /** Every update keeps the live run and the archived runs at least one
      interval long. */
  lemma StepKeepsPositive(log: Log, newState: Json, newDate: int)
    requires log.interval > 0 && Positive(log) && Step(log, newState, newDate).Ok?
    ensures Positive(Step(log, newState, newDate).value)
  {
    var next := Step(log, newState, newDate).value;
    if HashOf(newState) != log.hash {
      assert forall i :: 0 <= i < |next.history| ==>
        next.history[i] == if i < |log.history| then log.history[i] else Run(log.age, log.state);
    }
  }

  /** Every update keeps the digest of the live state and never archives a
      run next to one with the same state. */
  lemma StepKeepsCompact(log: Log, newState: Json, newDate: int)
    requires log.interval > 0 && Consistent(log) && Compact(log) && Step(log, newState, newDate).Ok?
    ensures Consistent(Step(log, newState, newDate).value)
    ensures Compact(Step(log, newState, newDate).value)
  {
    var next := Step(log, newState, newDate).value;
    if HashOf(newState) != log.hash {
      var h := log.history;
      assert forall i :: 0 <= i < |next.history| ==>
        next.history[i] == if i < |h| then h[i] else Run(log.age, log.state);
      assert newState != log.state;
    }
  }

  /** The timeline grows by exactly the intervals the update credits:
      nothing is double counted or dropped. */
  lemma StepAddsTicks(log: Log, newState: Json, newDate: int)
    requires log.interval > 0 && Step(log, newState, newDate).Ok?
    ensures var next := Step(log, newState, newDate).value;
      next.age + Span(next.history)
        == log.age + Span(log.history) + Ticks(log.interval, newDate - log.date)
  {
    if HashOf(newState) != log.hash {
      SpanSnoc(log.history, Run(log.age, log.state));
    }
  }

  // ---------------------------------------------------------------------
  // Update sequences

  /** Each date of `updates` lies in [previous, previous + 2*interval): each
      update is credited exactly one interval. */
  predicate Paced(interval: int, from: int, updates: seq<(Json, int)>)
    decreases |updates|
  {
    updates == []
    || (from <= updates[0].1 < from + 2 * interval && Paced(interval, updates[0].1, updates[1..]))
  }

  function LastDate(from: int, updates: seq<(Json, int)>): int {
    if updates == [] then from else updates[|updates| - 1].1
  }

  /** Two logs that differ only in their date, fed the same states at dates
      lagging by less than one interval, end with the same runs; when the
      last dates agree the logs are equal. */
  lemma {:induction false} LagDoesNotMatter(a: Log, b: Log, ua: seq<(Json, int)>, ub: seq<(Json, int)>)
    requires a.interval > 0 && b == a.(date := b.date)
    requires |ua| == |ub| && forall k :: 0 <= k < |ua| ==> ua[k].0 == ub[k].0
    requires Paced(a.interval, a.date, ua) && Paced(b.interval, b.date, ub)
    ensures Replay(a, ua).Ok? && Replay(b, ub).Ok?
    ensures Replay(a, ua).value.date == LastDate(a.date, ua)
    ensures Replay(b, ub).value.date == LastDate(b.date, ub)
    ensures Replay(b, ub).value == Replay(a, ua).value.(date := Replay(b, ub).value.date)
    ensures ua != [] && ua[|ua| - 1].1 == ub[|ub| - 1].1 ==> Replay(a, ua) == Replay(b, ub)
    decreases |ua|
  {
    if ua != [] {
      var na := Step(a, ua[0].0, ua[0].1).value;
      var nb := Step(b, ub[0].0, ub[0].1).value;
      assert nb == na.(date := nb.date);
      LagDoesNotMatter(na, nb, ua[1..], ub[1..]);
      assert ua[1..] != [] ==> ua[1..][|ua[1..]| - 1] == ua[|ua| - 1];
      assert ub[1..] != [] ==> ub[1..][|ub[1..]| - 1] == ub[|ub| - 1];
    }
  }

  /** Resampling an unchanged state once per interval never archives: the
      live run grows by one interval per sample. */
  lemma {:induction false} SteadyStateExtends(log: Log, x: Json, updates: seq<(Json, int)>)
    requires log.interval > 0 && HashOf(x) == log.hash
    requires forall k :: 0 <= k < |updates| ==> updates[k].0 == x
    requires Paced(log.interval, log.date, updates)
    ensures Replay(log, updates).Ok?
    ensures Replay(log, updates).value.history == log.history
    ensures Replay(log, updates).value.state == log.state
    ensures Replay(log, updates).value.age == log.age + |updates|
    decreases |updates|
  {
    if updates != [] {
      var next := Step(log, x, updates[0].1).value;
      SteadyStateExtends(next, x, updates[1..]);
    }
  }

  /** The `a, a, b, c` sequence at consecutive intervals: the repeated `a`
      lengthens its run, `b` and `c` each archive the run before them. */
  lemma TransitionsCompact(interval: int, d: int, a: Json, b: Json, c: Json)
    requires interval > 0 && a != b && b != c
    ensures var start := Log(interval, d, a, HashOf(a), 1, []);
      Replay(start, [(a, d + interval), (b, d + 2 * interval), (c, d + 3 * interval)])
        == Ok(Log(interval, d + 3 * interval, c, HashOf(c), 1, [Run(2, a), Run(1, b)]))
  {
    var start := Log(interval, d, a, HashOf(a), 1, []);
    var l1 := Log(interval, d + interval, a, HashOf(a), 2, []);
    var l2 := Log(interval, d + 2 * interval, b, HashOf(b), 1, [Run(2, a)]);
    var l3 := Log(interval, d + 3 * interval, c, HashOf(c), 1, [Run(2, a), Run(1, b)]);
    assert Step(start, a, d + interval) == Ok(l1);
    assert Ticks(interval, interval) == 1;
    assert HashOf(b) != HashOf(a) && HashOf(c) != HashOf(b);
    assert [] + [Run(2, a)] == [Run(2, a)];
    assert Step(l1, b, d + 2 * interval) == Ok(l2);
    assert [Run(2, a)] + [Run(1, b)] == [Run(2, a), Run(1, b)];
    assert Step(l2, c, d + 3 * interval) == Ok(l3);
    var ups := [(a, d + interval), (b, d + 2 * interval), (c, d + 3 * interval)];
    assert ups[1..][1..][1..] == [];
    assert Replay(l3, ups[1..][1..][1..]) == Ok(l3);
    assert Replay(l2, ups[1..][1..]) == Ok(l3);
    assert Replay(l1, ups[1..]) == Ok(l3);
  }

  // ---------------------------------------------------------------------
  // stateHistory

  /** `stateHistory(intervals, endDate)`: one `stateAt` per interval, oldest
      first, the last one at `endDate`. */
  function StateHistory(log: Log, intervals: int, endDate: int): seq<Json> {
    var n := if intervals > 0 then intervals else 0;
    seq(n, j requires 0 <= j < n => StateAt(log, SampleDate(endDate, n, j, log.interval)))
  }

  /** `stateHistory(n, end)` takes one sample per interval: `n` states, and
      none at all for `n <= 0`. */
  lemma StateHistoryLength(log: Log, intervals: int, endDate: int)
    ensures |StateHistory(log, intervals, endDate)| == if intervals > 0 then intervals else 0
    ensures intervals <= 0 ==> StateHistory(log, intervals, endDate) == []
  {
  }

  /** When sample `j` of `count` samples ending at `endDate` is taken. */
  function SampleDate(endDate: int, count: int, j: int, interval: int): int {
    endDate - (count - 1 - j) * interval
  }


  lemma SamplesAfterOnTimeUpdate(log: Log, newState: Json, m: int, n: nat)
    requires log.interval > 0 && log.age >= 0 && Consistent(log) && m >= 1
    ensures Step(log, newState, log.date + log.interval * m).Ok?
    ensures StateHistory(Step(log, newState, log.date + log.interval * m).value, n + m, log.date + log.interval * m)
         == StateHistory(log, n, log.date) + seq(m, _ => newState)
  {
    var newDate := log.date + log.interval * m;
    var next := Step(log, newState, newDate).value;
    var lhs := StateHistory(next, n + m, newDate);
    var rhs := StateHistory(log, n, log.date) + seq(m, _ => newState);
    SampleAt(next, n + m, newDate, 0);
    forall j | 0 <= j < n + m
      ensures lhs[j] == rhs[j]
    {
      SamplesAgreeAt(log, newState, m, n, j, next);
    }
  }

  lemma SamplesAgreeAt(log: Log, newState: Json, m: int, n: nat, j: nat, next: Log)
    requires log.interval > 0 && log.age >= 0 && Consistent(log) && m >= 1 && j < n + m
    requires Step(log, newState, log.date + log.interval * m) == Ok(next)
    ensures StateHistory(next, n + m, log.date + log.interval * m)[j]
         == (StateHistory(log, n, log.date) + seq(m, _ => newState))[j]
  {
    var newDate := log.date + log.interval * m;
    OnTimeSampleAt(log, newState, m, n, j);
    SampleAt(next, n + m, newDate, j);
    if j < n {
      SampleAt(log, n, log.date, j);
    }
  }

  /** Sample `j` of `stateHistory(count, endDate)` is taken `count - 1 - j`
      intervals before `endDate`. */
  lemma SampleAt(log: Log, count: int, endDate: int, j: int)
    requires 0 <= j < count
    ensures |StateHistory(log, count, endDate)| == count
    ensures StateHistory(log, count, endDate)[j] == StateAt(log, SampleDate(endDate, count, j, log.interval))
  {
  }

  lemma OnTimeSampleAt(log: Log, newState: Json, m: int, n: nat, j: nat)
    requires log.interval > 0 && log.age >= 0 && Consistent(log) && m >= 1 && j < n + m
    ensures Step(log, newState, log.date + log.interval * m).Ok?
    ensures var t := SampleDate(log.date + log.interval * m, n + m, j, log.interval);
      StateAt(Step(log, newState, log.date + log.interval * m).value, t)
        == if j < n then StateAt(log, SampleDate(log.date, n, j, log.interval)) else newState
  {
    var I := log.interval;
    var t := log.date + I * m - (n + m - 1 - j) * I;
    OnTimeUpdateKeepsPast(log, newState, m, t);
    var back := n - 1 - j;
    assert (n + m - 1 - j) * I == back * I + I * m;
    assert t == log.date - back * I;
    if j < n {
      assert back * I >= 0;
    } else {
      assert -back >= 1;
      MulAtLeast(I, -back);
      assert back * I == -(I * -back);
    }
  }
}
