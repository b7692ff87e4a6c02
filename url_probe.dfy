/** UrlProbe (src/url-probe.js): the field filter `normalizeState`, the
    constructor's validation, and the choice of the state `probe` logs. */
module UrlProbe {
  import opened Json
  import opened Timeline
  import StateLogJs

  /** The regular expression engine `normalizeState` relies on.
      `syntaxError(p)` is the message `new RegExp(p)` throws, if any;
      `firstMatch(p, s)` is `s.match(new RegExp(p))[0]`, or `None` when
      `match` returns `null`. */
  datatype RegExpEngine = RegExpEngine(
    syntaxError: string -> Option<string>,
    firstMatch: (string, string) -> Option<string>)

  /** The errors `normalizeState` throws.  The last three are the engine's
      own TypeErrors, with the wording of V8. */
  datatype NormalizeError =
    | CannotNormalize(key: string)
    | InvalidPattern(pattern: string, reason: string)
    | ReadOfNull(key: string)
    | MatchNotAFunction(key: string)
  {
    function Message(): string {
      match this
      case CannotNormalize(key) => "UrlProbe.normalizeState() cannot normalize \"" + key + "\""
      case InvalidPattern(_, reason) => reason
      case ReadOfNull(key) => "Cannot read properties of null (reading '" + key + "')"
      case MatchNotAFunction(_) => "stateValue.match is not a function"
    }
  }

  /** What one filter entry `[key, value]` does to the normalized object. */
  datatype FieldOutcome = Keep(v: Json) | Skip | Fail(e: NormalizeError)

  /** One turn of the `forEach`: `state[key]` is read first (which throws
      for a `null` state), then the rule decides. */
  function Rule(key: string, rule: Json, state: Json, re: RegExpEngine): FieldOutcome {
    if state.Null? then Fail(ReadOfNull(key))
    else
      var stateValue := Member(state, key);
      if rule == Bool(true) then Keep(stateValue)
      else if rule.Str? then
        match re.syntaxError(rule.s)
        case Some(reason) => Fail(InvalidPattern(rule.s, reason))
        case None =>
          if IsNullish(stateValue) then Skip
          else if !stateValue.Str? then Fail(MatchNotAFunction(key))
          else Keep(Str(re.firstMatch(rule.s, stateValue.s).GetOr("no-match")))
      else Fail(CannotNormalize(key))
  }

  /** The outcome of the filter entry at index `i`. */
  function OutcomeAt(entries: seq<(string, Json)>, i: nat, state: Json, re: RegExpEngine): FieldOutcome
    requires i < |entries|
  {
    Rule(entries[i].0, entries[i].1, state, re)
  }

  /** The object after one more entry: a kept value is assigned to `key`, a
      skipped entry leaves it as it is, a failure throws. */
  function Extend(prev: Result<seq<(string, Json)>, NormalizeError>, key: string, o: FieldOutcome): Result<seq<(string, Json)>, NormalizeError> {
    match prev
    case Err(e) => Err(e)
    case Ok(fields) =>
      match o
      case Keep(v) => Ok(Put(fields, key, v))
      case Skip => Ok(fields)
      case Fail(e) => Err(e)
  }

  /** The object built by the `forEach` over `entries`, in order; the first
      entry that throws ends it. */
  function Filtered(entries: seq<(string, Json)>, state: Json, re: RegExpEngine): Result<seq<(string, Json)>, NormalizeError>
    decreases |entries|
  {
    if entries == [] then Ok([])
    else
      var n := |entries| - 1;
      Extend(Filtered(entries[..n], state, re), entries[n].0, OutcomeAt(entries, n, state, re))
  }

  lemma KeysOfPrefix(entries: seq<(string, Json)>, n: nat)
    requires n <= |entries|
    ensures Keys(entries[..n]) <= Keys(entries)
  {
    KeysOf(entries[..n]);
    KeysOf(entries);
    forall k | k in Keys(entries[..n])
      ensures k in Keys(entries)
    {
      var i :| 0 <= i < n && entries[..n][i].0 == k;
      assert entries[i].0 == k;
    }
  }

  /** The object the filter builds has only keys the filter names. */
  lemma {:induction false} FilteredKeys(entries: seq<(string, Json)>, state: Json, re: RegExpEngine)
    ensures Filtered(entries, state, re).Ok? ==> Keys(Filtered(entries, state, re).value) <= Keys(entries)
    decreases |entries|
  {
    if entries != [] {
      var n := |entries| - 1;
      FilteredKeys(entries[..n], state, re);
      KeysOfPrefix(entries, n);
      KeysOf(entries);
    }
  }

  /** `UrlProbe.normalizeState(state, properties)`. */
  function Normalized(state: Json, properties: Json, re: RegExpEngine): (r: Result<Json, NormalizeError>)
    ensures IsNullish(properties) ==> r == Ok(state)
    ensures !IsObjectType(state) ==> r == Ok(state)
    ensures r.Ok? && !IsNullish(properties) && IsObjectType(state) ==>
      r.value.Obj? && Keys(r.value.fields) <= Keys(Entries(properties))
  {
    if IsNullish(properties) then Ok(state)
    else if IsObjectType(state) then
      FilteredKeys(Entries(properties), state, re);
      match Filtered(Entries(properties), state, re)
      case Ok(fields) => Ok(Obj(fields))
      case Err(e) => Err(e)
    else Ok(state)
  }

  /** `UrlProbe.normalizeState(state, properties)`. */
  method NormalizeState(state: Json, properties: Json, re: RegExpEngine) returns (r: Result<Json, NormalizeError>)
    ensures r == Normalized(state, properties, re)
  {
    if IsNullish(properties) {
      return Ok(state);
    }
    if IsObjectType(state) {
      var normalized := FilterEntries(Entries(properties), state, re);
      match normalized {
        case Ok(fields) => return Ok(Obj(fields));
        case Err(e) => return Err(e);
      }
    }
    return Ok(state);
  }

  /** The `forEach` loop of `normalizeState` over `Object.entries(properties)`. */
  method FilterEntries(entries: seq<(string, Json)>, state: Json, re: RegExpEngine)
    returns (r: Result<seq<(string, Json)>, NormalizeError>)
    ensures r == Filtered(entries, state, re)
  {
    var normalized: seq<(string, Json)> := [];
    for i := 0 to |entries|
      invariant Filtered(entries[..i], state, re) == Ok(normalized)
    {
      assert entries[..i + 1][..i] == entries[..i];
      var (key, value) := entries[i];
      ghost var step := OutcomeAt(entries[..i + 1], i, state, re);
      assert step == Rule(key, value, state, re);
      assert Filtered(entries[..i + 1], state, re) == Extend(Ok(normalized), key, step);
      if state.Null? {
        FilteredStopsAtError(entries, i + 1, state, re);
        return Err(ReadOfNull(key));
      }
      var stateValue := Member(state, key);
      if value == Bool(true) {
        normalized := Put(normalized, key, stateValue);
      } else if value.Str? {
        var bad := re.syntaxError(value.s);
        if bad.Some? {
          FilteredStopsAtError(entries, i + 1, state, re);
          return Err(InvalidPattern(value.s, bad.value));
        }
        if !IsNullish(stateValue) {
          if !stateValue.Str? {
            FilteredStopsAtError(entries, i + 1, state, re);
            return Err(MatchNotAFunction(key));
          }
          var m := re.firstMatch(value.s, stateValue.s);
          normalized := Put(normalized, key, Str(if m.Some? then m.value else "no-match"));
        }
      } else {
        FilteredStopsAtError(entries, i + 1, state, re);
        return Err(CannotNormalize(key));
      }
    }
    assert entries[..|entries|] == entries;
    return Ok(normalized);
  }

  /** Once an entry has thrown, the later entries are never reached. */
  lemma {:induction false} FilteredStopsAtError(entries: seq<(string, Json)>, k: nat, state: Json, re: RegExpEngine)
    requires k <= |entries|
    requires Filtered(entries[..k], state, re).Err?
    ensures Filtered(entries, state, re) == Filtered(entries[..k], state, re)
    decreases |entries| - k
  {
    if k < |entries| {
      var n := |entries| - 1;
      assert entries[..n][..k] == entries[..k];
      FilteredStopsAtError(entries[..n], k, state, re);
    } else {
      assert entries[..k] == entries;
    }
  }

  predicate DistinctKeys(entries: seq<(string, Json)>) {
    forall i, j :: 0 <= i < j < |entries| ==> entries[i].0 != entries[j].0
  }

  /** Each filter entry leaves its trace in the result: a kept value under
      its key, or no key at all; no entry of a successful filter fails. */
  lemma {:induction false} FilteredFields(entries: seq<(string, Json)>, state: Json, re: RegExpEngine, fields: seq<(string, Json)>, i: nat)
    requires Filtered(entries, state, re) == Ok(fields)
    requires DistinctKeys(entries)
    requires i < |entries|
    ensures !OutcomeAt(entries, i, state, re).Fail?
    ensures OutcomeAt(entries, i, state, re).Keep? ==>
      entries[i].0 in Keys(fields) && Get(fields, entries[i].0) == OutcomeAt(entries, i, state, re).v
    ensures OutcomeAt(entries, i, state, re).Skip? ==> entries[i].0 !in Keys(fields)
    decreases |entries|
  {
    var n := |entries| - 1;
    var prefix := entries[..n];
    var prev := Filtered(prefix, state, re);
    var last := OutcomeAt(entries, n, state, re);
    assert Filtered(entries, state, re) == Extend(prev, entries[n].0, last);
    var pfields := prev.value;
    if i == n {
      if last.Skip? {
        FilteredKeys(prefix, state, re);
        KeysOf(prefix);
        forall j | 0 <= j < n
          ensures prefix[j].0 != entries[n].0
        {
          assert prefix[j] == entries[j];
        }
      }
    } else {
      assert OutcomeAt(prefix, i, state, re) == OutcomeAt(entries, i, state, re) by {
        assert prefix[i] == entries[i];
      }
      FilteredFields(prefix, state, re, pfields, i);
      assert entries[n].0 != entries[i].0;
    }
  }

  /** The properties a filter promises of `normalizeState`'s result, for a
      filter that is an object (whose keys are distinct): a `true` rule
      copies the value, a string rule keeps the first match or
      `'no-match'` and omits a `null`/`undefined` value; any other rule, a
      bad pattern, a `null` state or a non-string value would have thrown. */
  lemma NormalizedFields(state: Json, properties: Json, re: RegExpEngine, out: Json, i: nat)
    requires !IsNullish(properties) && IsObjectType(state)
    requires Normalized(state, properties, re) == Ok(out)
    requires DistinctKeys(Entries(properties))
    requires i < |Entries(properties)|
    ensures out.Obj? && (state.Obj? || state.Arr?)
    ensures var (key, rule) := Entries(properties)[i];
      var stateValue := Member(state, key);
      (rule == Bool(true) || (rule.Str? && re.syntaxError(rule.s).None?))
      && (rule == Bool(true) ==> key in Keys(out.fields) && Get(out.fields, key) == stateValue)
      && (rule.Str? && IsNullish(stateValue) ==> key !in Keys(out.fields))
      && (rule.Str? && !IsNullish(stateValue) ==>
            stateValue.Str? && key in Keys(out.fields)
            && Get(out.fields, key) == Str(re.firstMatch(rule.s, stateValue.s).GetOr("no-match")))
  {
    FilteredFields(Entries(properties), state, re, out.fields, i);
  }

  lemma OutcomesOfPrefix(entries: seq<(string, Json)>, n: nat, state: Json, re: RegExpEngine)
    requires n <= |entries|
    ensures forall j :: 0 <= j < n ==> OutcomeAt(entries[..n], j, state, re) == OutcomeAt(entries, j, state, re)
  {
    forall j | 0 <= j < n
      ensures OutcomeAt(entries[..n], j, state, re) == OutcomeAt(entries, j, state, re)
    {
      assert entries[..n][j] == entries[j];
    }
  }

  /** The filter throws exactly when some entry fails, and then with the
      error of the first entry that fails; `first` is that entry, or -1. */
  lemma {:induction false} FilteredFailsFirst(entries: seq<(string, Json)>, state: Json, re: RegExpEngine)
    returns (first: int)
    ensures -1 <= first < |entries|
    ensures first < 0 <==> Filtered(entries, state, re).Ok?
    ensures forall j :: 0 <= j < |entries| && (first < 0 || j < first) ==> !OutcomeAt(entries, j, state, re).Fail?
    ensures first >= 0 ==> OutcomeAt(entries, first, state, re) == Fail(Filtered(entries, state, re).error)
    decreases |entries|
  {
    if entries == [] {
      return -1;
    }
    var n := |entries| - 1;
    first := FilteredFailsFirst(entries[..n], state, re);
    OutcomesOfPrefix(entries, n, state, re);
    if first < 0 && OutcomeAt(entries, n, state, re).Fail? {
      first := n;
    }
  }

  /** `normalizeState` throws exactly when some filter entry fails, and
      then with the error of the first such entry. */
  lemma NormalizeFailsFirst(state: Json, properties: Json, re: RegExpEngine)
    requires !IsNullish(properties) && IsObjectType(state)
    ensures var es := Entries(properties);
      Normalized(state, properties, re).Err? <==> exists i :: 0 <= i < |es| && OutcomeAt(es, i, state, re).Fail?
    ensures var es := Entries(properties);
      Normalized(state, properties, re).Err? ==>
        exists i :: 0 <= i < |es| && OutcomeAt(es, i, state, re) == Fail(Normalized(state, properties, re).error)
          && forall j :: 0 <= j < i ==> !OutcomeAt(es, j, state, re).Fail?
  {
    var first := FilteredFailsFirst(Entries(properties), state, re);
    if first >= 0 {
      assert OutcomeAt(Entries(properties), first, state, re).Fail?;
    }
  }

  /** A `null` state read through a non-empty filter throws at its first key. */
  lemma NullStateThrows(properties: Json, re: RegExpEngine)
    requires !IsNullish(properties) && Entries(properties) != []
    ensures Normalized(Null, properties, re) == Err(ReadOfNull(Entries(properties)[0].0))
  {
    NormalizeFailsFirst(Null, properties, re);
    assert OutcomeAt(Entries(properties), 0, Null, re).Fail?;
  }

  /** The object `{date, color, age}` filtered by `{date: pattern, color:
      true}` keeps the matched `date` and the `color`, and drops `age`. */
  lemma FilterExample(date: string, pattern: string, matched: string, color: string, age: int, re: RegExpEngine)
    requires re.syntaxError(pattern) == None && re.firstMatch(pattern, date) == Some(matched)
    ensures var raw := Obj([("date", Str(date)), ("color", Str(color)), ("age", Num(age))]);
      Normalized(raw, Obj([("date", Str(pattern)), ("color", Bool(true))]), re)
        == Ok(Obj([("date", Str(matched)), ("color", Str(color))]))
  {
    var raw := Obj([("date", Str(date)), ("color", Str(color)), ("age", Num(age))]);
    var filter := [("date", Str(pattern)), ("color", Bool(true))];
    assert filter[..1] == [("date", Str(pattern))];
    assert filter[..1][..0] == [];
    assert "date" != "color" by { assert "date"[0] != "color"[0]; }
    assert "color" != "age" by { assert "color"[0] != "age"[0]; }
    assert Rule("date", Str(pattern), raw, re) == Keep(Str(matched));
    assert Get(raw.fields, "color") == Str(color) by {
      assert raw.fields[1..] == [("color", Str(color)), ("age", Num(age))];
    }
    assert Rule("color", Bool(true), raw, re) == Keep(Str(color));
    assert Filtered(filter[..1], raw, re) == Ok([("date", Str(matched))]);
    assert Put([("date", Str(matched))], "color", Str(color)) == [("date", Str(matched)), ("color", Str(color))];
    assert Filtered(filter, raw, re) == Ok([("date", Str(matched)), ("color", Str(color))]);
  }

  /** The outcome of `await fetch(url)` and `await res.json()`. */
  datatype Response = Response(status: int, body: Result<Json, string>)
  datatype FetchOutcome = Fetched(response: Response) | FetchFailed(reason: string)

  /** The state `errorHandler` logs for an error with the given message. */
  function ErrorState(message: string): Json {
    Obj([("error", Str(message)), ("message", Str("could not fetch json"))])
  }

  /** The state a probe logs for a fetch outcome. */
  function ProbeState(outcome: FetchOutcome, jsonFilter: Json, re: RegExpEngine): Json {
    match outcome
    case FetchFailed(reason) => ErrorState(reason)
    case Fetched(res) =>
      if jsonFilter.Undefined? then Obj([("status", Num(res.status))])
      else match res.body
        case Err(reason) => ErrorState(reason)
        case Ok(json) =>
          match Normalized(json, jsonFilter, re)
          case Ok(j) => Obj([("status", Num(res.status)), ("json", j)])
          case Err(e) => ErrorState(e.Message())
  }

  /** What a probe logs: `{status}` without a filter; `{status, json}` with
      the normalised body; the error state when the fetch, the decoding or
      the normalisation throws. */
  lemma ProbeStates(outcome: FetchOutcome, jsonFilter: Json, re: RegExpEngine)
    ensures outcome.FetchFailed? ==> ProbeState(outcome, jsonFilter, re) == ErrorState(outcome.reason)
    ensures outcome.Fetched? && jsonFilter.Undefined? ==>
      ProbeState(outcome, jsonFilter, re) == Obj([("status", Num(outcome.response.status))])
    ensures outcome.Fetched? && !jsonFilter.Undefined? && outcome.response.body.Err? ==>
      ProbeState(outcome, jsonFilter, re) == ErrorState(outcome.response.body.error)
    ensures outcome.Fetched? && !jsonFilter.Undefined? && outcome.response.body.Ok? ==>
      var n := Normalized(outcome.response.body.value, jsonFilter, re);
      ProbeState(outcome, jsonFilter, re)
        == if n.Ok? then Obj([("status", Num(outcome.response.status)), ("json", n.value)])
           else ErrorState(n.error.Message())
  {
  }

  /** The log after an update that either succeeds or throws. */
  function Logged(log: Log, st: Json, date: int): Log
    requires log.interval > 0
  {
    match Step(log, st, date)
    case Ok(next) => next
    case Err(_) => log
  }

  /** A probe's update leaves the log as it was when out of order, and
      otherwise moves its date and makes the logged state the state at that
      date. */
  lemma LoggedAtDate(log: Log, st: Json, date: int)
    requires log.interval > 0
    ensures date < log.date ==> Logged(log, st, date) == log
    ensures date >= log.date ==> Logged(log, st, date).date == date
    ensures date >= log.date && log.age >= 0 && Consistent(log) ==> StateAt(Logged(log, st, date), date) == st
  {
    if date >= log.date && log.age >= 0 && Consistent(log) {
      StepLogsState(log, st, date);
    }
  }

  /** An update that succeeds makes its state the state at its date. */
  lemma StepLogsState(log: Log, st: Json, date: int)
    requires log.interval > 0 && log.age >= 0 && Consistent(log) && date >= log.date
    ensures Step(log, st, date).Ok? && StateAt(Step(log, st, date).value, date) == st
  {
    var next := Step(log, st, date).value;
    var k := Ticks(log.interval, date - log.date);
    assert CurrentStart(next) <= date by {
      assert next.age >= k;
      MulAtLeast(log.interval, next.age);
    }
    StateAtCurrent(next, date);
  }

  /** The promise a probe returns: the response (`undefined` when the fetch
      itself failed), or the error of the `update` that threw last. */
  datatype ProbeResult = Resolved(res: Option<Response>) | Rejected(error: UpdateError)

  function ResponseOf(outcome: FetchOutcome): Option<Response> {
    match outcome
    case Fetched(res) => Some(res)
    case FetchFailed(_) => None
  }

  /** Errors of `new UrlProbe(opts)`. */
  datatype ProbeError = InvalidUrl(url: Option<string>) | MissingStateLog

  /** The constructor's validation: the URL is checked first, then the log.
      `isUrl` stands for `new URL(url)` not throwing; a missing URL never
      parses. */
  function CtorError(url: Option<string>, hasStateLog: bool, isUrl: string -> bool): (e: Option<ProbeError>)
    ensures e.None? <==> url.Some? && isUrl(url.value) && hasStateLog
    ensures !(url.Some? && isUrl(url.value)) ==> e == Some(InvalidUrl(url))
    ensures url.Some? && isUrl(url.value) && !hasStateLog ==> e == Some(MissingStateLog)
  {
    if url.None? || !isUrl(url.value) then Some(InvalidUrl(url))
    else if !hasStateLog then Some(MissingStateLog)
    else None
  }

  class UrlProbe {
    const url: string
    const stateLog: StateLogJs.StateLog
    const jsonFilter: Json

    /** `Object.assign(this, {url, stateLog, jsonFilter})`, once validated. */
    constructor(url: string, stateLog: StateLogJs.StateLog, jsonFilter: Json)
      ensures this.url == url && this.stateLog == stateLog && this.jsonFilter == jsonFilter
    {
      this.url := url;
      this.stateLog := stateLog;
      this.jsonFilter := jsonFilter;
    }

    /** `probe(date)` once `fetch` has produced `outcome`.  The chosen state
        is logged at `date`; when `date` is before the log's date every
        `update` throws (also those of `errorHandler`), so the log is left as
        it was and the promise rejects. */
    method Probe(date: int, outcome: FetchOutcome, re: RegExpEngine) returns (r: ProbeResult)
      requires stateLog.interval > 0
      modifies stateLog
      ensures stateLog.properties == old(stateLog.properties)
      ensures stateLog.Fields() == Logged(old(stateLog.Fields()), ProbeState(outcome, jsonFilter, re), date)
      ensures r == if date < old(stateLog.date) then Rejected(OutOfOrder(old(stateLog.date), date))
                   else Resolved(ResponseOf(outcome))
    {
      var res: Option<Response> := None;
      var caught: Option<string> := None;
      match outcome {
        case FetchFailed(reason) =>
          caught := Some(reason);
        case Fetched(response) =>
          res := Some(response);
          if !jsonFilter.Undefined? {
            match response.body {
              case Err(reason) =>
                caught := Some(reason);
              case Ok(json) =>
                var innerCaught: Option<string> := None;
                var normalized := NormalizeState(json, jsonFilter, re);
                if normalized.Err? {
                  innerCaught := Some(normalized.error.Message());
                } else {
                  var u := stateLog.Update(Obj([("status", Num(response.status)), ("json", normalized.value)]), date);
                  if u.Err? {
                    innerCaught := Some(u.error.Message());
                  }
                }
                if innerCaught.Some? {
                  var h := stateLog.Update(ErrorState(innerCaught.value), date);
                  if h.Err? {
                    caught := Some(h.error.Message());
                  }
                }
            }
          } else {
            var u := stateLog.Update(Obj([("status", Num(response.status))]), date);
            if u.Err? {
              caught := Some(u.error.Message());
            }
          }
      }
      if caught.Some? {
        var h := stateLog.Update(ErrorState(caught.value), date);
        if h.Err? {
          return Rejected(h.error);
        }
      }
      return Resolved(res);
    }
  }

  /** `new UrlProbe({url, stateLog, jsonFilter})`. */
  method NewUrlProbe(url: Option<string>, stateLog: Option<StateLogJs.StateLog>, jsonFilter: Json, isUrl: string -> bool)
    returns (r: Result<UrlProbe, ProbeError>)
    ensures r.Err? <==> CtorError(url, stateLog.Some?, isUrl).Some?
    ensures r.Err? ==> r.error == CtorError(url, stateLog.Some?, isUrl).value
    ensures r.Ok? ==> (fresh(r.value) && r.value.url == url.value
                       && r.value.stateLog == stateLog.value && r.value.jsonFilter == jsonFilter)
  {
    if url.None? || !isUrl(url.value) {
      return Err(InvalidUrl(url));
    }
    if stateLog.None? {
      return Err(MissingStateLog);
    }
    var probe := new UrlProbe(url.value, stateLog.value, jsonFilter);
    return Ok(probe);
  }
}
