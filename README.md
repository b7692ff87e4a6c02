# state-log in Dafny

A model of sc-voice/state-log, a small JavaScript library for watching
servers:

- **StateLog** is a discrete-time change log. It holds one live run
  `{state, hash, age}` that ends at `date`. Before it come the archived runs
  `{age, state}` in `history`, oldest first. An age counts sampling
  intervals.
- `update(newState, newDate)` credits the elapsed time as whole intervals,
  at least one. A state with the same hash lengthens the live run. A
  different state archives the live run and starts a new one.
- `stateAt(t)` walks the runs backwards to find the state at time `t`.
- `stateHistory(n, end)` samples `stateAt` once per interval.
- **UrlProbe** fetches a URL and logs a state derived from the response into
  its StateLog. Its `normalizeState` keeps only the fields a filter names,
  copying a field or cutting it down to the first match of a pattern.
- **Monitor** keeps the probes of one interval. A module-level `timers`
  object allows at most one running timer per interval. Each tick probes
  every registered probe at the same date.

The modules follow the source files:

- `json.dfy` (`Json`): JavaScript values as the library sees them (JSON plus
  `undefined`), property access, and the content hash.
- `timeline.dfy` (`Timeline`): the change log as a value. This is the reference
  definition that both StateLog revisions are proved against, and it
  carries the lemmas about update, `stateAt` and `stateHistory`.
- `state_log.dfy` (`StateLogJs`): the exported class of `src/state-log.js`.
  Its methods mutate fields in place and loop as the source does.
- `state_log_mjs.dfy` (`StateLogMjs`): the older class of
  `src/state-log.mjs`, without `properties`. It also holds the proof that
  both revisions produce the same logs.
- `url_probe.dfy` (`UrlProbe`): the field filter, the constructor's
  validation, and what `probe` logs for each fetch outcome.
- `monitor.dfy` (`Monitor`): the probe registry, `start` and `stop` against
  the timers object, and the tick.
- `date_default.dfy` (`DateDefault`): the default `date` of a new StateLog,
  as written and as corrected (see "## Findings").

Modelling choices:

- Dates are integer milliseconds, stored as Date instants (the corrected
  default of "## Findings"; a date passed in is taken to be a Date or a
  date string). `interval > 0` is required wherever an update
  or a sample computes with it.
- The MerkleJson hash is modelled as a collision-free digest: a digest is
  the value itself, so equal hashes mean equal states.
- These collaborators are parameters:
  - the regular expression engine: the syntax error `new RegExp(p)` throws,
    and the first match;
  - URL validity (`new URL(url)` not throwing);
  - the outcome of `fetch` and `res.json()`;
  - the handle `setInterval` returns;
  - the current time.
- A thrown error is an `Err` value. In that case the model obliges the
  state to be unchanged.
- Where the tests or comments and the code disagree, the model follows the
  code:
  - `update` never inserts gap entries with an unknown state.
  - After a skipped gap the new run's age is `max(1, floor(dt/interval))`,
    not 1.
  - `StateLog.normalizeState` returns its input unchanged.

## Model

| member | source | states |
|---|---|---|
| `Json.Put` | src/url-probe.js:60-65 | Assigning `obj[key] = v` adds exactly `key` to the keys, makes `key` read `v`, and leaves every other key reading what it did |
| `Json.Member` | src/url-probe.js:57 | Reference definition of `state[key]`: an object's own property or `undefined`, an array's element under an index name or its `length`; `undefined` on every other value. Only object-type states reach this read, so strings and other primitives never do |
| `Json.Entries` | src/url-probe.js:55 | Reference definition of `Object.entries`: an object's own field list, read as its enumeration order; an array's or a string's elements under index names; nothing for other values |
| `Json.HashDetectsChange` | src/state-log.js:66-75 | Two states have equal hashes exactly when they are equal |
| `Timeline.Serialize` | src/state-log.js:44-45 | Reference definition of the field record `JSON.stringify` writes: every field present, which `Timeline.SerializeRoundTrip` shows the constructor reads back |
| `Timeline.ConstructorDefaults` | src/state-log.js:21-46 | A log built from a state alone has interval 1000, the current time as date, age 1, empty history and the hash of the state |
| `Timeline.FromOpts` | src/state-log.js:17-46 | Reference definition of the constructor's fields: each option with its default (interval 1000, date now, age 1, empty history, the state's digest when no hash is given) |
| `Timeline.SerializeRoundTrip` | src/state-log.js:17-46 | Rebuilding a log from its serialised field record reproduces every field and the properties |
| `Timeline.Ticks` | src/state-log.js:71-73 | The credited interval count is at least 1; it is exactly 1 for a gap under two intervals; otherwise it is the number of whole intervals in the gap |
| `Timeline.Step` | src/state-log.js:62-89 | An update fails exactly when the new date is before the log's date, with that error. Otherwise the date becomes the new date. An equal hash keeps history, state and hash and adds the ticks to age. A different hash appends exactly the old `{age, state}` to history and sets the new state, its hash and `age = ticks` |
| `Timeline.Replay` | src/state-log.js:62-89 | Reference definition of a sequence of `update` calls: each applies `Step` to the previous log, and the first error stops the sequence |
| `Timeline.Walk` | src/state-log.js:119-123 | Reference definition of the backward loop of `stateAt`: while the query is before the current run start and runs remain, step to the previous run |
| `Timeline.StateAt` | src/state-log.js:115-125 | Reference definition of `stateAt`: the walk from the live run, whose start is `date - interval*age + 1` |
| `Timeline.WalkFindsRun` | src/state-log.js:118-123 | The backward walk returns the state of the run whose interval contains the queried time, and the oldest run for times before every run |
| `Timeline.StateAtRun` | src/state-log.js:115-125 | `stateAt(t)` is the state of run `i` whenever `t` lies in run `i`'s interval (over the live run and every archived run) |
| `Timeline.StateAtCurrent` | src/state-log.js:118-119 | From `date - interval*age + 1` on, `stateAt` answers the live state |
| `Timeline.StateAtBeforeAll` | src/state-log.js:119-124 | Before every run, `stateAt` answers `history[0].state`, or the live state when history is empty |
| `Timeline.StateAtIsLogged` | src/state-log.js:115-125 | `stateAt` always answers the live state or the state of some archived run |
| `Timeline.Drift` | src/state-log.js:71-73 | The time an update does not credit lies between `-interval` (inclusive) and `interval` (exclusive). Below one interval of gap it is negative: the update credits a whole interval that did not fully elapse (at a gap of 0 it credits `interval` ms too many). From a gap of one interval on it is non-negative |
| `Timeline.UpdateReanchors` | src/state-log.js:62-89 | After an update, times within the last `ticks` intervals before the new date answer the new state. Every earlier time answers what the old log answered `Drift` ms earlier |
| `Timeline.OnTimeUpdateKeepsPast` | src/state-log.js:62-89 | An update exactly `m >= 1` intervals after the last one answers the new state after the old date and leaves every earlier answer unchanged |
| `Timeline.StepKeepsPositive` | src/state-log.js:73-85 | Every update keeps the live run age and every archived age at least 1 |
| `Timeline.StepKeepsCompact` | src/state-log.js:75-85 | Every update keeps the stored hash equal to the live state's hash, and never archives a run next to one with the same state |
| `Timeline.StepAddsTicks` | src/state-log.js:71-85 | The total age of the log grows by exactly the ticks the update credits |
| `Timeline.LagDoesNotMatter` | src/state-log.js:71-73 | Two logs differing only in date, fed the same states at dates each less than two intervals after the previous one, both succeed and end with equal logs except for the date; if the last dates agree the logs are equal |
| `Timeline.SteadyStateExtends` | src/state-log.js:83-86 | Repeating the live state once per interval never archives, and grows age by one per update |
| `Timeline.TransitionsCompact` | src/state-log.js:62-89 | The `a, a, b, c` sequence at consecutive intervals ends with live state `c` of age 1 and history `[{2, a}, {1, b}]` |
| `Timeline.StateHistory` | src/state-log.js:132-144 | Reference definition of `stateHistory(n, end)`: `max(n, 0)` samples of `stateAt`, one interval apart, oldest first |
| `Timeline.StateHistoryLength` | src/state-log.js:138-143 | `stateHistory(n, end)` has exactly `max(n, 0)` states, and none for `n <= 0` |
| `Timeline.SampleAt` | src/state-log.js:132-144 | For `n >= 1`, `stateHistory(n, end)` has `n` states, and element `j` is `stateAt(end - (n-1-j)*interval)`, so it is oldest first and ends at `end` |
| `Timeline.SamplesAfterOnTimeUpdate` | src/state-log.js:132-144 | After an update `m` intervals on, the last `n + m` samples are the old last `n` samples followed by `m` copies of the new state |
| `StateLogJs.NormalizeState` | src/state-log.js:105-109 | This revision's normalisation returns the state unchanged, whatever the properties |
| `StateLogJs.ReplayNormalized` | src/state-log.js:62-89 | Reference definition of a sequence of `update` calls of this revision: each state passes through `normalizeState` with the log's properties before `Step`, and the first error stops the sequence |
| `StateLogJs.StateLog.constructor` | src/state-log.js:17-47 | The fields are the options with their defaults (interval 1000, date now, age 1, empty history, hash of the state, properties `{}` when absent or `undefined`) |
| `StateLogJs.StateLog.Update` | src/state-log.js:62-89 | An out-of-order date returns the error and changes no field. Otherwise it returns the log itself, whose new fields are `Step` of the old ones. Properties are kept, and age at least 1 is preserved |
| `StateLogJs.StateLog.StateAt` | src/state-log.js:115-125 | The loop answers `Timeline.StateAt` of the log's fields |
| `StateLogJs.StateLog.StateHistory` | src/state-log.js:132-144 | The sampling loop and the reversal answer `Timeline.StateHistory` of the log's fields |
| `StateLogJs.Reversed` | src/state-log.js:143 | Reference definition of `Array.prototype.reverse` on a fresh array: the same length, with element `j` taken from position `len-1-j` |
| `StateLogMjs.StateLog.constructor` | src/state-log.mjs:3-32 | The fields are the options with their defaults (interval 1000, date now, age 1, empty history, hash of the state) |
| `StateLogMjs.StateLog.Update` | src/state-log.mjs:34-59 | An out-of-order date returns the error before any change. Otherwise it returns the log itself, whose new fields are `Step` of the old ones, and age at least 1 is preserved |
| `StateLogMjs.StateLog.StateAt` | src/state-log.mjs:61-71 | The loop answers `Timeline.StateAt` of the log's fields |
| `StateLogMjs.StateLog.StateHistory` | src/state-log.mjs:73-85 | The sampling loop and the reversal answer `Timeline.StateHistory` of the log's fields |
| `StateLogMjs.RevisionsAgree` | src/state-log.mjs:34-59 | Any update sequence gives the same log, or the same error, under both revisions, whatever the `properties` of the newer one |
| `UrlProbe.Rule` | src/url-probe.js:56-71 | Reference definition of one filter entry: reading a key of `null` throws; `true` keeps the value; a string must be a valid pattern, skips a `null`/`undefined` value, needs a string value and keeps its first match or `'no-match'`; any other rule throws `cannot normalize` |
| `UrlProbe.Filtered` | src/url-probe.js:55-72 | Reference definition of the `forEach`: the entries in order, each assigning, skipping or throwing, and the first throw ending the filter |
| `UrlProbe.FilteredKeys` | src/url-probe.js:54-73 | The object the filter builds has only keys that the filter names |
| `UrlProbe.Normalized` | src/url-probe.js:46-76 | A `null`/`undefined` filter returns the state unchanged, and so does a state that is not of object type. Otherwise a successful result is an object whose keys are among the filter's keys |
| `UrlProbe.NormalizeState` | src/url-probe.js:46-76 | The method, with its loop, returns `Normalized` |
| `UrlProbe.FilterEntries` | src/url-probe.js:55-72 | The `forEach` loop, with its early exits on a throw, returns `Filtered` of the entries |
| `UrlProbe.FilteredStopsAtError` | src/url-probe.js:55-71 | Once an entry has thrown, later entries do not change the outcome |
| `UrlProbe.FilteredFields` | src/url-probe.js:55-72 | In a successful filter no entry failed. A kept entry's key reads the kept value, and a skipped entry's key is absent |
| `UrlProbe.NormalizedFields` | src/url-probe.js:53-73 | A successful filter on an object has only object or array states and only `true` or valid string rules. A `true` rule copies the value. A string rule keeps the first match or `'no-match'`, requires a string value, and omits a `null`/`undefined` value |
| `UrlProbe.FilteredFailsFirst` | src/url-probe.js:55-71 | The filter throws exactly when some entry fails, and then throws the error of the first such entry |
| `UrlProbe.NormalizeFailsFirst` | src/url-probe.js:53-71 | `normalizeState` throws exactly when some filter entry fails, with the first failure's error; a rule that is neither `true` nor a string fails |
| `UrlProbe.NullStateThrows` | src/url-probe.js:53-57 | A `null` state through a non-empty filter throws reading the first key |
| `UrlProbe.FilterExample` | test/url-probe.js:50-69 | `{date, color, age}` filtered by `{date: pattern, color: true}` is `{date: match, color}` |
| `UrlProbe.ErrorState` | src/url-probe.js:87-90 | Reference definition of the state `errorHandler` logs: `{error: e.message, message: 'could not fetch json'}` |
| `UrlProbe.ProbeState` | src/url-probe.js:86-113 | Reference definition of the state a probe logs for a fetch outcome, a filter and a pattern engine |
| `UrlProbe.ProbeStates` | src/url-probe.js:84-116 | A failed fetch, a failed `json()` or a failed normalisation logs `{error: message, message: 'could not fetch json'}`. An `undefined` filter logs `{status}`; otherwise `{status, json}` with the normalised body |
| `UrlProbe.Logged` | src/url-probe.js:86-113 | Reference definition of the log after one `update` that may throw: `Step`'s new log, or the log as it was when the update throws |
| `UrlProbe.LoggedAtDate` | src/url-probe.js:86-113 | A probe's update leaves the log unchanged when out of order. Otherwise it moves the date, and on a consistent log the logged state becomes the state at that date |
| `UrlProbe.StepLogsState` | src/state-log.js:62-89 | An in-order update of a consistent log makes its state the state at its date |
| `UrlProbe.CtorError` | src/url-probe.js:13-24 | Construction fails exactly when the URL is missing or invalid (that error first) or the log is missing |
| `UrlProbe.UrlProbe.constructor` | src/url-probe.js:26 | Stores `url`, `stateLog` and `jsonFilter` |
| `UrlProbe.UrlProbe.Probe` | src/url-probe.js:84-116 | The probe's log becomes `Logged` of the state `ProbeState` chooses. An out-of-order date makes every update throw, so the probe rejects with that error; otherwise it resolves with the response |
| `UrlProbe.NewUrlProbe` | src/url-probe.js:13-27 | The constructor throws `CtorError` when there is one; otherwise a new probe stores the three options |
| `Monitor.Claim` | src/monitor.js:41-50 | Starting fails exactly when the interval's slot is occupied; otherwise the slot takes the new handle and other slots are untouched |
| `Monitor.Release` | src/monitor.js:59-65 | Stopping frees the interval's slot and leaves every other slot as it was |
| `Monitor.OneTimerPerInterval` | src/monitor.js:41-50 | A second start at the same interval throws "existing Monitor" |
| `Monitor.StopThenStart` | src/monitor.js:57-67 | A second stop changes nothing, and a start after a stop succeeds |
| `Monitor.IntervalsIndependent` | src/monitor.js:8 | Starting or stopping one interval does not affect whether another can start |
| `Monitor.FreshLog` | src/monitor.js:101 | The log of a new probe is `new StateLog({interval})`: the monitor's interval, date now, age 1, nothing archived, consistent hash |
| `Monitor.Timers.constructor` | src/monitor.js:8 | The timers object starts empty |
| `Monitor.Monitor.constructor` | src/monitor.js:20-34 | The interval defaults to 60000 ms; there are no probes and no start time |
| `Monitor.Monitor.FindProbe` | src/monitor.js:97 | Finds the first registered probe with an equal URL, or none; an undefined URL matches none |
| `Monitor.Monitor.ProbeUrl` | src/monitor.js:89-111 | A duplicate URL throws with probes unchanged, and so does an invalid one. A valid URL not yet registered always succeeds: exactly one new probe is appended and returned, with the URL, the filter and a new log at the monitor's interval. URLs stay distinct and logs stay separate |
| `Monitor.Monitor.Start` | src/monitor.js:39-52 | An occupied slot throws and changes nothing. Otherwise the slot takes the handle and `started` becomes now |
| `Monitor.Monitor.Stop` | src/monitor.js:57-67 | The slot is freed, and the cleared handle is returned when there was one |
| `Monitor.Monitor.TimerHandler` | src/monitor.js:69-77 | Every probe is probed once at the same date, in registration order, each into its own log, with the results in that order. Every log keeps its `properties` |
| `DateDefault.StampAsWritten` | src/state-log.js:23-36 | Only a given string is converted to a Date. A given Date stays a Date, and a given number and the `Date.now()` default stay bare numbers; the instant is the one given, or now |
| `DateDefault.StampCorrected` | src/state-log.js:23-36 | With the corrected default a log built without a date holds a Date; a given date is held as before |
| `DateDefault.UpdateAsWritten` | src/state-log.js:62-89 | As written, `update` rejects an out-of-order date, then throws for a numeric date, and otherwise agrees with `Step` |
| `DateDefault.StateAtAsWritten` | src/state-log.js:115-118 | As written, `stateAt` throws exactly for a numeric date, and otherwise agrees with `Timeline.StateAt` |
| `DateDefault.DefaultDateIsUnusable` | src/state-log.js:23 | As written, a log built without a date throws on every in-order update and on every `stateAt` |
| `DateDefault.GivenNumberIsUnusable` | src/state-log.js:34-36 | As written, a log built with a numeric `date` throws on every in-order update and on every `stateAt` too |
| `DateDefault.CorrectedDefaultIsUsable` | src/state-log.js:23 | With a Date default, the same log accepts the update, makes the new state current at its date, and answers `stateAt` |

## Left out

- The network. `fetch` and `res.json()` become a `FetchOutcome` argument, and the response is not read past its status and body.
- MerkleJson. The hash is modelled as value equality, so the fact that MerkleJson ignores key order is not captured: objects whose fields are in a different order count as different states.
- JSON text. String-form construction (`JSON.parse`) and `JSON.stringify` are modelled as a field record, the options type `Opts`. The dropping of `undefined` fields in JSON text is not modelled.
- Non-integer numbers. Numbers are integers, and `NaN`, `Infinity` and fractional milliseconds are not modelled.
- Double precision. JavaScript numbers are doubles, while the model's integers are unbounded. Integers above 2^53 lose precision in JavaScript. A `new Date(x)` beyond ±8.64e15 ms is an Invalid Date whose comparisons are all false, which ends the `stateAt` loop early. Neither is modelled: every date is a valid instant.
- Date text. Date parsing and `Date.prototype.toString` are not modelled, and the out-of-order error message renders the date in milliseconds.
- A zero or negative interval is not modelled. A missing one defaults to 1000. Zero (or `null`) gives `Infinity` or `NaN` ages. A negative one credits one interval per update and puts the start of the live run after its date.
- Error texts of the constructor of UrlProbe (`Invalid url`, `stateLog is required`), of Monitor (`existing Monitor`, `duplicate URL monitor`) and of the `getTime` TypeError are not modelled: these errors are values of kind `ProbeError`, `MonitorError` and `Failure`, and no modelled code reads their message. The texts that `probe` logs, those of the normalisation errors and of the out-of-order error, are modelled.
- `StateLogJs.StateLog.constructor`: a falsy but present `hash` (such as `""`) is kept, while the source recomputes it with `hash || ml.hash(state)`.
- `StateLogJs.StateLog.constructor`: history entries that are not `{age, state}` records (the custom-constructor test passes strings) are not modelled.
- `StateLogJs.StateLog.constructor`: the history array is held as a value, so aliasing of the array passed in is not modelled.
- `StateLogMjs.StateLog.constructor`: a falsy but present `hash` is kept, while src/state-log.mjs:27 recomputes it with `hash || ml.hash(state)`.
- `StateLogMjs.StateLog.constructor`: history entries that are not `{age, state}` records are not modelled.
- `StateLogMjs.StateLog.constructor`: the history array is held as a value, so aliasing of the array passed in is not modelled.
- `Timeline.Step`: only logs whose interval is positive are modelled.
- Default arguments (`newDate = new Date()`, `intervals = 1`, `aDate = new Date()`) are not modelled; callers pass every argument.
- `UrlProbe.NormalizedFields`: it is stated for filters with distinct keys, as every JavaScript object has. Duplicate keys are representable in the model but are not covered.
- Key order. An `Obj` value's field list is read as the object's enumeration order, in which JavaScript lists array-index keys first, ascending, then the other keys in insertion order. The model does not reorder keys on assignment. The filter needs no reordering, because it assigns keys in its own enumeration order, so its result is already in that order. A filter written `{"b": 5, "0": 7}` is the model value with `"0"` first.
- Property lookup covers own properties, array indices and `length`. Nothing is looked up on prototypes.
- `UrlProbe.UrlProbe.Probe`: the asynchronous probe is modelled as one sequential step, with the fetch outcome given up front.
- URL objects: `url` is a string, and `new URL(url)` becomes an `isUrl` predicate.
- `Monitor.Monitor.TimerHandler`: the fire-and-forget concurrent probes of one tick are modelled in their order of calls, with each fetch outcome given as an argument. Within one tick they cannot interfere, because every probe has its own log. Overlapping ticks of one probe are not modelled. `setInterval` fires again while a previous tick's `fetch`, which has no timeout, is still pending, so two `probe(date)` calls can run on the same log. If the later tick's update lands first, the earlier tick's `update` throws out of order, its `errorHandler` throws as well, and that probe's promise rejects.
- `Monitor.Monitor.Start`: the callback that `setInterval` will run is not modelled. Ticks are calls of `TimerHandler`.
- Logging (`logger`, `this.info`, `console.log`) is output only.
- The command-line scripts, `node.js` and `index.js` (argument parsing, re-exports) are not part of this model.
- Behaviour the repository's tests expect but no code implements is not part of this model: `stateIterator`, gap entries with an unknown state, a static `StateLog.normalizeState`, `terminate`, `monitorUrl`, and the UrlProbe `type`.

## Findings

| source | as written | input that shows it | evidently intended | confidence | as-written member | corrected member |
|---|---|---|---|---|---|---|
| src/state-log.js:23 | `date` defaults to `Date.now()`, a number, but `update` (line 71) and `stateAt` (line 118) call `date.getTime()`, which throws a TypeError for a number. src/state-log.mjs:9 has the same default. `Monitor.probeUrl` builds its logs this way (src/monitor.js:101), so as written their probes never log a state. A numeric `date` passed explicitly fails the same way (`DateDefault.GivenNumberIsUnusable`), since src/state-log.js:34-36 converts only strings | `new StateLog({interval: 1000}).update('a', new Date())` | the default is a Date (`new Date()`), as test/state-log.js:15 expects `sl.date` to be a Date | high; not executed | `DateDefault.DefaultDateIsUnusable` | `DateDefault.CorrectedDefaultIsUsable` |
