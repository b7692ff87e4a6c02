/** Monitor (src/monitor.js): a registry of URL probes sharing one interval,
    and the module-level `timers` object that lets at most one monitor run
    per interval. */
module Monitor {
  import opened Json
  import opened Timeline
  import StateLogJs
  import opened UrlProbe

  /** `TIMER_INTERVAL`: one minute. */
  const TimerInterval := 60 * 1000

  /** The value `setInterval` returns; the environment supplies a new one. */
  datatype TimerHandle = TimerHandle(id: nat)

  /** The module-level `timers` object, keyed by interval.  A slot cleared by
      `stop` holds `undefined`, which is modelled as the key being absent. */
  class Timers {
    var slots: map<int, TimerHandle>

    constructor()
      ensures slots == map[]
    {
      slots := map[];
    }
  }

  /** What `start` and `probeUrl` throw, by kind. */
  datatype MonitorError =
    | ExistingMonitor(interval: int)
    | DuplicateUrl(url: string)
    | BadProbe(cause: ProbeError)

  /** What `start` does to the timers: a free slot takes the new handle, an
      occupied one (by any monitor of that interval) refuses. */
  function Claim(slots: map<int, TimerHandle>, interval: int, handle: TimerHandle): (r: Result<map<int, TimerHandle>, MonitorError>)
    ensures r.Err? <==> interval in slots
    ensures r.Err? ==> r.error == ExistingMonitor(interval)
    ensures r.Ok? ==> interval in r.value && r.value[interval] == handle
    ensures r.Ok? ==> forall k :: k != interval ==> (k in r.value <==> k in slots) && (k in slots ==> r.value[k] == slots[k])
  {
    if interval in slots then Err(ExistingMonitor(interval)) else Ok(slots[interval := handle])
  }

  /** What `stop` does to the timers: the slot of its interval is freed. */
  function Release(slots: map<int, TimerHandle>, interval: int): (r: map<int, TimerHandle>)
    ensures interval !in r
    ensures forall k :: k != interval ==> (k in r <==> k in slots) && (k in slots ==> r[k] == slots[k])
  {
    slots - {interval}
  }

  /** Two starts at one interval: the second throws, so one timer runs. */
  lemma OneTimerPerInterval(slots: map<int, TimerHandle>, interval: int, first: TimerHandle, second: TimerHandle)
    requires Claim(slots, interval, first).Ok?
    ensures Claim(Claim(slots, interval, first).value, interval, second) == Err(ExistingMonitor(interval))
  {
  }

  /** A second `stop` is a no-op, and after `stop` a `start` succeeds. */
  lemma StopThenStart(slots: map<int, TimerHandle>, interval: int, handle: TimerHandle)
    ensures Release(Release(slots, interval), interval) == Release(slots, interval)
    ensures Claim(Release(slots, interval), interval, handle) == Ok(Release(slots, interval)[interval := handle])
  {
  }

  /** Monitors of different intervals do not interfere. */
  lemma IntervalsIndependent(slots: map<int, TimerHandle>, a: int, b: int, handle: TimerHandle)
    requires a != b
    ensures Claim(Release(slots, a), b, handle).Ok? <==> Claim(slots, b, handle).Ok?
    ensures Claim(slots, a, handle).Ok? ==> (Claim(Claim(slots, a, handle).value, b, handle).Ok? <==> Claim(slots, b, handle).Ok?)
  {
  }

  /** The log `probeUrl` creates: `new StateLog({interval})` at time `now`. */
  function FreshLog(interval: int, now: int): (log: Log)
    ensures log == FromOpts(Opts(Some(interval), None, Undefined, None, None, None, None), now)
    ensures log.interval == interval && log.date == now && log.age == 1 && log.history == []
    ensures Consistent(log) && (interval > 0 ==> Positive(log))
  {
    Log(interval, now, Undefined, HashOf(Undefined), 1, [])
  }

  class Monitor {
    const interval: int
    var probes: seq<UrlProbe>
    var started: Option<int>

    /** Probes have distinct URLs and logs of their own, at the monitor's
        interval. */
    ghost predicate Valid()
      reads this
    {
      && (forall i, j :: 0 <= i < j < |probes| ==> probes[i].url != probes[j].url)
      && (forall i, j :: 0 <= i < j < |probes| ==> probes[i].stateLog != probes[j].stateLog)
      && (forall i :: 0 <= i < |probes| ==> probes[i].stateLog.interval == interval)
    }

    /** `new Monitor({interval})`: the interval defaults to one minute. */
    constructor(interval: Option<int>)
      ensures this.interval == interval.GetOr(TimerInterval)
      ensures probes == [] && started == None
      ensures Valid()
    {
      this.interval := interval.GetOr(TimerInterval);
      probes := [];
      started := None;
    }

    /** `probes.find(e => e.url === url)`, as an index. */
    method FindProbe(url: Option<string>) returns (found: Option<nat>)
      ensures found.None? <==> (url.None? || forall i :: 0 <= i < |probes| ==> probes[i].url != url.value)
      ensures found.Some? ==> found.value < |probes| && probes[found.value].url == url.value
      ensures found.Some? ==> forall i :: 0 <= i < found.value ==> probes[i].url != url.value
    {
      if url.None? {
        return None;
      }
      var i := 0;
      while i < |probes|
        invariant 0 <= i <= |probes|
        invariant forall k :: 0 <= k < i ==> probes[k].url != url.value
      {
        if probes[i].url == url.value {
          return Some(i);
        }
        i := i + 1;
      }
      return None;
    }

    /** `probeUrl({url, jsonFilter})`: refuses a URL already probed, then
        builds a fresh StateLog at the monitor's interval and a UrlProbe on it
        (which refuses an invalid URL), and appends the probe. */
    method ProbeUrl(url: Option<string>, jsonFilter: Json, now: int, isUrl: string -> bool)
      returns (r: Result<UrlProbe, MonitorError>)
      requires Valid()
      modifies this
      ensures Valid() && started == old(started)
      ensures (url.Some? && exists i :: 0 <= i < |old(probes)| && old(probes)[i].url == url.value)
        ==> r == Err(DuplicateUrl(url.value))
      ensures url.None? ==> r == Err(BadProbe(InvalidUrl(url)))
      ensures (url.Some? && !isUrl(url.value) && forall i :: 0 <= i < |old(probes)| ==> old(probes)[i].url != url.value)
        ==> r == Err(BadProbe(InvalidUrl(url)))
      ensures (url.Some? && isUrl(url.value) && forall i :: 0 <= i < |old(probes)| ==> old(probes)[i].url != url.value)
        ==> r.Ok?
      ensures r.Err? ==> probes == old(probes)
      ensures r.Ok? ==> (&& url.Some? && isUrl(url.value)
                         && (forall i :: 0 <= i < |old(probes)| ==> old(probes)[i].url != url.value)
                         && probes == old(probes) + [r.value]
                         && r.value.url == url.value && r.value.jsonFilter == jsonFilter
                         && fresh(r.value.stateLog)
                         && r.value.stateLog.Fields() == FreshLog(interval, now)
                         && r.value.stateLog.properties == Obj([]))
    {
      var existing := FindProbe(url);
      if existing.Some? {
        return Err(DuplicateUrl(url.value));
      }
      var stateLog := new StateLogJs.StateLog(Opts(Some(interval), None, Undefined, None, None, None, None), now);
      var probe := NewUrlProbe(url, Some(stateLog), jsonFilter, isUrl);
      if probe.Err? {
        return Err(BadProbe(probe.error));
      }
      probes := probes + [probe.value];
      return Ok(probe.value);
    }

    /** `start()`: occupies `timers[interval]` with a new timer handle and
        records the start time, unless the slot is already taken. */
    method Start(timers: Timers, handle: TimerHandle, now: int) returns (r: Result<(), MonitorError>)
      modifies this, timers
      ensures probes == old(probes)
      ensures match Claim(old(timers.slots), interval, handle)
        case Ok(slots) => r.Ok? && timers.slots == slots && started == Some(now)
        case Err(e) => r == Err(e) && timers.slots == old(timers.slots) && started == old(started)
    {
      if interval in timers.slots {
        return Err(ExistingMonitor(interval));
      }
      started := Some(now);
      timers.slots := timers.slots[interval := handle];
      return Ok(());
    }

    /** `stop()`: clears and frees the timer of the monitor's interval, if
        any; returns the handle passed to `clearInterval`. */
    method Stop(timers: Timers) returns (cleared: Option<TimerHandle>)
      modifies timers
      ensures timers.slots == Release(old(timers.slots), interval)
      ensures cleared == if interval in old(timers.slots) then Some(old(timers.slots)[interval]) else None
    {
      cleared := None;
      if interval in timers.slots {
        cleared := Some(timers.slots[interval]);
        timers.slots := timers.slots - {interval};
      }
    }

    /** `#timerHandler()` at tick time `date`, where `outcomes[i]` is what
        the fetch of the i-th probe resolves to: every probe is probed
        once, in order, at the same date, each into its own log. */
    method TimerHandler(date: int, outcomes: seq<FetchOutcome>, re: RegExpEngine) returns (results: seq<ProbeResult>)
      requires Valid() && interval > 0 && |outcomes| == |probes|
      modifies set i | 0 <= i < |probes| :: probes[i].stateLog
      ensures |results| == |probes|
      ensures forall i :: 0 <= i < |probes| ==>
        probes[i].stateLog.Fields() == Logged(old(probes[i].stateLog.Fields()), ProbeState(outcomes[i], probes[i].jsonFilter, re), date)
      ensures forall i :: 0 <= i < |probes| ==>
        results[i] == if date < old(probes[i].stateLog.date) then Rejected(OutOfOrder(old(probes[i].stateLog.date), date))
                      else Resolved(ResponseOf(outcomes[i]))
      ensures forall i :: 0 <= i < |probes| ==> probes[i].stateLog.properties == old(probes[i].stateLog.properties)
    {
      ghost var ps := probes;
      ghost var props := seq(|ps|, k requires 0 <= k < |ps| reads set j | 0 <= j < |ps| :: ps[j].stateLog => ps[k].stateLog.properties);
      ghost var before := seq(|ps|, k requires 0 <= k < |ps| reads set j | 0 <= j < |ps| :: ps[j].stateLog => ps[k].stateLog.Fields());
      results := [];
      for i := 0 to |probes|
        invariant |results| == i
        invariant forall k :: 0 <= k < |probes| ==> before[k].interval == interval
        invariant forall k :: 0 <= k < i ==> Probed(before[k], probes[k].stateLog.Fields(), results[k], outcomes[k], probes[k].jsonFilter, re, date)
        invariant forall k :: i <= k < |probes| ==> probes[k].stateLog.Fields() == before[k]
        invariant forall k :: 0 <= k < |probes| ==> probes[k].stateLog.properties == props[k]
      {
        ghost var log := probes[i].stateLog;
        assert forall k :: 0 <= k < |probes| && k != i ==> probes[k].stateLog != log;
        var r := probes[i].Probe(date, outcomes[i], re);
        assert Probed(before[i], log.Fields(), r, outcomes[i], probes[i].jsonFilter, re, date);
        results := results + [r];
      }
    }
  }

  /** What probing one log at `date` does: `before` and `after` are the log's
      fields around the call, `r` what it resolves to. */
  ghost predicate Probed(before: Log, after: Log, r: ProbeResult, outcome: FetchOutcome, jsonFilter: Json, re: RegExpEngine, date: int)
    requires before.interval > 0
  {
    && after == Logged(before, ProbeState(outcome, jsonFilter, re), date)
    && r == if date < before.date then Rejected(OutOfOrder(before.date, date)) else Resolved(ResponseOf(outcome))
  }
}
