/** One device's share of the fleet, and what its published history says about it. */
module DeviceHistory {
  import opened Tasks
  import opened Devices
  import opened Health

  /** The events of one device, in order of publication. */
  function LogOf(log: seq<Event>, d: DeviceId): seq<Event> {
    if log == [] then []
    else
      var n := |log| - 1;
      LogOf(log[..n], d) + (if log[n].device == d then [log[n]] else [])
  }

  datatype Local = Local(
    dev: Option<Device>,
    born: Option<Device>,
    health: DeviceHealth,
    recovery: Option<Recovery>,
    swept: bool,
    log: seq<Event>)

  function Locally(f: Fleet, d: DeviceId): Local {
    Local(if d in f.reg.devices then Some(f.reg.devices[d]) else None,
          if d in f.reg.born then Some(f.reg.born[d]) else None,
          HealthOf(f.mon, d),
          if d in f.mon.recoveries then Some(f.mon.recoveries[d]) else None,
          d in f.mon.sweep,
          LogOf(f.mon.log, d))
  }

  // ---------- what a log says ----------

  datatype Standing = InPool | InQuarantine | Gone

  function StandingOf(state: DeviceState): Standing {
    match state
    case Quarantined => InQuarantine
    case Retired => Gone
    case _ => InPool
  }

  predicate IsRestored(e: Event) { e.notice.DeviceRestored? }

  predicate IsFailed(e: Event) { e.notice.RecoveryFailed? }

  /** What a reader of the log believes of a device that was first seen as `born`. */
  function Published(log: seq<Event>, born: Standing): Standing {
    if log == [] then born
    else
      match log[|log| - 1].notice
      case DeviceQuarantined => InQuarantine
      case DeviceRestored(_) => InPool
      case DeviceRetired => Gone
      case RecoveryFailed(_, _) => Published(log[..|log| - 1], born)
  }

  /** A failed recovery is only ever reported of a device the log shows in quarantine. */
  ghost predicate Honest(log: seq<Event>, born: Standing) {
    forall i {:trigger IsFailed(log[i])} | 0 <= i < |log| && IsFailed(log[i]) ::
      Published(log[..i], born) == InQuarantine
  }

  /** Times of the recoveries that went through adb. */
  function RecTimes(log: seq<Event>): seq<real> {
    if log == [] then []
    else
      var e := log[|log| - 1];
      RecTimes(log[..|log| - 1]) + (if e.notice == DeviceRestored(AdbReconnect) then [e.time] else [])
  }

  predicate Sorted(times: seq<real>) {
    forall i, j | 0 <= i < j < |times| :: times[i] <= times[j]
  }

  /** Any `limit + 1` consecutive recoveries take longer than the window. */
  ghost predicate Spread(times: seq<real>, limit: nat, window: real) {
    forall i, j | 0 <= i && j == i + limit && j < |times| :: times[j] - times[i] > window
  }

  /** `kept` is all of `times` but a prefix that has left the window. */
  ghost predicate Remembers(kept: seq<real>, times: seq<real>, window: real, now: real) {
    && |kept| <= |times|
    && kept == times[|times| - |kept|..]
    && forall i | 0 <= i < |times| - |kept| :: times[i] < now - window
  }

  /** One more recovery now would still respect the limit. */
  ghost predicate Slack(times: seq<real>, limit: nat, window: real, now: real) {
    limit >= 1 && (|times| >= limit ==> times[|times| - limit] < now - window)
  }

  // ---------- outages ----------

  /** Sum of the delays after episodes a, a + 1, ..., b - 1. */
  function SumDelay(p: HealthPolicy, a: nat, b: nat): real
    requires a >= 1
    decreases b
  {
    if b <= a then 0.0 else SumDelay(p, a, b - 1) + Delay(p, b - 1)
  }

  ghost predicate NoRestoreAfter(log: seq<Event>, i: nat, j: nat) {
    forall m {:trigger IsRestored(log[m])} | i < m < j && m < |log| :: !IsRestored(log[m])
  }

  /** Failures of one outage are numbered upwards and as far apart as the delays add up to. */
  ghost predicate Paced(p: HealthPolicy, log: seq<Event>) {
    && (forall i {:trigger IsFailed(log[i])} | 0 <= i < |log| && IsFailed(log[i]) ::
          log[i].notice.episode >= 1 && log[i].notice.delay == Delay(p, log[i].notice.episode))
    && forall i, j {:trigger NoRestoreAfter(log, i, j)}
         | 0 <= i < j < |log| && IsFailed(log[i]) && IsFailed(log[j]) && NoRestoreAfter(log, i, j) ::
         && log[i].notice.episode < log[j].notice.episode
         && log[j].time >= log[i].time + SumDelay(p, log[i].notice.episode, log[j].notice.episode)
  }

  /** The backoff in force covers every failure of the current outage. */
  ghost predicate BackoffCovers(p: HealthPolicy, log: seq<Event>, h: DeviceHealth) {
    && (h.failedRecoveries == 0 ==> h.nextRecoveryAt == 0.0)
    && forall i {:trigger NoRestoreAfter(log, i, |log|)}
         | 0 <= i < |log| && IsFailed(log[i]) && NoRestoreAfter(log, i, |log|) ::
         && 1 <= log[i].notice.episode <= h.failedRecoveries
         && log[i].time + SumDelay(p, log[i].notice.episode, h.failedRecoveries + 1) <= h.nextRecoveryAt
  }

  // ---------- the invariant of one device ----------

  ghost predicate StandingValid(l: Local) {
    && l.dev.Some? && l.born.Some?
    && Published(l.log, StandingOf(l.born.value.state)) == StandingOf(l.dev.value.state)
    && Honest(l.log, StandingOf(l.born.value.state))
    && l.dev.value.recoveries == l.born.value.recoveries + |RecTimes(l.log)|
  }

  ghost predicate WindowValid(p: HealthPolicy, l: Local, now: real) {
    var times := RecTimes(l.log);
    && Sorted(times)
    && (times != [] ==> times[|times| - 1] <= now)
    && Remembers(l.health.recoveryTimes, times, p.window, now)
    && Spread(times, p.retireAfter, p.window)
    && (l.recovery.Some? && !l.recovery.value.Spawned? ==> Slack(times, p.retireAfter, p.window, now))
  }

  ghost predicate OutageValid(p: HealthPolicy, l: Local, now: real) {
    && Paced(p, l.log)
    && BackoffCovers(p, l.log, l.health)
    && (l.recovery.Some? ==> now >= l.health.nextRecoveryAt)
  }

  ghost predicate LocalValid(p: HealthPolicy, l: Local, now: real) {
    && (if l.dev.None? then l == Local(None, None, HEALTHY, None, false, []) else StandingValid(l))
    && (l.recovery.Some? ==> l.dev.Some? && l.dev.value.state != Retired)
    && WindowValid(p, l, now)
    && OutageValid(p, l, now)
  }

  // ---------- log lemmas ----------

  lemma LogOfAppend(log: seq<Event>, e: Event, d: DeviceId)
    ensures LogOf(log + [e], d) == LogOf(log, d) + (if e.device == d then [e] else [])
  {
    assert (log + [e])[..|log|] == log;
  }

  lemma LogGrows(log: seq<Event>, e: Event, born: Standing)
    ensures RecTimes(log + [e]) == RecTimes(log) + (if e.notice == DeviceRestored(AdbReconnect) then [e.time] else [])
    ensures IsFailed(e) ==> Published(log + [e], born) == Published(log, born)
    ensures !IsFailed(e) && Honest(log, born) ==> Honest(log + [e], born)
    ensures IsFailed(e) && Honest(log, born) && Published(log, born) == InQuarantine ==> Honest(log + [e], born)
  {
    assert (log + [e])[..|log|] == log;
    assert forall i | 0 <= i < |log| :: (log + [e])[..i] == log[..i];
  }

  lemma NoRestoreGrows(log: seq<Event>, e: Event, i: nat, j: nat)
    requires j <= |log|
    ensures NoRestoreAfter(log + [e], i, j) <==> NoRestoreAfter(log, i, j)
  {
    assert forall m | 0 <= m < |log| :: (log + [e])[m] == log[m];
  }

  /** Any notice but a failure leaves the pacing of the past alone. */
  lemma PacedGrows(p: HealthPolicy, log: seq<Event>, e: Event)
    requires Paced(p, log) && !IsFailed(e)
    ensures Paced(p, log + [e])
  {
    forall i, j | 0 <= i < j < |log + [e]| && IsFailed((log + [e])[i]) && IsFailed((log + [e])[j])
                  && NoRestoreAfter(log + [e], i, j)
      ensures NoRestoreAfter(log, i, j) && j < |log|
    {
      NoRestoreGrows(log, e, i, j);
    }
  }
}
