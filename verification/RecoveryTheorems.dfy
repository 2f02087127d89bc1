/** What every run promises about recoveries: how many, how often, and when they keep quiet. */
module RecoveryTheorems {
  import opened Counting
  import opened Tasks
  import opened Devices
  import opened Health
  import opened DeviceHistory
  import opened FleetProofs
  import opened Kernel
  import opened KernelProofs
  import opened DeviceTheorems

  // ---------- the sliding window ----------

  function AdbRecovery(d: DeviceId, from: real, to: real): Event -> bool {
    (e: Event) => e.device == d && e.notice == DeviceRestored(AdbReconnect) && from <= e.time <= to
  }

  function Within(from: real, to: real): real -> bool {
    (t: real) => from <= t <= to
  }

  lemma OwnTimesGrow(own: seq<Event>, e: Event, d: DeviceId, from: real, to: real)
    ensures
      var grown := own + if e.device == d then [e] else [];
      Count(RecTimes(grown), Within(from, to))
      == Count(RecTimes(own), Within(from, to)) + Count([e], AdbRecovery(d, from, to))
  {
    if e.device == d {
      LogGrows(own, e, InPool);
      CountAppend(RecTimes(own), if e.notice == DeviceRestored(AdbReconnect) then [e.time] else [], Within(from, to));
    } else {
      assert own + [] == own;
    }
  }

  lemma {:induction false} CountOwnTimes(log: seq<Event>, d: DeviceId, from: real, to: real)
    ensures Count(log, AdbRecovery(d, from, to)) == Count(RecTimes(LogOf(log, d)), Within(from, to))
  {
    if log != [] {
      var n := |log| - 1;
      CountOwnTimes(log[..n], d, from, to);
      assert log == log[..n] + [log[n]];
      CountAppend(log[..n], [log[n]], AdbRecovery(d, from, to));
      LogOfAppend(log[..n], log[n], d);
      OwnTimesGrow(LogOf(log[..n], d), log[n], d, from, to);
    }
  }

  lemma {:induction false} SpreadBounds(times: seq<real>, limit: nat, window: real, from: real)
    requires Sorted(times) && Spread(times, limit, window) && window >= 0.0
    ensures Count(times, Within(from, from + window)) <= limit
  {
    if times == [] {
    } else if times[0] < from {
      SpreadBounds(times[1..], limit, window, from);
    } else if |times| <= limit {
      CountAtMost(times, Within(from, from + window));
    } else {
      var block, rest := times[..limit], times[limit..];
      assert times == block + rest;
      CountAppend(block, rest, Within(from, from + window));
      CountAtMost(block, Within(from, from + window));
      assert times[limit] - times[0] > window;
      forall i | 0 <= i < |rest| ensures !Within(from, from + window)(rest[i]) {
        assert rest[i] == times[limit + i];
      }
      CountZero(rest, Within(from, from + window));
    }
  }

  lemma RecoveriesInWindow(p: HealthPolicy, f: Fleet, d: DeviceId, now: real, from: real)
    requires FleetValid(p, f, now) && PolicyValid(p)
    ensures Count(f.mon.log, AdbRecovery(d, from, from + p.window)) <= p.retireAfter
  {
    assert LocalValid(p, Locally(f, d), now);
    CountOwnTimes(f.mon.log, d, from, from + p.window);
    SpreadBounds(RecTimes(LogOf(f.mon.log, d)), p.retireAfter, p.window, from);
  }

  /** Over any run and any window of the configured length, a device is brought back through
      adb at most `retireAfter` times, although the monitor forgets history as it counts. */
  lemma RecoveriesPerWindow(p: Policy, trace: seq<Kernel>, steps: seq<Step>, n: nat, d: DeviceId, from: real)
    requires IsRun(p, trace, steps) && n < |trace|
    ensures Count(trace[n].fleet.mon.log, AdbRecovery(d, from, from + p.health.window)) <= p.health.retireAfter
  {
    RunValid(p, trace, steps, n);
    RecoveriesInWindow(p.health, trace[n].fleet, d, trace[n].now, from);
  }

  lemma {:induction false} SinceCounts(times: seq<real>, cutoff: real, to: real)
    requires forall i | 0 <= i < |times| :: times[i] <= to
    ensures |Since(times, cutoff)| == Count(times, Within(cutoff, to))
  {
    if times != [] {
      SinceCounts(times[1..], cutoff, to);
    }
  }

  lemma RememberedCounts(kept: seq<real>, times: seq<real>, window: real, now: real)
    requires Sorted(times) && Remembers(kept, times, window, now)
    requires times != [] ==> times[|times| - 1] <= now
    ensures |Since(kept, now - window)| == Count(times, Within(now - window, now))
  {
    var dropped := times[..|times| - |kept|];
    assert times == dropped + kept;
    CountAppend(dropped, kept, Within(now - window, now));
    CountZero(dropped, Within(now - window, now));
    SinceCounts(kept, now - window, now);
  }

  lemma EpisodeRetires(p: HealthPolicy, f: Fleet, d: DeviceId, now: real)
    requires d in f.reg.devices && StateOf(f, d) != Retired
    ensures IsRetired(RecoveryBegun(p, f, d, now), d)
            <==> |Since(HealthOf(f.mon, d).recoveryTimes, now - p.window)| >= p.retireAfter
    ensures
      var g := RecoveryBegun(p, f, d, now);
      d in g.reg.devices
      && (!IsRetired(g, d) ==>
          StateOf(g, d) == if f.reg.devices[d].transport in ADB_TRANSPORTS then StateOf(f, d) else Online)
  {
  }

  /** The pruned list has the length of the published window. */
  lemma BreakerReadsHistory(p: HealthPolicy, f: Fleet, d: DeviceId, now: real)
    requires FleetValid(p, f, now)
    ensures |Since(HealthOf(f.mon, d).recoveryTimes, now - p.window)|
            == Count(f.mon.log, AdbRecovery(d, now - p.window, now))
  {
    var l := Locally(f, d);
    assert LocalValid(p, l, now);
    CountOwnTimes(f.mon.log, d, now - p.window, now);
    RememberedCounts(l.health.recoveryTimes, RecTimes(l.log), p.window, now);
  }

  lemma RecoveryIsNotRetired(p: HealthPolicy, f: Fleet, d: DeviceId, now: real)
    requires FleetValid(p, f, now) && d in f.mon.recoveries
    ensures d in f.reg.devices && StateOf(f, d) != Retired
  {
    assert LocalValid(p, Locally(f, d), now);
  }

  /** What the start of a recovery makes of its device. */
  ghost predicate EpisodeVerdict(p: HealthPolicy, f: Fleet, g: Fleet, d: DeviceId, now: real) {
    && d in f.reg.devices && d in g.reg.devices
    && (IsRetired(g, d) <==> Count(f.mon.log, AdbRecovery(d, now - p.window, now)) >= p.retireAfter)
    && (!IsRetired(g, d) ==>
          StateOf(g, d) == if f.reg.devices[d].transport in ADB_TRANSPORTS then StateOf(f, d) else Online)
  }

  lemma EpisodeReadsHistory(p: HealthPolicy, f: Fleet, d: DeviceId, now: real)
    requires FleetValid(p, f, now) && d in f.mon.recoveries
    ensures d in f.reg.devices && EpisodeVerdict(p, f, RecoveryBegun(p, f, d, now), d, now)
  {
    BreakerReadsHistory(p, f, d, now);
    RecoveryIsNotRetired(p, f, d, now);
    EpisodeRetires(p, f, d, now);
  }

  /** A recovery that starts retires the device exactly when the published history shows
      `retireAfter` adb recoveries in the window that ends now. Otherwise a device adb cannot
      reach is back at once, and any other stays as it is until its reconnect. */
  lemma FlappingIsRetired(p: Policy, trace: seq<Kernel>, steps: seq<Step>, n: nat, d: DeviceId)
    requires IsRun(p, trace, steps) && n < |steps| && steps[n] == RecoveryStart(d)
    ensures EpisodeVerdict(p.health, trace[n].fleet, trace[n + 1].fleet, d, trace[n].now)
  {
    RunValid(p, trace, steps, n);
    assert Enabled(p, trace[n], RecoveryStart(d));
    EpisodeReadsHistory(p.health, trace[n].fleet, d, trace[n].now);
    assert trace[n + 1].fleet == RecoveryBegun(p.health, trace[n].fleet, d, trace[n].now);
  }

  // ---------- backoff ----------

  /** Within one outage the failures are numbered upwards, and each comes no earlier than any
      earlier one plus all the delays in between. */
  lemma FailuresBackOff(p: Policy, trace: seq<Kernel>, steps: seq<Step>, n: nat, d: DeviceId, i: nat, j: nat)
    requires IsRun(p, trace, steps) && n < |trace|
    requires
      var log := LogOf(trace[n].fleet.mon.log, d);
      && i < j < |log| && IsFailed(log[i]) && IsFailed(log[j])
      && forall m | i < m < j :: !IsRestored(log[m])
    ensures
      var log := LogOf(trace[n].fleet.mon.log, d);
      var (a, b) := (log[i].notice.episode, log[j].notice.episode);
      1 <= a < b && log[j].time - log[i].time >= SumDelay(p.health, a, b)
    ensures
      var e := LogOf(trace[n].fleet.mon.log, d)[i];
      e.notice.delay == Delay(p.health, e.notice.episode)
  {
    RunValid(p, trace, steps, n);
    assert LocalValid(p.health, Locally(trace[n].fleet, d), trace[n].now);
    assert NoRestoreAfter(LogOf(trace[n].fleet.mon.log, d), i, j);
  }

  lemma {:induction false} DelayGrows(p: HealthPolicy, k: nat)
    requires p.backoffBase >= 0.0 && k >= 1
    ensures Delay(p, k) <= Delay(p, k + 1)
    ensures 0.0 <= Doubled(p.backoffBase, k - 1)
  {
    if k > 1 {
      DelayGrows(p, k - 1);
    }
  }

  /** Delays never shrink, so an outage of a given length publishes few failures. */
  lemma {:induction false} DelaysGrow(p: HealthPolicy, a: nat, b: nat)
    requires p.backoffBase >= 0.0 && 1 <= a <= b
    ensures Delay(p, a) <= Delay(p, b)
    ensures SumDelay(p, a, b) >= (b - a) as real * Delay(p, a)
    decreases b
  {
    if a < b {
      DelaysGrow(p, a, b - 1);
      DelayGrows(p, b - 1);
      assert (b - a) as real * Delay(p, a) == (b - 1 - a) as real * Delay(p, a) + Delay(p, a);
    }
  }

  // ---------- an expired recovery says nothing ----------

  predicate RecoveryStep(step: Step) {
    step.RecoveryStart? || step.ReconnectEnd? || step.RecoveryProbeEnd? || step.RecoveryWake?
  }

  /** The three ways a recovery speaks without a look at its device's state: a reconnect and
      probe that have just succeeded, a virtual slot, and a circuit breaker that is full. */
  ghost predicate SpeaksUnasked(p: Policy, k: Kernel, step: Step) {
    || (step.RecoveryProbeEnd? && step.result.Alive?)
    || (step.RecoveryStart? && step.d in k.fleet.reg.devices
        && (k.fleet.reg.devices[step.d].transport !in ADB_TRANSPORTS
            || Count(k.fleet.mon.log, AdbRecovery(step.d, k.now - p.health.window, k.now)) >= p.health.retireAfter))
  }

  /** No verdict, no event, and of the health of anyone nothing but what d's has become. */
  ghost predicate Unjudged(f: Fleet, g: Fleet, d: DeviceId, h: DeviceHealth) {
    && g.reg == f.reg && g.mon.log == f.mon.log
    && forall x :: HealthOf(g.mon, x) == if x == d then h else HealthOf(f.mon, x)
  }

  /** The start of a recovery forgets old times; its other steps leave the health alone. */
  function HealthAfter(p: Policy, k: Kernel, step: Step): DeviceHealth
    requires RecoveryStep(step)
  {
    var h := HealthOf(k.fleet.mon, step.d);
    if step.RecoveryStart? then Pruned(p.health, h, k.now) else h
  }

  /** The start of a recovery, by what the pruned list of times says. */
  lemma StartSpeaks(p: HealthPolicy, f: Fleet, d: DeviceId, now: real)
    requires d in f.reg.devices && StateOf(f, d) != Quarantined
    ensures
      var g := RecoveryBegun(p, f, d, now);
      var full := |Since(HealthOf(f.mon, d).recoveryTimes, now - p.window)| >= p.retireAfter;
      && (|g.mon.log| == |f.mon.log| <==> !full && f.reg.devices[d].transport in ADB_TRANSPORTS)
      && (|g.mon.log| == |f.mon.log| ==> Unjudged(f, g, d, Pruned(p, HealthOf(f.mon, d), now)))
  {
  }

  /** Past its start, a recovery whose device is not quarantined speaks only on success. */
  lemma LaterSpeaks(p: Policy, k: Kernel, step: Step)
    requires Enabled(p, k, step) && RecoveryStep(step) && !step.RecoveryStart?
    requires StateOf(k.fleet, step.d) != Quarantined
    ensures
      var g := Apply(p, k, step).fleet;
      if step.RecoveryProbeEnd? && step.result.Alive? then |g.mon.log| == |k.fleet.mon.log| + 1
      else Unjudged(k.fleet, g, step.d, HealthOf(k.fleet.mon, step.d))
  {
  }

  lemma ExpiredStepIsSilent(p: Policy, k: Kernel, step: Step)
    requires KernelValid(p, k) && Enabled(p, k, step) && RecoveryStep(step)
    requires StateOf(k.fleet, step.d) != Quarantined
    ensures
      var g := Apply(p, k, step).fleet;
      && (|g.mon.log| == |k.fleet.mon.log| <==> !SpeaksUnasked(p, k, step))
      && (!SpeaksUnasked(p, k, step) ==> Unjudged(k.fleet, g, step.d, HealthAfter(p, k, step)))
  {
    if step.RecoveryStart? {
      BreakerReadsHistory(p.health, k.fleet, step.d, k.now);
      StartSpeaks(p.health, k.fleet, step.d, k.now);
    } else {
      LaterSpeaks(p, k, step);
    }
  }

  /** In every run, a recovery step of a device that is no longer quarantined publishes nothing
      and judges nobody, with exactly three exceptions. */
  lemma ExpiredRecoveryIsSilent(p: Policy, trace: seq<Kernel>, steps: seq<Step>, n: nat)
    requires IsRun(p, trace, steps) && n < |steps| && RecoveryStep(steps[n])
    ensures steps[n].d in trace[n].fleet.reg.devices
    ensures StateOf(trace[n].fleet, steps[n].d) != Quarantined ==>
              var (f, g) := (trace[n].fleet, trace[n + 1].fleet);
              && (|g.mon.log| == |f.mon.log| <==> !SpeaksUnasked(p, trace[n], steps[n]))
              && (!SpeaksUnasked(p, trace[n], steps[n]) ==>
                    Unjudged(f, g, steps[n].d, HealthAfter(p, trace[n], steps[n])))
  {
    RunValid(p, trace, steps, n);
    if StateOf(trace[n].fleet, steps[n].d) != Quarantined {
      ExpiredStepIsSilent(p, trace[n], steps[n]);
    }
  }
}
