/** Every transition of the health monitor keeps the invariant of the device it acts on. */
module HealthProofs {
  import opened Tasks
  import opened Devices
  import opened Health
  import opened DeviceHistory

  // ---------- the filter behind recent_recoveries ----------

  lemma {:induction false} SinceIsSuffix(times: seq<real>, cutoff: real)
    requires Sorted(times)
    ensures |Since(times, cutoff)| <= |times|
    ensures Since(times, cutoff) == times[|times| - |Since(times, cutoff)|..]
    ensures forall i | 0 <= i < |times| - |Since(times, cutoff)| :: times[i] < cutoff
    ensures forall t | t in Since(times, cutoff) :: t >= cutoff
  {
    if times != [] {
      SinceIsSuffix(times[1..], cutoff);
      if times[0] >= cutoff && |Since(times[1..], cutoff)| < |times| - 1 {
        assert times[1] < cutoff by { assert times[1..][0] < cutoff; }
      }
    }
  }

  /** Forgetting old recoveries loses nothing the window still needs. */
  lemma PruneRemembers(kept: seq<real>, times: seq<real>, window: real, now: real)
    requires Sorted(times) && Remembers(kept, times, window, now)
    ensures Remembers(Since(kept, now - window), times, window, now)
  {
    SinceIsSuffix(kept, now - window);
    var recent := Since(kept, now - window);
    var dropped := |times| - |kept|;
    forall i | 0 <= i < |times| - |recent| ensures times[i] < now - window {
      if i >= dropped {
        assert kept[i - dropped] == times[i];
      }
    }
  }

  lemma SuffixCounts(recent: seq<real>, times: seq<real>, limit: nat, window: real, now: real)
    requires Remembers(recent, times, window, now) && forall t | t in recent :: t >= now - window
    ensures |recent| < limit <==> Slack(times, limit, window, now)
  {
    if |recent| >= limit >= 1 {
      assert times[|times| - limit] == recent[|recent| - limit];
      assert recent[|recent| - limit] in recent;
    }
  }

  /** The count the circuit breaker sees decides whether there is room for one more. */
  lemma BreakerCounts(kept: seq<real>, times: seq<real>, limit: nat, window: real, now: real)
    requires Sorted(times) && Remembers(kept, times, window, now)
    ensures |Since(kept, now - window)| < limit <==> Slack(times, limit, window, now)
  {
    PruneRemembers(kept, times, window, now);
    SinceIsSuffix(kept, now - window);
    SuffixCounts(Since(kept, now - window), times, limit, window, now);
  }

  // ---------- local transitions ----------

  function Marked(l: Local, state: DeviceState, notice: Notice, now: real, d: DeviceId): Local
    requires l.dev.Some?
  {
    l.(dev := Some(l.dev.value.(state := state)), log := l.log + [Event(now, d, notice)])
  }

  lemma WindowLater(p: HealthPolicy, l: Local, now: real, later: real)
    requires WindowValid(p, l, now) && now <= later
    ensures WindowValid(p, l, later)
  {
    var times := RecTimes(l.log);
    assert Remembers(l.health.recoveryTimes, times, p.window, later);
    assert Slack(times, p.retireAfter, p.window, now) ==> Slack(times, p.retireAfter, p.window, later);
  }

  /** Nothing but an adb recovery touches the window. */
  lemma WindowUntouched(p: HealthPolicy, l: Local, l': Local, now: real)
    requires WindowValid(p, l, now)
    requires RecTimes(l'.log) == RecTimes(l.log) && l'.health.recoveryTimes == l.health.recoveryTimes
    requires l'.recovery == l.recovery || l'.recovery.None? || l'.recovery.value.Spawned?
    ensures WindowValid(p, l', now)
  {
  }

  /** A verdict is published with the state it announces. */
  lemma StandingMarked(l: Local, state: DeviceState, notice: Notice, now: real, d: DeviceId)
    requires StandingValid(l) && !notice.RecoveryFailed? && notice != DeviceRestored(AdbReconnect)
    requires Published([Event(now, d, notice)], InPool) == StandingOf(state)
    ensures StandingValid(Marked(l, state, notice, now, d))
    ensures RecTimes(Marked(l, state, notice, now, d).log) == RecTimes(l.log)
  {
    LogGrows(l.log, Event(now, d, notice), StandingOf(l.born.value.state));
  }

  lemma OutageMarked(p: HealthPolicy, l: Local, state: DeviceState, notice: Notice, now: real, d: DeviceId)
    requires OutageValid(p, l, now) && l.dev.Some? && !notice.RecoveryFailed? && !notice.DeviceRestored?
    ensures OutageValid(p, Marked(l, state, notice, now, d), now)
  {
    var e := Event(now, d, notice);
    PacedGrows(p, l.log, e);
    CoversGrows(p, l, e);
  }

  lemma QuarantinedLocally(p: HealthPolicy, l: Local, now: real, d: DeviceId)
    requires LocalValid(p, l, now) && l.dev.Some? && l.dev.value.state != Retired
    ensures LocalValid(p, Marked(l, Quarantined, DeviceQuarantined, now, d), now)
  {
    StandingMarked(l, Quarantined, DeviceQuarantined, now, d);
    OutageMarked(p, l, Quarantined, DeviceQuarantined, now, d);
    WindowUntouched(p, l, Marked(l, Quarantined, DeviceQuarantined, now, d), now);
  }

  lemma CoversGrows(p: HealthPolicy, l: Local, e: Event)
    requires BackoffCovers(p, l.log, l.health) && !IsFailed(e)
    ensures BackoffCovers(p, l.log + [e], l.health)
  {
    var log := l.log + [e];
    forall i | 0 <= i < |log| && IsFailed(log[i]) && NoRestoreAfter(log, i, |log|)
      ensures i < |l.log| && log[i] == l.log[i] && NoRestoreAfter(l.log, i, |l.log|)
    {
      assert forall m | 0 <= m < |l.log| :: log[m] == l.log[m];
    }
  }

  function Cleared(h: DeviceHealth): DeviceHealth {
    h.(failedRecoveries := 0, nextRecoveryAt := 0.0)
  }

  lemma RestoredOutage(p: HealthPolicy, l: Local, e: Event, h: DeviceHealth)
    requires Paced(p, l.log) && IsRestored(e) && h.failedRecoveries == 0 && h.nextRecoveryAt == 0.0
    ensures Paced(p, l.log + [e]) && BackoffCovers(p, l.log + [e], h)
  {
    PacedGrows(p, l.log, e);
    var log := l.log + [e];
    forall i | 0 <= i < |log| && IsFailed(log[i]) ensures !NoRestoreAfter(log, i, |log|) {
      assert IsRestored(log[|l.log|]);
    }
  }

  lemma RestoredLocally(p: HealthPolicy, l: Local, reason: RestoreReason, now: real, d: DeviceId)
    requires LocalValid(p, l, now) && l.dev.Some? && reason != AdbReconnect && now >= 0.0
    ensures
      var l' := Marked(l, Online, DeviceRestored(reason), now, d).(health := Cleared(l.health));
      StandingValid(l') && WindowValid(p, l', now) && OutageValid(p, l', now)
  {
    var e := Event(now, d, DeviceRestored(reason));
    StandingMarked(l, Online, e.notice, now, d);
    RestoredOutage(p, l, e, Cleared(l.health));
    WindowUntouched(p, l, Marked(l, Online, e.notice, now, d).(health := Cleared(l.health)), now);
  }

  lemma RetiredLocally(p: HealthPolicy, l: Local, now: real, d: DeviceId)
    requires LocalValid(p, l, now) && l.dev.Some?
    ensures LocalValid(p, Marked(l, Retired, DeviceRetired, now, d).(recovery := None), now)
  {
    StandingMarked(l, Retired, DeviceRetired, now, d);
    OutageMarked(p, l, Retired, DeviceRetired, now, d);
    WindowUntouched(p, l, Marked(l, Retired, DeviceRetired, now, d).(recovery := None), now);
  }

  lemma SpreadGrows(times: seq<real>, limit: nat, window: real, now: real)
    requires Spread(times, limit, window) && Slack(times, limit, window, now)
    ensures Spread(times + [now], limit, window)
  {
    var grown := times + [now];
    forall i, j | 0 <= i && j == i + limit && j < |grown| ensures grown[j] - grown[i] > window {
      if j == |times| {
        assert times[|times| - limit] < now - window;
      }
    }
  }

  function RecoveredOnce(l: Local, now: real, d: DeviceId): Local
    requires l.dev.Some?
  {
    var h := Cleared(l.health).(recoveryTimes := l.health.recoveryTimes + [now], consecutiveFailures := 0);
    var dev := l.dev.value.(recoveries := l.dev.value.recoveries + 1);
    Marked(l.(dev := Some(dev)), Online, DeviceRestored(AdbReconnect), now, d).(health := h, recovery := None)
  }

  lemma RecoveredStanding(l: Local, now: real, d: DeviceId)
    requires StandingValid(l)
    ensures StandingValid(RecoveredOnce(l, now, d))
    ensures RecTimes(RecoveredOnce(l, now, d).log) == RecTimes(l.log) + [now]
  {
    LogGrows(l.log, Event(now, d, DeviceRestored(AdbReconnect)), StandingOf(l.born.value.state));
  }

  lemma RecoveredWindow(p: HealthPolicy, l: Local, l': Local, now: real)
    requires PolicyValid(p) && WindowValid(p, l, now)
    requires l.recovery.Some? && !l.recovery.value.Spawned?
    requires RecTimes(l'.log) == RecTimes(l.log) + [now] && l'.recovery.None?
    requires l'.health.recoveryTimes == l.health.recoveryTimes + [now]
    ensures WindowValid(p, l', now)
  {
    SpreadGrows(RecTimes(l.log), p.retireAfter, p.window, now);
  }

  lemma RecoveredLocally(p: HealthPolicy, l: Local, now: real, d: DeviceId)
    requires PolicyValid(p) && LocalValid(p, l, now) && now >= 0.0
    requires l.recovery.Some? && !l.recovery.value.Spawned?
    ensures LocalValid(p, RecoveredOnce(l, now, d), now)
  {
    var l' := RecoveredOnce(l, now, d);
    RecoveredStanding(l, now, d);
    RecoveredWindow(p, l, l', now);
    RestoredOutage(p, l, Event(now, d, DeviceRestored(AdbReconnect)), l'.health);
  }

  lemma FailedCovers(p: HealthPolicy, l: Local, now: real, d: DeviceId)
    requires BackoffCovers(p, l.log, l.health) && now >= l.health.nextRecoveryAt
    ensures
      var k := l.health.failedRecoveries + 1;
      BackoffCovers(p, l.log + [Event(now, d, RecoveryFailed(k, Delay(p, k)))],
                    l.health.(failedRecoveries := k, nextRecoveryAt := now + Delay(p, k)))
  {
    var k := l.health.failedRecoveries + 1;
    var e := Event(now, d, RecoveryFailed(k, Delay(p, k)));
    var log := l.log + [e];
    assert SumDelay(p, k, k + 1) == Delay(p, k);
    forall i | 0 <= i < |l.log| && IsFailed(log[i]) && NoRestoreAfter(log, i, |log|)
      ensures 1 <= log[i].notice.episode <= k
      ensures log[i].time + SumDelay(p, log[i].notice.episode, k + 1) <= now + Delay(p, k)
    {
      assert forall m | 0 <= m < |l.log| :: log[m] == l.log[m];
      assert NoRestoreAfter(l.log, i, |l.log|);
    }
  }

  lemma FailedPaced(p: HealthPolicy, l: Local, now: real, d: DeviceId)
    requires Paced(p, l.log) && BackoffCovers(p, l.log, l.health) && now >= l.health.nextRecoveryAt
    ensures
      var k := l.health.failedRecoveries + 1;
      Paced(p, l.log + [Event(now, d, RecoveryFailed(k, Delay(p, k)))])
  {
    var k := l.health.failedRecoveries + 1;
    var e := Event(now, d, RecoveryFailed(k, Delay(p, k)));
    var log := l.log + [e];
    forall i, j | 0 <= i < j < |log| && IsFailed(log[i]) && IsFailed(log[j]) && NoRestoreAfter(log, i, j)
      ensures log[i].notice.episode < log[j].notice.episode
      ensures log[j].time >= log[i].time + SumDelay(p, log[i].notice.episode, log[j].notice.episode)
    {
      NoRestoreGrows(l.log, e, i, j);
      assert log[i] == l.log[i];
      if j < |l.log| {
        assert log[j] == l.log[j];
      }
    }
  }

  function FailedOnce(p: HealthPolicy, l: Local, now: real, d: DeviceId): Local {
    var k := l.health.failedRecoveries + 1;
    l.(log := l.log + [Event(now, d, RecoveryFailed(k, Delay(p, k)))],
    health := l.health.(failedRecoveries := k, nextRecoveryAt := now + Delay(p, k)),
    recovery := None)
  }

  lemma FailedStanding(p: HealthPolicy, l: Local, now: real, d: DeviceId)
    requires StandingValid(l) && l.dev.value.state == Quarantined
    ensures StandingValid(FailedOnce(p, l, now, d)) && RecTimes(FailedOnce(p, l, now, d).log) == RecTimes(l.log)
  {
    var k := l.health.failedRecoveries + 1;
    LogGrows(l.log, Event(now, d, RecoveryFailed(k, Delay(p, k))), StandingOf(l.born.value.state));
  }

  lemma FailedOutage(p: HealthPolicy, l: Local, now: real, d: DeviceId)
    requires OutageValid(p, l, now) && now >= l.health.nextRecoveryAt
    ensures OutageValid(p, FailedOnce(p, l, now, d), now)
  {
    FailedCovers(p, l, now, d);
    FailedPaced(p, l, now, d);
  }

  lemma FailedLocally(p: HealthPolicy, l: Local, now: real, d: DeviceId)
    requires LocalValid(p, l, now) && l.recovery.Some? && l.dev.value.state == Quarantined
    ensures LocalValid(p, FailedOnce(p, l, now, d), now)
  {
    FailedStanding(p, l, now, d);
    FailedOutage(p, l, now, d);
    WindowUntouched(p, l, FailedOnce(p, l, now, d), now);
  }
}
