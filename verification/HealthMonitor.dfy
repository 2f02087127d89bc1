/** The health monitor as the object it is. Each method is what one of its coroutines does
    between two suspensions, on the monitor's own tables and the registry and session manager
    it was given. */
module HealthMonitors {
  import opened Tasks
  import opened Devices
  import opened DeviceRegistries
  import opened Health
  import Sessions

  class HealthMonitor {
    const registry: DeviceRegistry
    const sessions: Sessions.SessionManager
    const policy: HealthPolicy
    var health: map<DeviceId, DeviceHealth>
    var recoveries: map<DeviceId, Recovery>
    var sweep: map<DeviceId, Check>
    ghost var log: seq<Event>

    ghost function View(): Fleet
      reads this, registry
    {
      Fleet(registry.View(), Monitor(health, recoveries, sweep, log))
    }

    constructor (registry: DeviceRegistry, sessions: Sessions.SessionManager, policy: HealthPolicy)
      ensures this.registry == registry && this.sessions == sessions && this.policy == policy
      ensures View() == Fleet(registry.View(), EMPTY_MONITOR)
    {
      this.registry, this.sessions, this.policy := registry, sessions, policy;
      health, recoveries, sweep, log := map[], map[], map[], [];
    }

    function HealthFor(d: DeviceId): DeviceHealth
      reads this
    {
      if d in health then health[d] else HEALTHY
    }

    /** The cached sessions of a device go when its quarantine or retirement is published, and
        with no other event. */
    ghost predicate SessionsFollow(was: Sessions.Manager, before: seq<Event>)
      reads this, sessions
    {
      var pulled := |log| > |before|
                    && (log[|before|].notice.DeviceQuarantined? || log[|before|].notice.DeviceRetired?);
      sessions.View() == if pulled then Sessions.Invalidated(was, log[|before|].device, None) else was
    }

    method MarkQuarantined(d: DeviceId, ghost now: real)
      modifies this`log, registry, sessions`sessions
      ensures View() == Judged(old(View()), d, Quarantined, DeviceQuarantined, now)
      ensures sessions.View() == Sessions.Invalidated(old(sessions.View()), d, None)
    {
      registry.SetState(d, Quarantined);
      sessions.Invalidate(d, None);
      log := log + [Event(now, d, DeviceQuarantined)];
    }

    method SpawnRecovery(d: DeviceId, now: real)
      modifies this`recoveries
      ensures View() == Health.SpawnRecovery(old(View()), d, now)
    {
      if d in recoveries {
        return;
      }
      if now < HealthFor(d).nextRecoveryAt {
        return;
      }
      recoveries := recoveries[d := Spawned];
    }

    method Quarantine(d: DeviceId, now: real)
      modifies this`log, this`recoveries, registry, sessions`sessions
      ensures View() == Health.Quarantine(old(View()), d, now)
      ensures sessions.View() == Sessions.Invalidated(old(sessions.View()), d, None)
    {
      MarkQuarantined(d, now);
      if d !in registry.devices {
        return;
      }
      SpawnRecovery(d, now);
    }

    method Restore(d: DeviceId, ghost reason: RestoreReason, ghost now: real)
      modifies this`log, this`health, registry
      ensures View() == Health.Restore(old(View()), d, reason, now)
    {
      health := health[d := HealthFor(d).(failedRecoveries := 0, nextRecoveryAt := 0.0)];
      registry.SetState(d, Online);
      log := log + [Event(now, d, DeviceRestored(reason))];
    }

    method Retire(d: DeviceId, ghost now: real)
      modifies this`log, registry, sessions`sessions
      ensures View() == Health.Retire(old(View()), d, now)
      ensures sessions.View() == Sessions.Invalidated(old(sessions.View()), d, None)
    {
      registry.SetState(d, Retired);
      sessions.Invalidate(d, None);
      log := log + [Event(now, d, DeviceRetired)];
    }

    // ---------- the sweep ----------

    method SweepBegin()
      modifies this`sweep
      ensures View() == SweepBegun(old(View()))
    {
      var devices := registry.devices;
      sweep := map d | d in devices && devices[d].state in {Online, Quarantined} :: Due;
    }

    method CheckBegin(d: DeviceId)
      modifies this`sweep
      ensures View() == CheckBegun(old(View()), d)
    {
      if d in registry.leases {
        sweep := sweep - {d};
        return;
      }
      sweep := sweep[d := CheckProbing];
    }

    /** The rest of a check, once its probe has an answer. */
    method CheckEnd(d: DeviceId, result: Probe, now: real)
      requires d in registry.devices
      modifies this, registry, sessions`sessions
      ensures View() == CheckDone(policy, old(View()), d, result, now)
      ensures SessionsFollow(old(sessions.View()), old(log))
    {
      sweep := sweep - {d};
      match result
      case Raised =>
      case Alive =>
        health := health[d := HealthFor(d).(consecutiveFailures := 0)];
        if registry.devices[d].state == Quarantined {
          Restore(d, ProbeRecovered, now);
        }
      case Dead =>
        health := health[d := HealthFor(d).(consecutiveFailures := HealthFor(d).consecutiveFailures + 1)];
        if registry.devices[d].state == Online && health[d].consecutiveFailures >= policy.failuresToQuarantine {
          Quarantine(d, now);
        } else if registry.devices[d].state == Quarantined {
          SpawnRecovery(d, now);
        }
    }

    // ---------- the recovery ----------

    /** How many recoveries fall into the window; the others are forgotten on the way. */
    method RecentRecoveries(d: DeviceId, now: real) returns (n: nat)
      modifies this`health
      ensures View() == WithHealth(old(View()), d, Pruned(policy, HealthOf(old(View()).mon, d), now))
      ensures n == |HealthFor(d).recoveryTimes|
    {
      var times := HealthFor(d).recoveryTimes;
      var cutoff := now - policy.window;
      var kept: seq<real> := [];
      var i := 0;
      while i < |times|
        invariant 0 <= i <= |times|
        invariant Since(times, cutoff) == kept + Since(times[i..], cutoff)
      {
        assert times[i..][1..] == times[i + 1..];
        if times[i] >= cutoff {
          kept := kept + [times[i]];
        }
        i := i + 1;
      }
      assert kept == kept + Since([], cutoff) == Since(times, cutoff);
      health := health[d := HealthFor(d).(recoveryTimes := kept)];
      n := |kept|;
    }

    method Finish(d: DeviceId)
      modifies this`recoveries
      ensures View() == RecoveryOver(old(View()), d)
    {
      recoveries := recoveries - {d};
    }

    method RecoveryBegin(d: DeviceId, now: real)
      requires d in registry.devices
      modifies this, registry, sessions`sessions
      ensures View() == RecoveryBegun(policy, old(View()), d, now)
      ensures SessionsFollow(old(sessions.View()), old(log))
    {
      var recent := RecentRecoveries(d, now);
      if recent >= policy.retireAfter {
        Retire(d, now);
        Finish(d);
      } else if registry.devices[d].transport !in ADB_TRANSPORTS {
        Restore(d, VirtualSlot, now);
        Finish(d);
      } else {
        AttemptBegin(d, 1, now);
      }
    }

    /** Head of the attempt loop, and what follows its last round. */
    method AttemptBegin(d: DeviceId, attempt: nat, now: real)
      requires d in registry.devices
      modifies this`health, this`recoveries, this`log
      ensures View() == AttemptBegun(policy, old(View()), d, attempt, now)
      ensures SessionsFollow(old(sessions.View()), old(log))
    {
      if registry.devices[d].state != Quarantined {
        Finish(d);
      } else if attempt <= policy.recoveryAttempts {
        recoveries := recoveries[d := Reconnecting(attempt)];
      } else {
        var episode := HealthFor(d).failedRecoveries + 1;
        var delay := Delay(policy, episode);
        health := health[d := HealthFor(d).(failedRecoveries := episode, nextRecoveryAt := now + delay)];
        log := log + [Event(now, d, RecoveryFailed(episode, delay))];
        Finish(d);
      }
    }

    method AttemptFail(d: DeviceId, attempt: nat, now: real)
      requires d in registry.devices
      modifies this`health, this`recoveries, this`log
      ensures View() == AttemptFailed(policy, old(View()), d, attempt, now)
      ensures SessionsFollow(old(sessions.View()), old(log))
    {
      if attempt < policy.recoveryAttempts {
        recoveries := recoveries[d := Sleeping(attempt, now + Pause(attempt))];
      } else {
        AttemptBegin(d, attempt + 1, now);
      }
    }

    method ReconnectEnd(d: DeviceId, attempt: nat, result: Probe, now: real)
      requires d in registry.devices
      modifies this`health, this`recoveries, this`log
      ensures View() == ReconnectDone(policy, old(View()), d, attempt, result, now)
      ensures SessionsFollow(old(sessions.View()), old(log))
    {
      match result
      case Raised => Finish(d);
      case Alive => recoveries := recoveries[d := Probing(attempt)];
      case Dead => AttemptFail(d, attempt, now);
    }

    /** The probe after a reconnect: on success the recovery is booked and the device is back. */
    method RecoveryProbeEnd(d: DeviceId, attempt: nat, result: Probe, now: real)
      requires d in registry.devices
      modifies this, registry
      ensures View() == RecoveryProbed(policy, old(View()), d, attempt, result, now)
      ensures SessionsFollow(old(sessions.View()), old(log))
    {
      match result
      case Raised => Finish(d);
      case Alive =>
        var h := HealthFor(d);
        health := health[d := h.(recoveryTimes := h.recoveryTimes + [now], consecutiveFailures := 0)];
        var device := registry.devices[d];
        registry.devices := registry.devices[d := device.(recoveries := device.recoveries + 1)];
        assert View() == Booked(old(View()), d, now);
        Restore(d, AdbReconnect, now);
        Finish(d);
      case Dead => AttemptFail(d, attempt, now);
    }
  }
}
