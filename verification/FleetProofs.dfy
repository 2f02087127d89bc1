/** Every transition of registry and monitor keeps the invariant of every device. */
module FleetProofs {
  import opened Tasks
  import opened Devices
  import opened Health
  import opened DeviceHistory
  import opened HealthProofs
  import opened FleetEffects

  ghost predicate FleetValid(p: HealthPolicy, f: Fleet, now: real) {
    && PolicyValid(p) && now >= 0.0
    && forall d :: LocalValid(p, Locally(f, d), now)
  }

  /** Whom a step is not about, it leaves valid. */
  lemma OthersValid(p: HealthPolicy, f: Fleet, g: Fleet, d: DeviceId, now: real)
    requires FleetValid(p, f, now) && OnlyAbout(f, g, d)
    ensures forall x | x != d :: LocalValid(p, Locally(g, x), now)
  {
    forall x | x != d ensures LocalValid(p, Locally(g, x), now) {
      assert LocalValid(p, Locally(f, x), now);
    }
  }

  // ---------- steps that publish nothing ----------

  lemma OutageUntouched(p: HealthPolicy, l: Local, l': Local, now: real)
    requires OutageValid(p, l, now) && l'.log == l.log
    requires l'.health.failedRecoveries == l.health.failedRecoveries
    requires l'.health.nextRecoveryAt == l.health.nextRecoveryAt
    requires l'.recovery.Some? ==> l.recovery.Some? || now >= l.health.nextRecoveryAt
    ensures OutageValid(p, l', now)
  {
  }

  /** Nothing published, nothing forgotten: the past still vouches for the device. */
  lemma SideStep(p: HealthPolicy, l: Local, l': Local, now: real)
    requires LocalValid(p, l, now) && l.dev.Some?
    requires l'.dev == l.dev && l'.born == l.born && l'.log == l.log
    requires l'.health.recoveryTimes == l.health.recoveryTimes
    requires l'.health.failedRecoveries == l.health.failedRecoveries
    requires l'.health.nextRecoveryAt == l.health.nextRecoveryAt
    requires l'.recovery.Some? ==>
               l.recovery.Some? || (now >= l.health.nextRecoveryAt && l.dev.value.state != Retired)
    requires l'.recovery.Some? && !l'.recovery.value.Spawned? ==> Slack(RecTimes(l.log), p.retireAfter, p.window, now)
    ensures LocalValid(p, l', now)
  {
    OutageUntouched(p, l, l', now);
    assert WindowValid(p, l', now);
    assert StandingValid(l');
  }

  lemma PhaseValid(p: HealthPolicy, f: Fleet, d: DeviceId, phase: Recovery, now: real)
    requires FleetValid(p, f, now) && d in f.reg.devices && d in f.mon.recoveries
    requires Slack(RecTimes(LogOf(f.mon.log, d)), p.retireAfter, p.window, now)
    ensures FleetValid(p, WithRecovery(f, d, phase), now)
  {
    RecoveryEffect(f, d, phase);
    assert LocalValid(p, Locally(f, d), now);
    SideStep(p, Locally(f, d), Locally(f, d).(recovery := Some(phase)), now);
    OthersValid(p, f, WithRecovery(f, d, phase), d, now);
  }

  lemma OverValid(p: HealthPolicy, f: Fleet, d: DeviceId, now: real)
    requires FleetValid(p, f, now) && d in f.reg.devices
    ensures FleetValid(p, RecoveryOver(f, d), now)
  {
    OverEffect(f, d);
    assert LocalValid(p, Locally(f, d), now);
    SideStep(p, Locally(f, d), Locally(f, d).(recovery := None), now);
    OthersValid(p, f, RecoveryOver(f, d), d, now);
  }

  lemma CheckOverValid(p: HealthPolicy, f: Fleet, d: DeviceId, now: real)
    requires FleetValid(p, f, now) && d in f.reg.devices
    ensures FleetValid(p, CheckOver(f, d), now)
  {
    CheckEffect(f, d);
    assert LocalValid(p, Locally(f, d), now);
    SideStep(p, Locally(f, d), Locally(f, d).(swept := false), now);
    OthersValid(p, f, CheckOver(f, d), d, now);
  }

  lemma ProbeCountedValid(p: HealthPolicy, f: Fleet, d: DeviceId, failures: nat, now: real)
    requires FleetValid(p, f, now) && d in f.reg.devices
    ensures FleetValid(p, ProbeCounted(f, d, failures), now)
  {
    var l := Locally(f, d);
    ProbeCountedEffect(f, d, failures);
    assert LocalValid(p, l, now);
    SideStep(p, l, l.(swept := false, health := l.health.(consecutiveFailures := failures)), now);
    OthersValid(p, f, ProbeCounted(f, d, failures), d, now);
  }

  lemma SpawnValid(p: HealthPolicy, f: Fleet, d: DeviceId, now: real)
    requires FleetValid(p, f, now) && d in f.reg.devices && StateOf(f, d) != Retired
    ensures FleetValid(p, SpawnRecovery(f, d, now), now)
  {
    RecoveryEffect(f, d, Spawned);
    assert LocalValid(p, Locally(f, d), now);
    if SpawnRecovery(f, d, now) != f {
      SideStep(p, Locally(f, d), Locally(f, d).(recovery := Some(Spawned)), now);
      OthersValid(p, f, WithRecovery(f, d, Spawned), d, now);
    }
  }

  lemma PrunedLocally(p: HealthPolicy, l: Local, now: real)
    requires LocalValid(p, l, now) && l.dev.Some?
    ensures LocalValid(p, l.(health := Pruned(p, l.health, now)), now)
  {
    var l' := l.(health := Pruned(p, l.health, now));
    PruneRemembers(l.health.recoveryTimes, RecTimes(l.log), p.window, now);
    OutageUntouched(p, l, l', now);
    assert WindowValid(p, l', now);
  }

  /** The breaker's own count, taken after forgetting what left the window. */
  lemma PrunedValid(p: HealthPolicy, f: Fleet, d: DeviceId, now: real)
    requires FleetValid(p, f, now) && d in f.reg.devices
    ensures FleetValid(p, WithHealth(f, d, Pruned(p, HealthOf(f.mon, d), now)), now)
  {
    HealthEffect(f, d, Pruned(p, HealthOf(f.mon, d), now));
    assert LocalValid(p, Locally(f, d), now);
    PrunedLocally(p, Locally(f, d), now);
    OthersValid(p, f, WithHealth(f, d, Pruned(p, HealthOf(f.mon, d), now)), d, now);
  }

  lemma BreakerValid(p: HealthPolicy, f: Fleet, d: DeviceId, now: real)
    requires FleetValid(p, f, now)
    ensures |Since(HealthOf(f.mon, d).recoveryTimes, now - p.window)| < p.retireAfter
            <==> Slack(RecTimes(LogOf(f.mon.log, d)), p.retireAfter, p.window, now)
  {
    var l := Locally(f, d);
    assert LocalValid(p, l, now);
    BreakerCounts(l.health.recoveryTimes, RecTimes(l.log), p.retireAfter, p.window, now);
  }

  // ---------- steps that publish a verdict ----------

  lemma QuarantineValid(p: HealthPolicy, f: Fleet, d: DeviceId, now: real)
    requires FleetValid(p, f, now) && d in f.reg.devices && StateOf(f, d) != Retired
    ensures FleetValid(p, Quarantine(f, d, now), now)
  {
    var marked := Judged(f, d, Quarantined, DeviceQuarantined, now);
    JudgedEffect(f, d, Quarantined, DeviceQuarantined, now);
    assert LocalValid(p, Locally(f, d), now);
    QuarantinedLocally(p, Locally(f, d), now, d);
    OthersValid(p, f, marked, d, now);
    assert Locally(marked, d).dev.value.state == Quarantined;
    SpawnValid(p, marked, d, now);
  }

  lemma RestoreValid(p: HealthPolicy, f: Fleet, d: DeviceId, reason: RestoreReason, now: real)
    requires FleetValid(p, f, now) && d in f.reg.devices && reason != AdbReconnect
    ensures FleetValid(p, Restore(f, d, reason, now), now)
  {
    RestoreEffect(f, d, reason, now);
    assert LocalValid(p, Locally(f, d), now);
    RestoredLocally(p, Locally(f, d), reason, now, d);
    OthersValid(p, f, Restore(f, d, reason, now), d, now);
  }

  lemma RetireValid(p: HealthPolicy, f: Fleet, d: DeviceId, now: real)
    requires FleetValid(p, f, now) && d in f.reg.devices
    ensures FleetValid(p, RecoveryOver(Retire(f, d, now), d), now)
  {
    RetireEffect(f, d, now);
    assert LocalValid(p, Locally(f, d), now);
    RetiredLocally(p, Locally(f, d), now, d);
    OthersValid(p, f, RecoveryOver(Retire(f, d, now), d), d, now);
  }

  lemma ExhaustedValid(p: HealthPolicy, f: Fleet, d: DeviceId, now: real)
    requires FleetValid(p, f, now) && d in f.reg.devices
    requires d in f.mon.recoveries && StateOf(f, d) == Quarantined
    ensures FleetValid(p, Exhausted(p, f, d, now), now)
  {
    ExhaustedEffect(p, f, d, now);
    assert LocalValid(p, Locally(f, d), now);
    FailedLocally(p, Locally(f, d), now, d);
    OthersValid(p, f, Exhausted(p, f, d, now), d, now);
  }

  lemma RecoveredValid(p: HealthPolicy, f: Fleet, d: DeviceId, now: real)
    requires FleetValid(p, f, now) && d in f.reg.devices
    requires d in f.mon.recoveries && !f.mon.recoveries[d].Spawned?
    ensures FleetValid(p, Recovered(f, d, now), now)
  {
    RecoveredEffect(f, d, now);
    assert LocalValid(p, Locally(f, d), now);
    RecoveredLocally(p, Locally(f, d), now, d);
    OthersValid(p, f, Recovered(f, d, now), d, now);
  }

  // ---------- the sweep ----------

  lemma CheckDoneValid(p: HealthPolicy, f: Fleet, d: DeviceId, result: Probe, now: real)
    requires FleetValid(p, f, now) && d in f.reg.devices
    ensures FleetValid(p, CheckDone(p, f, d, result, now), now)
  {
    match result
    case Raised => CheckOverValid(p, f, d, now);
    case Alive =>
      ProbeCountedValid(p, f, d, 0, now);
      RestoreValid(p, ProbeCounted(f, d, 0), d, ProbeRecovered, now);
    case Dead =>
      var bad := ProbeCounted(f, d, HealthOf(f.mon, d).consecutiveFailures + 1);
      ProbeCountedValid(p, f, d, HealthOf(f.mon, d).consecutiveFailures + 1, now);
      if StateOf(bad, d) != Retired {
        QuarantineValid(p, bad, d, now);
        SpawnValid(p, bad, d, now);
      }
  }

  lemma SweepBegunValid(p: HealthPolicy, f: Fleet, now: real)
    requires FleetValid(p, f, now)
    requires forall d | d in f.mon.sweep :: d in f.reg.devices
    ensures FleetValid(p, SweepBegun(f), now)
  {
    var g := SweepBegun(f);
    forall x ensures LocalValid(p, Locally(g, x), now) {
      assert LocalValid(p, Locally(f, x), now);
      assert Locally(g, x) == Locally(f, x).(swept := x in g.mon.sweep);
      if x in f.reg.devices {
        SideStep(p, Locally(f, x), Locally(g, x), now);
      }
    }
  }

  lemma CheckBegunValid(p: HealthPolicy, f: Fleet, d: DeviceId, now: real)
    requires FleetValid(p, f, now) && d in f.mon.sweep
    ensures d in f.reg.devices && FleetValid(p, CheckBegun(f, d), now)
  {
    assert LocalValid(p, Locally(f, d), now);
    if d in f.reg.leases {
      CheckOverValid(p, f, d, now);
    } else {
      forall x ensures LocalValid(p, Locally(CheckBegun(f, d), x), now) {
        assert Locally(CheckBegun(f, d), x) == Locally(f, x);
      }
    }
  }

  // ---------- the recovery ----------

  lemma AttemptBegunValid(p: HealthPolicy, f: Fleet, d: DeviceId, attempt: nat, now: real)
    requires FleetValid(p, f, now) && d in f.reg.devices && d in f.mon.recoveries
    requires Slack(RecTimes(LogOf(f.mon.log, d)), p.retireAfter, p.window, now)
    ensures FleetValid(p, AttemptBegun(p, f, d, attempt, now), now)
  {
    if StateOf(f, d) != Quarantined {
      OverValid(p, f, d, now);
    } else if attempt <= p.recoveryAttempts {
      PhaseValid(p, f, d, Reconnecting(attempt), now);
    } else {
      ExhaustedValid(p, f, d, now);
    }
  }

  lemma RecoveryBegunValid(p: HealthPolicy, f: Fleet, d: DeviceId, now: real)
    requires FleetValid(p, f, now) && d in f.reg.devices && d in f.mon.recoveries
    ensures FleetValid(p, RecoveryBegun(p, f, d, now), now)
  {
    var g := WithHealth(f, d, Pruned(p, HealthOf(f.mon, d), now));
    PrunedValid(p, f, d, now);
    BreakerValid(p, f, d, now);
    if |HealthOf(g.mon, d).recoveryTimes| >= p.retireAfter {
      RetireValid(p, g, d, now);
    } else if f.reg.devices[d].transport !in ADB_TRANSPORTS {
      RestoreValid(p, g, d, VirtualSlot, now);
      OverValid(p, Restore(g, d, VirtualSlot, now), d, now);
    } else {
      AttemptBegunValid(p, g, d, 1, now);
    }
  }

  lemma PastFirstCheck(p: HealthPolicy, f: Fleet, d: DeviceId, now: real)
    requires FleetValid(p, f, now) && d in f.mon.recoveries && !f.mon.recoveries[d].Spawned?
    ensures d in f.reg.devices && StateOf(f, d) != Retired
    ensures Slack(RecTimes(LogOf(f.mon.log, d)), p.retireAfter, p.window, now)
  {
    assert LocalValid(p, Locally(f, d), now);
  }

  lemma AttemptFailedValid(p: HealthPolicy, f: Fleet, d: DeviceId, attempt: nat, now: real)
    requires FleetValid(p, f, now) && d in f.reg.devices
    requires d in f.mon.recoveries && !f.mon.recoveries[d].Spawned?
    ensures FleetValid(p, AttemptFailed(p, f, d, attempt, now), now)
  {
    PastFirstCheck(p, f, d, now);
    if attempt < p.recoveryAttempts {
      PhaseValid(p, f, d, Sleeping(attempt, now + Pause(attempt)), now);
    } else {
      AttemptBegunValid(p, f, d, attempt + 1, now);
    }
  }

  lemma ReconnectDoneValid(p: HealthPolicy, f: Fleet, d: DeviceId, attempt: nat, result: Probe, now: real)
    requires FleetValid(p, f, now) && d in f.reg.devices
    requires d in f.mon.recoveries && !f.mon.recoveries[d].Spawned?
    ensures FleetValid(p, ReconnectDone(p, f, d, attempt, result, now), now)
  {
    match result
    case Raised => OverValid(p, f, d, now);
    case Alive =>
      PastFirstCheck(p, f, d, now);
      PhaseValid(p, f, d, Probing(attempt), now);
    case Dead => AttemptFailedValid(p, f, d, attempt, now);
  }

  lemma RecoveryProbedValid(p: HealthPolicy, f: Fleet, d: DeviceId, attempt: nat, result: Probe, now: real)
    requires FleetValid(p, f, now) && d in f.reg.devices
    requires d in f.mon.recoveries && !f.mon.recoveries[d].Spawned?
    ensures FleetValid(p, RecoveryProbed(p, f, d, attempt, result, now), now)
  {
    match result
    case Raised => OverValid(p, f, d, now);
    case Alive => RecoveredValid(p, f, d, now);
    case Dead => AttemptFailedValid(p, f, d, attempt, now);
  }

  // ---------- the inventory and the clock ----------

  lemma RefreshedLocally(p: HealthPolicy, l: Local, found: Option<Device>, now: real)
    requires LocalValid(p, l, now) && l.dev.Some?
    requires found.Some? && Pulled(found.value.state) ==> Pulled(l.dev.value.state)
    ensures LocalValid(p, l.(dev := Some(if found.Some? then Merged(l.dev.value, found.value)
                                         else Vanished(l.dev.value))), now)
  {
    var l' := l.(dev := Some(if found.Some? then Merged(l.dev.value, found.value) else Vanished(l.dev.value)));
    assert StandingValid(l');
    OutageUntouched(p, l, l', now);
    WindowUntouched(p, l, l', now);
  }

  lemma DiscoveredLocally(p: HealthPolicy, dev: Device, now: real)
    requires now >= 0.0
    ensures LocalValid(p, Local(Some(dev), Some(dev), HEALTHY, None, false, []), now)
  {
  }

  lemma ReconciledKnown(f: Fleet, keys: seq<DeviceId>, found: map<DeviceId, Device>, x: DeviceId)
    requires f.reg.born.Keys == f.reg.devices.Keys && x in f.reg.devices
    ensures Locally(f.(reg := Reconciled(f.reg, keys, found)), x)
            == Locally(f, x).(dev := Some(if x in found then Merged(f.reg.devices[x],
                found[x]) else Vanished(f.reg.devices[x])))
  {
  }

  lemma ReconciledNew(f: Fleet, keys: seq<DeviceId>, found: map<DeviceId, Device>, x: DeviceId)
    requires f.reg.born.Keys == f.reg.devices.Keys && x !in f.reg.devices
    ensures Locally(f.(reg := Reconciled(f.reg, keys, found)), x)
            == if x in found then Locally(f, x).(dev := Some(found[x]), born := Some(found[x])) else Locally(f, x)
  {
  }

  lemma ReconciledValid(p: HealthPolicy, f: Fleet, keys: seq<DeviceId>, found: map<DeviceId, Device>, now: real)
    requires FleetValid(p, f, now) && f.reg.born.Keys == f.reg.devices.Keys
    requires PollSane(f.reg, found)
    ensures FleetValid(p, f.(reg := Reconciled(f.reg, keys, found)), now)
  {
    var g := f.(reg := Reconciled(f.reg, keys, found));
    forall x ensures LocalValid(p, Locally(g, x), now) {
      assert LocalValid(p, Locally(f, x), now);
      if x in f.reg.devices {
        ReconciledKnown(f, keys, found, x);
        RefreshedLocally(p, Locally(f, x), if x in found then Some(found[x]) else None, now);
      } else {
        ReconciledNew(f, keys, found, x);
        if x in found {
          DiscoveredLocally(p, found[x], now);
        }
      }
    }
  }

  lemma TickValid(p: HealthPolicy, f: Fleet, now: real, later: real)
    requires FleetValid(p, f, now) && now <= later
    ensures FleetValid(p, f, later)
  {
    forall x ensures LocalValid(p, Locally(f, x), later) {
      WindowLater(p, Locally(f, x), now, later);
      assert OutageValid(p, Locally(f, x), later);
    }
  }

  /** Leases and waiters are no business of the monitor's invariant. */
  lemma BooksIrrelevant(p: HealthPolicy, f: Fleet, r: Registry, now: real)
    requires FleetValid(p, f, now) && r.devices == f.reg.devices && r.born == f.reg.born
    ensures FleetValid(p, f.(reg := r), now)
  {
    forall x ensures LocalValid(p, Locally(f.(reg := r), x), now) {
      assert Locally(f.(reg := r), x) == Locally(f, x);
    }
  }
}
