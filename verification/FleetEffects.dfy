/** Every transition of the monitor concerns one device only. */
module FleetEffects {
  import opened Tasks
  import opened Devices
  import opened Health
  import opened DeviceHistory
  import opened HealthProofs

  /** `g` differs from `f` in what it holds about `d`, and in nothing about anyone else. */
  ghost predicate OnlyAbout(f: Fleet, g: Fleet, d: DeviceId) {
    && d in f.reg.devices && d in g.reg.devices
    && forall x | x != d :: Locally(g, x) == Locally(f, x)
  }

  lemma OnlyAboutTwice(f: Fleet, g: Fleet, h: Fleet, d: DeviceId)
    requires OnlyAbout(f, g, d) && OnlyAbout(g, h, d)
    ensures OnlyAbout(f, h, d)
  {
  }

  // ---------- the small steps ----------

  lemma ForcedFields(r: Registry, d: DeviceId, state: DeviceState)
    requires d in r.devices
    ensures
      var r' := StateForced(r, d, state);
      && r'.devices == r.devices[d := r.devices[d].(state := state)]
      && r'.born == r.born
  {
  }

  lemma JudgedOther(f: Fleet, d: DeviceId, state: DeviceState, notice: Notice, now: real, x: DeviceId)
    requires d in f.reg.devices && x != d
    ensures Locally(Judged(f, d, state, notice, now), x) == Locally(f, x)
  {
    ForcedFields(f.reg, d, state);
    LogOfAppend(f.mon.log, Event(now, d, notice), x);
    assert LogOf(f.mon.log, x) + [] == LogOf(f.mon.log, x);
  }

  lemma JudgedSelf(f: Fleet, d: DeviceId, state: DeviceState, notice: Notice, now: real)
    requires d in f.reg.devices
    ensures Locally(Judged(f, d, state, notice, now), d) == Marked(Locally(f, d), state, notice, now, d)
  {
    ForcedFields(f.reg, d, state);
    LogOfAppend(f.mon.log, Event(now, d, notice), d);
  }

  lemma JudgedEffect(f: Fleet, d: DeviceId, state: DeviceState, notice: Notice, now: real)
    requires d in f.reg.devices
    ensures OnlyAbout(f, Judged(f, d, state, notice, now), d)
    ensures Locally(Judged(f, d, state, notice, now), d) == Marked(Locally(f, d), state, notice, now, d)
  {
    JudgedSelf(f, d, state, notice, now);
    forall x | x != d ensures Locally(Judged(f, d, state, notice, now), x) == Locally(f, x) {
      JudgedOther(f, d, state, notice, now, x);
    }
  }

  lemma HealthEffect(f: Fleet, d: DeviceId, h: DeviceHealth)
    requires d in f.reg.devices
    ensures OnlyAbout(f, WithHealth(f, d, h), d)
    ensures Locally(WithHealth(f, d, h), d) == Locally(f, d).(health := h)
  {
  }

  lemma RecoveryEffect(f: Fleet, d: DeviceId, phase: Recovery)
    requires d in f.reg.devices
    ensures OnlyAbout(f, WithRecovery(f, d, phase), d)
    ensures Locally(WithRecovery(f, d, phase), d) == Locally(f, d).(recovery := Some(phase))
  {
  }

  lemma OverEffect(f: Fleet, d: DeviceId)
    requires d in f.reg.devices
    ensures OnlyAbout(f, RecoveryOver(f, d), d)
    ensures Locally(RecoveryOver(f, d), d) == Locally(f, d).(recovery := None)
  {
  }

  lemma CheckEffect(f: Fleet, d: DeviceId)
    requires d in f.reg.devices
    ensures OnlyAbout(f, CheckOver(f, d), d)
    ensures Locally(CheckOver(f, d), d) == Locally(f, d).(swept := false)
  {
  }

  // ---------- the transitions ----------

  lemma SpawnEffect(f: Fleet, d: DeviceId, now: real)
    requires d in f.reg.devices
    ensures OnlyAbout(f, SpawnRecovery(f, d, now), d)
    ensures SpawnRecovery(f, d, now).reg == f.reg && SpawnRecovery(f, d, now).mon.log == f.mon.log
  {
    RecoveryEffect(f, d, Spawned);
  }

  lemma QuarantineEffect(f: Fleet, d: DeviceId, now: real)
    requires d in f.reg.devices
    ensures OnlyAbout(f, Quarantine(f, d, now), d)
    ensures StateOf(Quarantine(f, d, now), d) == Quarantined
  {
    var marked := Judged(f, d, Quarantined, DeviceQuarantined, now);
    JudgedEffect(f, d, Quarantined, DeviceQuarantined, now);
    SpawnEffect(marked, d, now);
    OnlyAboutTwice(f, marked, SpawnRecovery(marked, d, now), d);
  }

  function RestoredOnce(l: Local, reason: RestoreReason, now: real, d: DeviceId): Local
    requires l.dev.Some?
  {
    Marked(l, Online, DeviceRestored(reason), now, d).(health := Cleared(l.health))
  }

  lemma RestoreEffect(f: Fleet, d: DeviceId, reason: RestoreReason, now: real)
    requires d in f.reg.devices
    ensures OnlyAbout(f, Restore(f, d, reason, now), d)
    ensures Locally(Restore(f, d, reason, now), d) == RestoredOnce(Locally(f, d), reason, now, d)
  {
    var cleared := WithHealth(f, d, Cleared(HealthOf(f.mon, d)));
    HealthEffect(f, d, Cleared(HealthOf(f.mon, d)));
    JudgedEffect(cleared, d, Online, DeviceRestored(reason), now);
    OnlyAboutTwice(f, cleared, Restore(f, d, reason, now), d);
  }

  lemma RetireEffect(f: Fleet, d: DeviceId, now: real)
    requires d in f.reg.devices
    ensures OnlyAbout(f, RecoveryOver(Retire(f, d, now), d), d)
    ensures Locally(RecoveryOver(Retire(f, d, now), d), d)
            == Marked(Locally(f, d), Retired, DeviceRetired, now, d).(recovery := None)
  {
    var g := Retire(f, d, now);
    JudgedEffect(f, d, Retired, DeviceRetired, now);
    OverEffect(g, d);
    OnlyAboutTwice(f, g, RecoveryOver(g, d), d);
  }

  lemma ExhaustedEffect(p: HealthPolicy, f: Fleet, d: DeviceId, now: real)
    requires d in f.reg.devices
    ensures OnlyAbout(f, Exhausted(p, f, d, now), d)
    ensures Locally(Exhausted(p, f, d, now), d) == FailedOnce(p, Locally(f, d), now, d)
  {
    var k := HealthOf(f.mon, d).failedRecoveries + 1;
    var e := Event(now, d, RecoveryFailed(k, Delay(p, k)));
    forall x ensures LogOf(f.mon.log + [e], x) == LogOf(f.mon.log, x) + (if x == d then [e] else []) {
      LogOfAppend(f.mon.log, e, x);
    }
  }

  lemma AttemptBegunEffect(p: HealthPolicy, f: Fleet, d: DeviceId, attempt: nat, now: real)
    requires d in f.reg.devices
    ensures OnlyAbout(f, AttemptBegun(p, f, d, attempt, now), d)
  {
    OverEffect(f, d);
    RecoveryEffect(f, d, Reconnecting(attempt));
    ExhaustedEffect(p, f, d, now);
  }

  lemma AttemptFailedEffect(p: HealthPolicy, f: Fleet, d: DeviceId, attempt: nat, now: real)
    requires d in f.reg.devices
    ensures OnlyAbout(f, AttemptFailed(p, f, d, attempt, now), d)
  {
    RecoveryEffect(f, d, Sleeping(attempt, now + Pause(attempt)));
    AttemptBegunEffect(p, f, d, attempt + 1, now);
  }

  lemma VirtualEffect(f: Fleet, d: DeviceId, now: real)
    requires d in f.reg.devices
    ensures OnlyAbout(f, RecoveryOver(Restore(f, d, VirtualSlot, now), d), d)
  {
    var g := Restore(f, d, VirtualSlot, now);
    RestoreEffect(f, d, VirtualSlot, now);
    OverEffect(g, d);
    OnlyAboutTwice(f, g, RecoveryOver(g, d), d);
  }

  lemma EpisodeOpenedEffect(p: HealthPolicy, f: Fleet, d: DeviceId, now: real)
    requires d in f.reg.devices
    ensures OnlyAbout(f, EpisodeOpened(p, f, d, now), d)
  {
    if |HealthOf(f.mon, d).recoveryTimes| >= p.retireAfter {
      RetireEffect(f, d, now);
    } else if f.reg.devices[d].transport !in ADB_TRANSPORTS {
      VirtualEffect(f, d, now);
    } else {
      AttemptBegunEffect(p, f, d, 1, now);
    }
  }

  lemma RecoveryBegunEffect(p: HealthPolicy, f: Fleet, d: DeviceId, now: real)
    requires d in f.reg.devices
    ensures OnlyAbout(f, RecoveryBegun(p, f, d, now), d)
  {
    var g := WithHealth(f, d, Pruned(p, HealthOf(f.mon, d), now));
    HealthEffect(f, d, Pruned(p, HealthOf(f.mon, d), now));
    EpisodeOpenedEffect(p, g, d, now);
    OnlyAboutTwice(f, g, EpisodeOpened(p, g, d, now), d);
  }

  lemma BookedEffect(f: Fleet, d: DeviceId, now: real)
    requires d in f.reg.devices
    ensures OnlyAbout(f, Booked(f, d, now), d)
    ensures
      var l := Locally(f, d);
      Locally(Booked(f, d, now), d) == l.(
      dev := Some(l.dev.value.(recoveries := l.dev.value.recoveries + 1)),
      health := l.health.(recoveryTimes := l.health.recoveryTimes + [now], consecutiveFailures := 0))
  {
  }

  lemma RecoveredEffect(f: Fleet, d: DeviceId, now: real)
    requires d in f.reg.devices
    ensures OnlyAbout(f, Recovered(f, d, now), d)
    ensures Locally(Recovered(f, d, now), d) == RecoveredOnce(Locally(f, d), now, d)
  {
    var booked := Booked(f, d, now);
    BookedEffect(f, d, now);
    RestoredOverEffect(booked, d, now);
    OnlyAboutTwice(f, booked, Recovered(f, d, now), d);
  }

  lemma RestoredOverEffect(f: Fleet, d: DeviceId, now: real)
    requires d in f.reg.devices
    ensures OnlyAbout(f, RecoveryOver(Restore(f, d, AdbReconnect, now), d), d)
    ensures Locally(RecoveryOver(Restore(f, d, AdbReconnect, now), d), d)
            == RestoredOnce(Locally(f, d), AdbReconnect, now, d).(recovery := None)
  {
    var g := Restore(f, d, AdbReconnect, now);
    RestoreEffect(f, d, AdbReconnect, now);
    OverEffect(g, d);
    OnlyAboutTwice(f, g, RecoveryOver(g, d), d);
  }

  lemma ReconnectDoneEffect(p: HealthPolicy, f: Fleet, d: DeviceId, attempt: nat, result: Probe, now: real)
    requires d in f.reg.devices
    ensures OnlyAbout(f, ReconnectDone(p, f, d, attempt, result, now), d)
    ensures OnlyAbout(f, RecoveryProbed(p, f, d, attempt, result, now), d)
  {
    OverEffect(f, d);
    RecoveryEffect(f, d, Probing(attempt));
    AttemptFailedEffect(p, f, d, attempt, now);
    RecoveredEffect(f, d, now);
  }

  lemma ProbeCountedEffect(f: Fleet, d: DeviceId, failures: nat)
    requires d in f.reg.devices
    ensures OnlyAbout(f, ProbeCounted(f, d, failures), d) && ProbeCounted(f, d, failures).reg == f.reg
    ensures
      var l := Locally(f, d);
      Locally(ProbeCounted(f, d, failures), d)
      == l.(swept := false, health := l.health.(consecutiveFailures := failures))
  {
    CheckEffect(f, d);
    HealthEffect(CheckOver(f, d), d, HealthOf(f.mon, d).(consecutiveFailures := failures));
  }

  lemma AliveEffect(f: Fleet, d: DeviceId, now: real, g: Fleet)
    requires d in f.reg.devices && g == ProbeCounted(f, d, 0) && d in g.reg.devices
    ensures OnlyAbout(f, ProbeSucceeded(g, d, now), d)
  {
    ProbeCountedEffect(f, d, 0);
    RestoreEffect(g, d, ProbeRecovered, now);
    OnlyAboutTwice(f, g, ProbeSucceeded(g, d, now), d);
  }

  lemma ProbeFailedEffect(p: HealthPolicy, g: Fleet, d: DeviceId, now: real)
    requires d in g.reg.devices
    ensures OnlyAbout(g, ProbeFailed(p, g, d, now), d)
  {
    QuarantineEffect(g, d, now);
    SpawnEffect(g, d, now);
  }

  lemma DeadEffect(p: HealthPolicy, f: Fleet, d: DeviceId, now: real, g: Fleet, h: Fleet)
    requires OnlyAbout(f, g, d) && h == ProbeFailed(p, g, d, now)
    ensures OnlyAbout(f, h, d)
  {
    ProbeFailedEffect(p, g, d, now);
    OnlyAboutTwice(f, g, h, d);
  }

  lemma AliveDoneEffect(p: HealthPolicy, f: Fleet, d: DeviceId, now: real)
    requires d in f.reg.devices
    ensures OnlyAbout(f, CheckDone(p, f, d, Alive, now), d)
  {
    ProbeCountedEffect(f, d, 0);
    AliveEffect(f, d, now, ProbeCounted(f, d, 0));
  }

  lemma DeadDoneEffect(p: HealthPolicy, f: Fleet, d: DeviceId, now: real)
    requires d in f.reg.devices
    ensures OnlyAbout(f, CheckDone(p, f, d, Dead, now), d)
  {
    var failures := HealthOf(f.mon, d).consecutiveFailures + 1;
    ProbeCountedEffect(f, d, failures);
    DeadEffect(p, f, d, now, ProbeCounted(f, d, failures), CheckDone(p, f, d, Dead, now));
  }

  lemma CheckDoneEffect(p: HealthPolicy, f: Fleet, d: DeviceId, result: Probe, now: real)
    requires d in f.reg.devices
    ensures OnlyAbout(f, CheckDone(p, f, d, result, now), d)
  {
    match result
    case Raised => CheckEffect(f, d);
    case Alive => AliveDoneEffect(p, f, d, now);
    case Dead => DeadDoneEffect(p, f, d, now);
  }
}
