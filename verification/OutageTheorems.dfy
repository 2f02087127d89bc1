/** Failures of an outage are numbered 1, 2, 3, ..., the numbers restart with every restore,
    and the first failure of the next outage is not made to wait. */
module OutageTheorems {
  import opened Tasks
  import opened Devices
  import opened Health
  import opened DeviceHistory
  import opened FleetEffects
  import opened Kernel
  import opened KernelProofs
  import opened DeviceTheorems
  import opened RecoveryTheorems

  /** How many failures this log shows since the last restore. */
  function Streak(log: seq<Event>): nat {
    if log == [] then 0
    else
      var n := |log| - 1;
      if IsRestored(log[n]) then 0 else Streak(log[..n]) + if IsFailed(log[n]) then 1 else 0
  }

  /** Each failure carries its place in the outage. */
  ghost predicate EpisodesNumbered(log: seq<Event>) {
    forall i {:trigger IsFailed(log[i])} | 0 <= i < |log| && IsFailed(log[i]) ::
      log[i].notice.episode == Streak(log[..i + 1])
  }

  /** The last failure this log shows since the last restore. */
  function LastFailure(log: seq<Event>): (last: Option<Event>)
    ensures last.Some? ==> IsFailed(last.value)
  {
    if log == [] then None
    else
      var n := |log| - 1;
      if IsRestored(log[n]) then None else if IsFailed(log[n]) then Some(log[n]) else LastFailure(log[..n])
  }

  /** When the backoff this log shows is over. */
  function BackoffEnds(log: seq<Event>): real {
    var last := LastFailure(log);
    if last.None? then 0.0 else last.value.time + last.value.notice.delay
  }

  /** The monitor's counter and its backoff are what the log shows. */
  ghost predicate Tallied(failed: nat, next: real, log: seq<Event>) {
    failed == Streak(log) && next == BackoffEnds(log) && EpisodesNumbered(log)
  }

  ghost predicate Counted(f: Fleet, d: DeviceId) {
    Tallied(HealthOf(f.mon, d).failedRecoveries, HealthOf(f.mon, d).nextRecoveryAt, LogOf(f.mon.log, d))
  }

  lemma TallyGrows(failed: nat, next: real, log: seq<Event>, e: Event)
    requires Tallied(failed, next, log) && (IsFailed(e) ==> e.notice.episode == failed + 1)
    ensures Tallied(if IsRestored(e) then 0 else if IsFailed(e) then failed + 1 else failed,
                    if IsRestored(e) then 0.0 else if IsFailed(e) then e.time + e.notice.delay else next, log + [e])
  {
    var grown := log + [e];
    assert grown[..|log|] == log;
    forall i | 0 <= i < |grown| && IsFailed(grown[i])
      ensures grown[i].notice.episode == Streak(grown[..i + 1])
    {
      if i < |log| {
        assert grown[i] == log[i] && grown[..i + 1] == log[..i + 1];
      } else {
        assert grown[..i + 1] == grown;
      }
    }
  }

  // ---------- the transitions that publish ----------

  lemma JudgedCounts(f: Fleet, d: DeviceId, state: DeviceState, notice: Notice, now: real)
    requires Counted(f, d) && !notice.DeviceRestored? && !notice.RecoveryFailed?
    ensures Counted(Judged(f, d, state, notice, now), d)
  {
    LogOfAppend(f.mon.log, Event(now, d, notice), d);
    TallyGrows(HealthOf(f.mon, d).failedRecoveries, HealthOf(f.mon, d).nextRecoveryAt, LogOf(f.mon.log, d),
               Event(now, d, notice));
  }

  lemma RestoreCounts(f: Fleet, d: DeviceId, reason: RestoreReason, now: real)
    requires Counted(f, d)
    ensures Counted(Restore(f, d, reason, now), d)
  {
    var e := Event(now, d, DeviceRestored(reason));
    LogOfAppend(f.mon.log, e, d);
    TallyGrows(HealthOf(f.mon, d).failedRecoveries, HealthOf(f.mon, d).nextRecoveryAt, LogOf(f.mon.log, d), e);
  }

  lemma TallyFails(failed: nat, next: real, log: seq<Event>, now: real, d: DeviceId, delay: real)
    requires Tallied(failed, next, log)
    ensures Tallied(failed + 1, now + delay, log + [Event(now, d, RecoveryFailed(failed + 1, delay))])
  {
    TallyGrows(failed, next, log, Event(now, d, RecoveryFailed(failed + 1, delay)));
  }

  lemma FailureCounts(f: Fleet, g: Fleet, d: DeviceId, now: real, failed: nat, delay: real, log: seq<Event>)
    requires Counted(f, d) && failed == HealthOf(f.mon, d).failedRecoveries && log == LogOf(f.mon.log, d)
    requires HealthOf(g.mon, d).failedRecoveries == failed + 1 && HealthOf(g.mon, d).nextRecoveryAt == now + delay
    requires g.mon.log == f.mon.log + [Event(now, d, RecoveryFailed(failed + 1, delay))]
    ensures Counted(g, d)
  {
    LogOfAppend(f.mon.log, Event(now, d, RecoveryFailed(failed + 1, delay)), d);
    TallyFails(failed, HealthOf(f.mon, d).nextRecoveryAt, log, now, d, delay);
  }

  lemma ExhaustedCounts(p: HealthPolicy, f: Fleet, d: DeviceId, now: real)
    requires Counted(f, d)
    ensures Counted(Exhausted(p, f, d, now), d)
  {
    var failed := HealthOf(f.mon, d).failedRecoveries;
    FailureCounts(f, Exhausted(p, f, d, now), d, now, failed, Delay(p, failed + 1), LogOf(f.mon.log, d));
  }

  lemma QuarantineCounts(f: Fleet, d: DeviceId, now: real)
    requires Counted(f, d)
    ensures Counted(Quarantine(f, d, now), d)
  {
    JudgedCounts(f, d, Quarantined, DeviceQuarantined, now);
  }

  // ---------- the steps ----------

  lemma ProbeCounts(p: HealthPolicy, f: Fleet, d: DeviceId, now: real)
    requires d in f.reg.devices && Counted(f, d)
    ensures Counted(ProbeSucceeded(f, d, now), d)
    ensures Counted(ProbeFailed(p, f, d, now), d)
  {
    RestoreCounts(f, d, ProbeRecovered, now);
    QuarantineCounts(f, d, now);
  }

  lemma ProbeCountedCounts(f: Fleet, d: DeviceId, failures: nat)
    requires d in f.reg.devices && Counted(f, d)
    ensures Counted(ProbeCounted(f, d, failures), d) && d in ProbeCounted(f, d, failures).reg.devices
  {
  }

  lemma AliveCounts(p: HealthPolicy, f: Fleet, d: DeviceId, now: real)
    requires d in f.reg.devices && Counted(f, d)
    ensures Counted(CheckDone(p, f, d, Alive, now), d)
  {
    ProbeCountedCounts(f, d, 0);
    ProbeCounts(p, ProbeCounted(f, d, 0), d, now);
  }

  lemma DeadCounts(p: HealthPolicy, f: Fleet, d: DeviceId, now: real, g: Fleet, h: Fleet)
    requires d in g.reg.devices && Counted(g, d) && h == ProbeFailed(p, g, d, now)
    ensures Counted(h, d)
  {
    ProbeCounts(p, g, d, now);
  }

  lemma CheckCounts(p: HealthPolicy, f: Fleet, d: DeviceId, result: Probe, now: real)
    requires d in f.reg.devices && Counted(f, d)
    ensures Counted(CheckDone(p, f, d, result, now), d)
  {
    match result
    case Raised =>
    case Alive => AliveCounts(p, f, d, now);
    case Dead =>
      var failures := HealthOf(f.mon, d).consecutiveFailures + 1;
      ProbeCountedCounts(f, d, failures);
      DeadCounts(p, f, d, now, ProbeCounted(f, d, failures), CheckDone(p, f, d, Dead, now));
  }

  lemma QuietCounts(f: Fleet, g: Fleet, d: DeviceId)
    requires Counted(f, d) && g.mon.log == f.mon.log
    requires HealthOf(g.mon, d).failedRecoveries == HealthOf(f.mon, d).failedRecoveries
    requires HealthOf(g.mon, d).nextRecoveryAt == HealthOf(f.mon, d).nextRecoveryAt
    ensures Counted(g, d)
  {
  }

  lemma AttemptBegunCounts(p: HealthPolicy, f: Fleet, d: DeviceId, attempt: nat, now: real)
    requires d in f.reg.devices && Counted(f, d)
    ensures Counted(AttemptBegun(p, f, d, attempt, now), d)
  {
    if StateOf(f, d) == Quarantined && attempt > p.recoveryAttempts {
      ExhaustedCounts(p, f, d, now);
    } else {
      QuietCounts(f, AttemptBegun(p, f, d, attempt, now), d);
    }
  }

  lemma AttemptCounts(p: HealthPolicy, f: Fleet, d: DeviceId, attempt: nat, now: real)
    requires d in f.reg.devices && Counted(f, d)
    ensures Counted(AttemptFailed(p, f, d, attempt, now), d)
  {
    if attempt < p.recoveryAttempts {
      QuietCounts(f, AttemptFailed(p, f, d, attempt, now), d);
    } else {
      AttemptBegunCounts(p, f, d, attempt + 1, now);
    }
  }

  lemma EpisodeCounts(p: HealthPolicy, f: Fleet, d: DeviceId, now: real)
    requires d in f.reg.devices && Counted(f, d)
    ensures Counted(EpisodeOpened(p, f, d, now), d)
  {
    if |HealthOf(f.mon, d).recoveryTimes| >= p.retireAfter {
      JudgedCounts(f, d, Retired, DeviceRetired, now);
    } else if f.reg.devices[d].transport !in ADB_TRANSPORTS {
      RestoreCounts(f, d, VirtualSlot, now);
    } else {
      AttemptBegunCounts(p, f, d, 1, now);
    }
  }

  lemma RecoveryCounts(p: HealthPolicy, f: Fleet, d: DeviceId, now: real)
    requires d in f.reg.devices && Counted(f, d)
    ensures Counted(RecoveryBegun(p, f, d, now), d)
  {
    EpisodeCounts(p, WithHealth(f, d, Pruned(p, HealthOf(f.mon, d), now)), d, now);
  }

  lemma RecoveredCounts(p: HealthPolicy, f: Fleet, d: DeviceId, attempt: nat, result: Probe, now: real)
    requires d in f.reg.devices && Counted(f, d)
    ensures Counted(RecoveryProbed(p, f, d, attempt, result, now), d)
  {
    match result
    case Raised => QuietCounts(f, RecoveryOver(f, d), d);
    case Alive =>
      QuietCounts(f, Booked(f, d, now), d);
      RestoreCounts(Booked(f, d, now), d, AdbReconnect, now);
    case Dead => AttemptCounts(p, f, d, attempt, now);
  }

  lemma ReconnectCounts(p: HealthPolicy, f: Fleet, d: DeviceId, attempt: nat, result: Probe, now: real)
    requires d in f.reg.devices && Counted(f, d)
    ensures Counted(ReconnectDone(p, f, d, attempt, result, now), d)
  {
    if result.Dead? {
      AttemptCounts(p, f, d, attempt, now);
    } else {
      QuietCounts(f, ReconnectDone(p, f, d, attempt, result, now), d);
    }
  }

  lemma OwnStepCounts(p: Policy, k: Kernel, step: Step)
    requires Enabled(p, k, step)
    requires step.CheckStart? || step.CheckEnd? || step.RecoveryStart? || step.ReconnectEnd?
             || step.RecoveryProbeEnd? || step.RecoveryWake?
    requires Counted(k.fleet, step.d)
    ensures Counted(Apply(p, k, step).fleet, step.d)
  {
    var f := k.fleet;
    match step
    case CheckStart(d) =>
    case CheckEnd(d, result) => CheckCounts(p.health, f, d, result, k.now);
    case RecoveryStart(d) => RecoveryCounts(p.health, f, d, k.now);
    case ReconnectEnd(d, result) => ReconnectCounts(p.health, f, d, f.mon.recoveries[d].attempt, result, k.now);
    case RecoveryProbeEnd(d, result) => RecoveredCounts(p.health, f, d, f.mon.recoveries[d].attempt, result, k.now);
    case RecoveryWake(d) => AttemptBegunCounts(p.health, f, d, f.mon.recoveries[d].attempt + 1, k.now);
  }

  lemma SameTale(f: Fleet, g: Fleet, x: DeviceId)
    requires Counted(f, x) && Locally(g, x) == Locally(f, x)
    ensures Counted(g, x)
  {
    assert Locally(g, x).health == Locally(f, x).health && Locally(g, x).log == Locally(f, x).log;
  }

  lemma BlameCounts(k: Kernel, d: DeviceId, o: Outcome, x: DeviceId)
    requires Counted(k.fleet, x)
    ensures Counted(Blamed(k, d, o), x)
  {
    if Blamed(k, d, o) != k.fleet {
      if x == d {
        QuarantineCounts(k.fleet, d, k.now);
      } else {
        QuarantineEffect(k.fleet, d, k.now);
        SameTale(k.fleet, Quarantine(k.fleet, d, k.now), x);
      }
    }
  }

  lemma StepCounts(p: Policy, k: Kernel, step: Step, x: DeviceId)
    requires Enabled(p, k, step) && Counted(k.fleet, x)
    ensures Counted(Apply(p, k, step).fleet, x)
  {
    if step.Tick? || step.Refresh? || step.SweepStart? {
    } else if MonitorStep(step) {
      if step.d == x {
        OwnStepCounts(p, k, step);
      } else {
        FleetStepAbout(p, k, step, x);
        SameTale(k.fleet, Apply(p, k, step).fleet, x);
      }
    } else if step.ExecutionEnd? {
      BlameCounts(k, k.fleet.reg.issued[k.sched.workers[step.w].lease].device, step.outcome, x);
    } else {
      WorkerInventory(p, k, step);
    }
  }

  lemma {:induction false} RunCounts(p: Policy, trace: seq<Kernel>, steps: seq<Step>, n: nat, x: DeviceId)
    requires IsRun(p, trace, steps) && n < |trace|
    ensures Counted(trace[n].fleet, x)
  {
    if n > 0 {
      RunCounts(p, trace, steps, n - 1, x);
      StepCounts(p, trace[n - 1], steps[n - 1], x);
    }
  }

  // ---------- what it means ----------

  lemma DelaysAnnounced(p: Policy, trace: seq<Kernel>, steps: seq<Step>, n: nat, d: DeviceId, i: nat)
    requires IsRun(p, trace, steps) && n < |trace|
    requires i < |LogOf(trace[n].fleet.mon.log, d)| && IsFailed(LogOf(trace[n].fleet.mon.log, d)[i])
    ensures
      var e := LogOf(trace[n].fleet.mon.log, d)[i];
      e.notice.episode >= 1 && e.notice.delay == Delay(p.health, e.notice.episode)
  {
    RunValid(p, trace, steps, n);
    assert LocalValid(p.health, Locally(trace[n].fleet, d), trace[n].now);
  }

  /** In every run the k-th failure a device publishes after a restore, or at all, is numbered k
      and says a delay of min(base * 2 ** (k - 1), cap). */
  lemma FailuresAreNumbered(p: Policy, trace: seq<Kernel>, steps: seq<Step>, n: nat, d: DeviceId, i: nat)
    requires IsRun(p, trace, steps) && n < |trace|
    requires i < |LogOf(trace[n].fleet.mon.log, d)| && IsFailed(LogOf(trace[n].fleet.mon.log, d)[i])
    ensures
      var log := LogOf(trace[n].fleet.mon.log, d);
      var k := Streak(log[..i + 1]);
      k >= 1 && log[i].notice.episode == k
      && log[i].notice.delay == Min(Scaled(p.health.backoffBase, k - 1), p.health.backoffCap)
  {
    var log := LogOf(trace[n].fleet.mon.log, d);
    RunCounts(p, trace, steps, n, d);
    DelaysAnnounced(p, trace, steps, n, d, i);
    DoubledIsScaled(p.health.backoffBase, Streak(log[..i + 1]) - 1);
  }

  lemma {:induction false} StreakStep(log: seq<Event>, i: nat, j: nat)
    requires i < j < |log| && IsFailed(log[i]) && IsFailed(log[j])
    requires forall m | i < m < j :: !IsRestored(log[m]) && !IsFailed(log[m])
    ensures Streak(log[..j + 1]) == Streak(log[..i + 1]) + 1
    decreases j
  {
    StreakFlat(log, i + 1, j);
    assert log[..j + 1][..j] == log[..j];
  }

  lemma {:induction false} StreakFlat(log: seq<Event>, i: nat, j: nat)
    requires i <= j <= |log| && forall m | i <= m < j :: !IsRestored(log[m]) && !IsFailed(log[m])
    ensures Streak(log[..j]) == Streak(log[..i])
    decreases j
  {
    if i < j {
      StreakFlat(log, i, j - 1);
      assert log[..j][..j - 1] == log[..j - 1];
    }
  }

  /** Two failures in a row of one outage, the k-th and the next one, are at least
      min(base * 2 ** (k - 1), cap) apart. */
  lemma NextFailureWaits(p: Policy, trace: seq<Kernel>, steps: seq<Step>, n: nat, d: DeviceId, i: nat, j: nat)
    requires IsRun(p, trace, steps) && n < |trace|
    requires
      var log := LogOf(trace[n].fleet.mon.log, d);
      && i < j < |log| && IsFailed(log[i]) && IsFailed(log[j])
      && forall m | i < m < j :: !IsRestored(log[m]) && !IsFailed(log[m])
    ensures
      var log := LogOf(trace[n].fleet.mon.log, d);
      var k := Streak(log[..i + 1]);
      && k >= 1 && log[i].notice.episode == k && log[j].notice.episode == k + 1
      && log[j].time - log[i].time >= Min(Scaled(p.health.backoffBase, k - 1), p.health.backoffCap)
  {
    var log := LogOf(trace[n].fleet.mon.log, d);
    var k := Streak(log[..i + 1]);
    FailuresAreNumbered(p, trace, steps, n, d, i);
    FailuresAreNumbered(p, trace, steps, n, d, j);
    StreakStep(log, i, j);
    FailuresBackOff(p, trace, steps, n, d, i, j);
    assert SumDelay(p.health, k, k + 1) == Delay(p.health, k);
    DoubledIsScaled(p.health.backoffBase, k - 1);
  }

  /** It is time to chase the device: no recovery of it is under way, and none has failed since its
      last restore, or the delay published with the last failure has passed. */
  ghost predicate ChaseDue(k: Kernel, d: DeviceId) {
    d !in k.fleet.mon.recoveries
    && var last := LastFailure(LogOf(k.fleet.mon.log, d));
    last.None? || k.now >= last.value.time + last.value.notice.delay
  }

  /** The device gets a recovery if it is time, one that is under way goes on, and no other one is
      touched. */
  ghost predicate Chased(k: Kernel, k': Kernel, d: DeviceId) {
    k'.fleet.mon.recoveries == if ChaseDue(k, d) then k.fleet.mon.recoveries[d := Spawned] else k.fleet.mon.recoveries
  }

  lemma SpawnsWhenDue(p: Policy, trace: seq<Kernel>, steps: seq<Step>, n: nat, d: DeviceId)
    requires IsRun(p, trace, steps) && n < |trace|
    ensures ChaseDue(trace[n], d)
            <==> d !in trace[n].fleet.mon.recoveries
                 && trace[n].now >= HealthOf(trace[n].fleet.mon, d).nextRecoveryAt
  {
    RunCounts(p, trace, steps, n, d);
    RunValid(p, trace, steps, n);
  }

  lemma CheckSpawns(p: HealthPolicy, f: Fleet, d: DeviceId, now: real)
    requires d in f.reg.devices
    ensures
      var g := CheckDone(p, f, d, Dead, now);
      d in g.reg.devices
      && g.mon.recoveries
         == if StateOf(g, d) == Quarantined && d !in f.mon.recoveries && now >= HealthOf(f.mon, d).nextRecoveryAt
            then f.mon.recoveries[d := Spawned] else f.mon.recoveries
  {
  }

  /** A device that does not answer and is in quarantine then, newly or still, is chased by the sweep
      exactly when it is time; and one that is not is not. */
  lemma DarkIsChased(p: Policy, trace: seq<Kernel>, steps: seq<Step>, n: nat, d: DeviceId)
    requires IsRun(p, trace, steps) && n < |steps| && steps[n] == CheckEnd(d, Dead)
    ensures d in trace[n + 1].fleet.reg.devices
    ensures if StateOf(trace[n + 1].fleet, d) == Quarantined then Chased(trace[n], trace[n + 1], d)
            else trace[n + 1].fleet.mon.recoveries == trace[n].fleet.mon.recoveries
  {
    assert Enabled(p, trace[n], steps[n]);
    SpawnsWhenDue(p, trace, steps, n, d);
    CheckSpawns(p.health, trace[n].fleet, d, trace[n].now);
    assert trace[n + 1].fleet == CheckDone(p.health, trace[n].fleet, d, Dead, trace[n].now);
  }

  lemma BlameSpawns(k: Kernel, d: DeviceId, o: Outcome)
    requires IsFailure(o) && Blames(o) && d in k.fleet.reg.devices && StateOf(k.fleet, d) == Online
    ensures
      var g := Blamed(k, d, o);
      && g.mon.log == k.fleet.mon.log + [Event(k.now, d, DeviceQuarantined)]
      && g.mon.recoveries == if d !in k.fleet.mon.recoveries && k.now >= HealthOf(k.fleet.mon, d).nextRecoveryAt
                             then k.fleet.mon.recoveries[d := Spawned] else k.fleet.mon.recoveries
  {
  }

  /** And so is an ONLINE device by the worker whose task it has failed, with the quarantine published. */
  lemma BlamedIsChased(p: Policy, trace: seq<Kernel>, steps: seq<Step>, n: nat, w: nat, o: Outcome)
    requires IsRun(p, trace, steps) && n < |steps| && steps[n] == ExecutionEnd(w, o) && Enabled(p, trace[n], steps[n])
    requires IsFailure(o) && (o.Retryable? ==> o.blamesDevice)
    requires DeviceOf(trace[n], w) in trace[n].fleet.reg.devices
    requires StateOf(trace[n].fleet, DeviceOf(trace[n], w)) == Online
    ensures
      var (k, k', d) := (trace[n], trace[n + 1], DeviceOf(trace[n], w));
      Chased(k, k', d) && k'.fleet.mon.log == k.fleet.mon.log + [Event(k.now, d, DeviceQuarantined)]
  {
    var d := DeviceOf(trace[n], w);
    SpawnsWhenDue(p, trace, steps, n, d);
    BlameSpawns(trace[n], d, o);
    assert trace[n + 1].fleet == Blamed(trace[n], d, o);
  }

  /** Coming back clears the backoff: a device that has published no failure since its last
      restore has a recovery under way as soon as it is quarantined. */
  lemma NextOutageIsChasedAtOnce(p: Policy, trace: seq<Kernel>, steps: seq<Step>, n: nat, d: DeviceId)
    requires IsRun(p, trace, steps) && n < |trace| && d in trace[n].fleet.reg.devices
    requires Streak(LogOf(trace[n].fleet.mon.log, d)) == 0
    ensures d in Quarantine(trace[n].fleet, d, trace[n].now).mon.recoveries
  {
    RunCounts(p, trace, steps, n, d);
    RunValid(p, trace, steps, n);
    assert LocalValid(p.health, Locally(trace[n].fleet, d), trace[n].now);
  }
}
