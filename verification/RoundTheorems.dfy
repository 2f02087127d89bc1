/** The rounds of a recovery: how many there are, what comes between them, and what comes after
    the last. */
module RoundTheorems {
  import opened Tasks
  import opened Devices
  import opened Health
  import opened DeviceHistory
  import opened Kernel
  import opened KernelProofs
  import opened DeviceTheorems
  import opened OutageTheorems
  import opened RecoveryTheorems

  function Round(phase: Recovery): nat {
    match phase
    case Spawned => 0
    case Reconnecting(a) => a
    case Probing(a) => a
    case Sleeping(a, _) => a
  }

  /** Rounds are numbered from 1 to `recoveryAttempts`, and after the last one nobody sleeps. */
  ghost predicate RoundsValid(p: HealthPolicy, m: Monitor) {
    forall d | d in m.recoveries ::
      var phase := m.recoveries[d];
      && (!phase.Spawned? ==> 1 <= Round(phase) <= p.recoveryAttempts)
      && (phase.Sleeping? ==> Round(phase) < p.recoveryAttempts)
  }

  lemma QuarantineRounds(p: HealthPolicy, f: Fleet, d: DeviceId, now: real)
    requires RoundsValid(p, f.mon)
    ensures RoundsValid(p, Quarantine(f, d, now).mon)
  {
  }

  lemma CheckRounds(p: HealthPolicy, f: Fleet, d: DeviceId, result: Probe, now: real)
    requires d in f.reg.devices && RoundsValid(p, f.mon)
    ensures RoundsValid(p, CheckDone(p, f, d, result, now).mon)
  {
    if result.Dead? {
      var g := ProbeCounted(f, d, HealthOf(f.mon, d).consecutiveFailures + 1);
      assert RoundsValid(p, g.mon);
      DeadRounds(p, g, d, now);
    }
  }

  lemma DeadRounds(p: HealthPolicy, f: Fleet, d: DeviceId, now: real)
    requires d in f.reg.devices && RoundsValid(p, f.mon)
    ensures RoundsValid(p, ProbeFailed(p, f, d, now).mon)
  {
    QuarantineRounds(p, f, d, now);
  }

  lemma AttemptRounds(p: HealthPolicy, f: Fleet, d: DeviceId, attempt: nat, now: real)
    requires d in f.reg.devices && RoundsValid(p, f.mon) && attempt >= 1
    ensures RoundsValid(p, AttemptBegun(p, f, d, attempt, now).mon)
    ensures RoundsValid(p, AttemptFailed(p, f, d, attempt, now).mon)
  {
  }

  lemma EpisodeRounds(p: HealthPolicy, f: Fleet, d: DeviceId, now: real)
    requires d in f.reg.devices && RoundsValid(p, f.mon)
    ensures RoundsValid(p, EpisodeOpened(p, f, d, now).mon)
  {
    AttemptRounds(p, f, d, 1, now);
  }

  lemma MonitorRounds(p: Policy, k: Kernel, step: Step)
    requires Enabled(p, k, step) && MonitorStep(step) && RoundsValid(p.health, k.fleet.mon)
    ensures RoundsValid(p.health, Apply(p, k, step).fleet.mon)
  {
    var f := k.fleet;
    match step
    case CheckEnd(d, result) => CheckRounds(p.health, f, d, result, k.now);
    case RecoveryStart(d) =>
      EpisodeRounds(p.health, WithHealth(f, d, Pruned(p.health, HealthOf(f.mon, d), k.now)), d, k.now);
    case ReconnectEnd(d, result) =>
      if result.Dead? {
        AttemptRounds(p.health, f, d, f.mon.recoveries[d].attempt, k.now);
      }
    case RecoveryProbeEnd(d, result) =>
      if result.Dead? {
        AttemptRounds(p.health, f, d, f.mon.recoveries[d].attempt, k.now);
      }
    case RecoveryWake(d) => AttemptRounds(p.health, f, d, f.mon.recoveries[d].attempt + 1, k.now);
    case _ =>
  }

  lemma StepRounds(p: Policy, k: Kernel, step: Step)
    requires Enabled(p, k, step) && RoundsValid(p.health, k.fleet.mon)
    ensures RoundsValid(p.health, Apply(p, k, step).fleet.mon)
  {
    if MonitorStep(step) {
      MonitorRounds(p, k, step);
    } else if step.ExecutionEnd? {
      QuarantineRounds(p.health, k.fleet, k.fleet.reg.issued[k.sched.workers[step.w].lease].device, k.now);
    } else {
      WorkerInventory(p, k, step);
    }
  }

  lemma {:induction false} RunRounds(p: Policy, trace: seq<Kernel>, steps: seq<Step>, n: nat)
    requires IsRun(p, trace, steps) && n < |trace|
    ensures RoundsValid(p.health, trace[n].fleet.mon)
  {
    if n > 0 {
      RunRounds(p, trace, steps, n - 1);
      StepRounds(p, trace[n - 1], steps[n - 1]);
    }
  }

  // ---------- what comes next ----------

  /** Of the recoveries only that of d moves, to this phase or to its end, and this is published. */
  ghost predicate GoesOn(k: Kernel, k': Kernel, d: DeviceId, phase: Option<Recovery>, news: Option<Notice>) {
    && k'.fleet.mon.recoveries == (if phase.Some? then k.fleet.mon.recoveries[d := phase.value]
                                   else k.fleet.mon.recoveries - {d})
    && k'.fleet.mon.log == k.fleet.mon.log + (if news.Some? then [Event(k.now, d, news.value)] else [])
  }

  /** The news of the k-th failure of an outage. */
  function FailedNews(p: HealthPolicy, k: nat): Notice
    requires k >= 1
  {
    RecoveryFailed(k, Min(Scaled(p.backoffBase, k - 1), p.backoffCap))
  }

  /** A round that ends without the device is followed, after 2 s per round and 10 s at most, by the
      next one; the last one by the verdict, at once, and that is published if and only if the
      device is still in quarantine. */
  ghost predicate RoundOver(p: HealthPolicy, k: Kernel, k': Kernel, d: DeviceId, a: nat) {
    d in k.fleet.reg.devices &&
    if a < p.recoveryAttempts then
      GoesOn(k, k', d, Some(Sleeping(a, k.now + Min(2.0 * a as real, 10.0))), None)
    else if StateOf(k.fleet, d) == Quarantined then
      GoesOn(k, k', d, None, Some(FailedNews(p, Streak(LogOf(k.fleet.mon.log, d)) + 1)))
    else GoesOn(k, k', d, None, None)
  }

  lemma DelayIsNews(p: HealthPolicy, k: nat)
    requires k >= 1
    ensures RecoveryFailed(k, Delay(p, k)) == FailedNews(p, k)
  {
    DoubledIsScaled(p.backoffBase, k - 1);
  }

  lemma ExhaustedRound(p: HealthPolicy, k: Kernel, f: Fleet, d: DeviceId)
    requires f.mon.log == k.fleet.mon.log && f.mon.recoveries == k.fleet.mon.recoveries && Counted(f, d)
    ensures
      var news := FailedNews(p, Streak(LogOf(f.mon.log, d)) + 1);
      GoesOn(k, k.(fleet := Exhausted(p, f, d, k.now)), d, None, Some(news))
  {
    DelayIsNews(p, HealthOf(f.mon, d).failedRecoveries + 1);
  }

  lemma FailedRound(p: Policy, k: Kernel, d: DeviceId, a: nat, g: Fleet)
    requires d in k.fleet.reg.devices && Counted(k.fleet, d) && g == AttemptFailed(p.health, k.fleet, d, a, k.now)
    ensures RoundOver(p.health, k, k.(fleet := g), d, a)
  {
    if a >= p.health.recoveryAttempts && StateOf(k.fleet, d) == Quarantined {
      ExhaustedRound(p.health, k, k.fleet, d);
    }
  }

  lemma RoundFails(p: Policy, trace: seq<Kernel>, steps: seq<Step>, n: nat, d: DeviceId)
    requires IsRun(p, trace, steps) && n < |steps|
    requires steps[n] == Step.ReconnectEnd(d, Dead) || steps[n] == RecoveryProbeEnd(d, Dead)
    ensures
      d in trace[n].fleet.mon.recoveries
      && var a := Round(trace[n].fleet.mon.recoveries[d]);
      1 <= a <= p.health.recoveryAttempts && RoundOver(p.health, trace[n], trace[n + 1], d, a)
  {
    RunRounds(p, trace, steps, n);
    RunCounts(p, trace, steps, n, d);
    var k := trace[n];
    assert Enabled(p, k, steps[n]);
    FailedRound(p, k, d, Round(k.fleet.mon.recoveries[d]), trace[n + 1].fleet);
  }

  /** What any other turn of a recovery leads to. */
  ghost predicate TurnTaken(p: HealthPolicy, k: Kernel, k': Kernel, step: Step) {
    match step
    case RecoveryWake(d) =>
      && d in k.fleet.reg.devices && d in k.fleet.mon.recoveries
      && k.fleet.mon.recoveries[d].Sleeping? && k.fleet.mon.recoveries[d].until <= k.now
      && GoesOn(k, k', d, if StateOf(k.fleet, d) == Quarantined
                          then Some(Reconnecting(Round(k.fleet.mon.recoveries[d]) + 1)) else None, None)
    case ReconnectEnd(d, Alive) =>
      d in k.fleet.mon.recoveries && GoesOn(k, k', d, Some(Probing(Round(k.fleet.mon.recoveries[d]))), None)
    case ReconnectEnd(d, Raised) => GoesOn(k, k', d, None, None)
    case RecoveryProbeEnd(d, Raised) => GoesOn(k, k', d, None, None)
    case RecoveryProbeEnd(d, Alive) =>
      && GoesOn(k, k', d, None, Some(DeviceRestored(AdbReconnect)))
      && d in k'.fleet.reg.devices && StateOf(k'.fleet, d) == Online
    case _ => true
  }

  lemma WakeTurn(p: Policy, k: Kernel, d: DeviceId)
    requires Enabled(p, k, RecoveryWake(d)) && RoundsValid(p.health, k.fleet.mon)
    ensures TurnTaken(p.health, k, Apply(p, k, RecoveryWake(d)), RecoveryWake(d))
  {
  }

  lemma ProbeTurn(p: Policy, k: Kernel, d: DeviceId)
    requires Enabled(p, k, RecoveryProbeEnd(d, Alive))
    ensures TurnTaken(p.health, k, Apply(p, k, RecoveryProbeEnd(d, Alive)), RecoveryProbeEnd(d, Alive))
  {
  }

  lemma OtherTurn(p: Policy, k: Kernel, step: Step)
    requires Enabled(p, k, step) && (step.ReconnectEnd? || step.RecoveryProbeEnd?)
    requires step.RecoveryProbeEnd? ==> !step.result.Alive?
    ensures TurnTaken(p.health, k, Apply(p, k, step), step)
  {
  }

  /** The next round begins when the pause is over, if the device is still in quarantine; an answer
      to a reconnect is probed; a probe that succeeds brings the device back and is published; and
      a recovery that raises ends with nothing said. */
  lemma RecoveryTurns(p: Policy, trace: seq<Kernel>, steps: seq<Step>, n: nat)
    requires IsRun(p, trace, steps) && n < |steps|
    ensures TurnTaken(p.health, trace[n], trace[n + 1], steps[n])
  {
    RunRounds(p, trace, steps, n);
    match steps[n]
    case RecoveryWake(d) => WakeTurn(p, trace[n], d);
    case ReconnectEnd(_, _) => OtherTurn(p, trace[n], steps[n]);
    case RecoveryProbeEnd(d, result) =>
      if result.Alive? {
        ProbeTurn(p, trace[n], d);
      } else {
        OtherTurn(p, trace[n], steps[n]);
      }
    case _ =>
  }

  // ---------- how it starts ----------

  /** The first turn of a recovery: the end of it if the device is retired, a virtual slot or not in
      quarantine any more, and round 1 otherwise. */
  ghost predicate Started(p: HealthPolicy, k: Kernel, k': Kernel, d: DeviceId) {
    d in k.fleet.reg.devices && d in k'.fleet.reg.devices &&
    if IsRetired(k'.fleet, d) then GoesOn(k, k', d, None, Some(DeviceRetired))
    else if k.fleet.reg.devices[d].transport !in ADB_TRANSPORTS then
      GoesOn(k, k', d, None, Some(DeviceRestored(VirtualSlot)))
    else if StateOf(k.fleet, d) != Quarantined then GoesOn(k, k', d, None, None)
    else if p.recoveryAttempts >= 1 then GoesOn(k, k', d, Some(Reconnecting(1)), None)
    else GoesOn(k, k', d, None, Some(FailedNews(p, Streak(LogOf(k.fleet.mon.log, d)) + 1)))
  }

  ghost predicate SameBut(k: Kernel, f: Fleet, d: DeviceId) {
    && f.reg == k.fleet.reg && f.mon.log == k.fleet.mon.log && f.mon.recoveries == k.fleet.mon.recoveries
    && d in f.reg.devices && StateOf(f, d) != Retired
  }

  lemma VerdictTurn(p: HealthPolicy, k: Kernel, f: Fleet, d: DeviceId)
    requires SameBut(k, f, d)
    ensures Started(p, k, k.(fleet := RecoveryOver(Retire(f, d, k.now), d)), d)
    ensures f.reg.devices[d].transport !in ADB_TRANSPORTS ==>
              Started(p, k, k.(fleet := RecoveryOver(Restore(f, d, VirtualSlot, k.now), d)), d)
  {
  }

  lemma AttemptTurn(p: HealthPolicy, k: Kernel, f: Fleet, d: DeviceId)
    requires SameBut(k, f, d) && Counted(f, d) && f.reg.devices[d].transport in ADB_TRANSPORTS
    ensures Started(p, k, k.(fleet := AttemptBegun(p, f, d, 1, k.now)), d)
  {
    if p.recoveryAttempts == 0 && StateOf(f, d) == Quarantined {
      ExhaustedRound(p, k, f, d);
    }
  }

  lemma FirstTurn(p: HealthPolicy, k: Kernel, f: Fleet, d: DeviceId, g: Fleet)
    requires SameBut(k, f, d) && Counted(f, d) && g == EpisodeOpened(p, f, d, k.now)
    ensures Started(p, k, k.(fleet := g), d)
  {
    VerdictTurn(p, k, f, d);
    if f.reg.devices[d].transport in ADB_TRANSPORTS {
      AttemptTurn(p, k, f, d);
    }
  }

  /** With `RecoveryTheorems.FlappingIsRetired`, which says when the device is retired, this is all
      that the start of a recovery does. */
  lemma RecoveryStarts(p: Policy, trace: seq<Kernel>, steps: seq<Step>, n: nat, d: DeviceId)
    requires IsRun(p, trace, steps) && n < |steps| && steps[n] == RecoveryStart(d)
    ensures Started(p.health, trace[n], trace[n + 1], d)
  {
    var k := trace[n];
    RunValid(p, trace, steps, n);
    RunCounts(p, trace, steps, n, d);
    assert Enabled(p, k, RecoveryStart(d));
    RecoveryIsNotRetired(p.health, k.fleet, d, k.now);
    var f := WithHealth(k.fleet, d, Pruned(p.health, HealthOf(k.fleet.mon, d), k.now));
    FirstTurn(p.health, k, f, d, trace[n + 1].fleet);
  }
}
