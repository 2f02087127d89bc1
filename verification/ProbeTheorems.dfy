/** Quarantine by the sweep: exactly as many failures in a row as the policy says, counted
    over the whole run; and no probe starts on a device that a task has. */
module ProbeTheorems {
  import opened Tasks
  import opened Devices
  import opened Health
  import opened DeviceHistory
  import opened Kernel
  import opened DeviceTheorems

  /** Failed checks of d in the first n steps since the last one that succeeded, or the last
      adb recovery. */
  function FailuresInARow(steps: seq<Step>, d: DeviceId, n: nat): nat
    requires n <= |steps|
  {
    if n == 0 then 0
    else if steps[n - 1] == CheckEnd(d, Alive) || steps[n - 1] == RecoveryProbeEnd(d, Alive) then 0
    else FailuresInARow(steps, d, n - 1) + if steps[n - 1] == CheckEnd(d, Dead) then 1 else 0
  }

  function Failures(k: Kernel, d: DeviceId): nat {
    HealthOf(k.fleet.mon, d).consecutiveFailures
  }

  function FailuresAfter(was: nat, step: Step, d: DeviceId): nat {
    if step == CheckEnd(d, Alive) || step == RecoveryProbeEnd(d, Alive) then 0
    else if step == CheckEnd(d, Dead) then was + 1
    else was
  }

  lemma QuarantineFailures(f: Fleet, d: DeviceId, now: real, x: DeviceId)
    ensures HealthOf(Quarantine(f, d, now).mon, x).consecutiveFailures == HealthOf(f.mon, x).consecutiveFailures
  {
  }

  lemma CheckFailures(p: HealthPolicy, f: Fleet, d: DeviceId, result: Probe, now: real)
    requires d in f.reg.devices
    ensures
      var was := HealthOf(f.mon, d).consecutiveFailures;
      HealthOf(CheckDone(p, f, d, result, now).mon, d).consecutiveFailures
      == match result case Alive => 0 case Dead => was + 1 case Raised => was
  {
  }

  lemma RecoveryFailures(p: HealthPolicy, f: Fleet, d: DeviceId, attempt: nat, result: Probe, now: real)
    requires d in f.reg.devices
    ensures
      var was := HealthOf(f.mon, d).consecutiveFailures;
      && HealthOf(RecoveryBegun(p, f, d, now).mon, d).consecutiveFailures == was
      && HealthOf(AttemptBegun(p, f, d, attempt, now).mon, d).consecutiveFailures == was
      && HealthOf(ReconnectDone(p, f, d, attempt, result, now).mon, d).consecutiveFailures == was
      && HealthOf(RecoveryProbed(p, f, d, attempt, result, now).mon, d).consecutiveFailures
         == if result.Alive? then 0 else was
  {
  }

  lemma OwnFailures(p: Policy, k: Kernel, step: Step)
    requires Enabled(p, k, step)
    requires step.CheckStart? || step.CheckEnd? || step.RecoveryStart? || step.ReconnectEnd?
             || step.RecoveryProbeEnd? || step.RecoveryWake?
    ensures Failures(Apply(p, k, step), step.d) == FailuresAfter(Failures(k, step.d), step, step.d)
  {
    var f := k.fleet;
    match step
    case CheckStart(d) =>
    case CheckEnd(d, result) => CheckFailures(p.health, f, d, result, k.now);
    case RecoveryStart(d) => RecoveryFailures(p.health, f, d, 1, Dead, k.now);
    case ReconnectEnd(d, result) => RecoveryFailures(p.health, f, d, f.mon.recoveries[d].attempt, result, k.now);
    case RecoveryProbeEnd(d, result) => RecoveryFailures(p.health, f, d, f.mon.recoveries[d].attempt, result, k.now);
    case RecoveryWake(d) => RecoveryFailures(p.health, f, d, f.mon.recoveries[d].attempt + 1, Dead, k.now);
  }

  /** Nothing but a check or an adb recovery of the device touches its count. */
  lemma StepFailures(p: Policy, k: Kernel, step: Step, x: DeviceId)
    requires Enabled(p, k, step)
    ensures Failures(Apply(p, k, step), x) == FailuresAfter(Failures(k, x), step, x)
  {
    if step.Tick? || step.Refresh? || step.SweepStart? {
    } else if MonitorStep(step) {
      if step.d == x {
        OwnFailures(p, k, step);
      } else {
        FleetStepAbout(p, k, step, x);
        assert Locally(Apply(p, k, step).fleet, x).health == Locally(k.fleet, x).health;
      }
    } else if step.ExecutionEnd? {
      QuarantineFailures(k.fleet, k.fleet.reg.issued[k.sched.workers[step.w].lease].device, k.now, x);
    } else {
      WorkerInventory(p, k, step);
    }
  }

  lemma {:induction false} CounterIsHistory(p: Policy, trace: seq<Kernel>, steps: seq<Step>, n: nat, d: DeviceId)
    requires IsRun(p, trace, steps) && n < |trace|
    ensures Failures(trace[n], d) == FailuresInARow(steps, d, n)
  {
    if n > 0 {
      CounterIsHistory(p, trace, steps, n - 1, d);
      StepFailures(p, trace[n - 1], steps[n - 1], d);
    }
  }

  lemma CheckVerdict(p: HealthPolicy, f: Fleet, d: DeviceId, result: Probe, now: real)
    requires d in f.reg.devices
    ensures d in CheckDone(p, f, d, result, now).reg.devices
    ensures
      var was := StateOf(f, d);
      StateOf(CheckDone(p, f, d, result, now), d)
      == if was == Online && result.Dead? && HealthOf(f.mon, d).consecutiveFailures + 1 >= p.failuresToQuarantine
      then Quarantined
      else if was == Quarantined && result.Alive? then Online
      else was
  {
  }

  /** The end of a check pulls a device if and only if it is ONLINE and this is at least the
      configured number of failures in a row, counted over the run; it brings a device back if
      and only if it was quarantined and answered; and it changes nobody's state otherwise. */
  lemma SweepVerdict(p: Policy, trace: seq<Kernel>, steps: seq<Step>, n: nat, d: DeviceId, result: Probe)
    requires IsRun(p, trace, steps) && n < |steps| && steps[n] == CheckEnd(d, result)
    ensures d in trace[n].fleet.reg.devices && d in trace[n + 1].fleet.reg.devices
    ensures
      var (was, after) := (StateOf(trace[n].fleet, d), StateOf(trace[n + 1].fleet, d));
      && (after != was && after == Quarantined
          <==> was == Online && result.Dead? && FailuresInARow(steps, d, n + 1) >= p.health.failuresToQuarantine)
      && (after != was && after == Online <==> was == Quarantined && result.Alive?)
      && (after != was ==> after == Quarantined || after == Online)
  {
    var k := trace[n];
    assert Enabled(p, k, steps[n]);
    CounterIsHistory(p, trace, steps, n, d);
    CheckVerdict(p.health, k.fleet, d, result, k.now);
    assert trace[n + 1].fleet == CheckDone(p.health, k.fleet, d, result, k.now);
  }

  /** A sweep looks at exactly the devices that are ONLINE or QUARANTINED when it begins. */
  lemma SweepCovers(p: Policy, trace: seq<Kernel>, steps: seq<Step>, n: nat, d: DeviceId)
    requires IsRun(p, trace, steps) && n < |steps| && steps[n] == SweepStart
    ensures
      var (f, sweep) := (trace[n].fleet, trace[n + 1].fleet.mon.sweep);
      && (d in sweep <==> d in f.reg.devices && (StateOf(f, d) == Online || StateOf(f, d) == Quarantined))
      && (d in sweep ==> sweep[d] == Due)
  {
    assert trace[n + 1].fleet == SweepBegun(trace[n].fleet);
  }

  /** What a finished check publishes is the change of state it made; with it the device is done for
      this sweep; and no recovery begins or ends with it but after a failure. */
  lemma SweepPublishes(p: Policy, trace: seq<Kernel>, steps: seq<Step>, n: nat, d: DeviceId, result: Probe)
    requires IsRun(p, trace, steps) && n < |steps| && steps[n] == CheckEnd(d, result)
    ensures d in trace[n].fleet.reg.devices && d in trace[n + 1].fleet.reg.devices
    ensures
      var (f, g, now) := (trace[n].fleet, trace[n + 1].fleet, trace[n].now);
      && g.mon.sweep == f.mon.sweep - {d}
      && (!result.Dead? ==> g.mon.recoveries == f.mon.recoveries)
      && g.mon.log == f.mon.log + (if StateOf(g, d) == StateOf(f, d) then []
                                   else if StateOf(g, d) == Online then [Event(now, d, DeviceRestored(ProbeRecovered))]
                                   else [Event(now, d, DeviceQuarantined)])
  {
    assert Enabled(p, trace[n], steps[n]);
    assert trace[n + 1].fleet == CheckDone(p.health, trace[n].fleet, d, result, trace[n].now);
    CheckPublishes(p.health, trace[n].fleet, d, result, trace[n].now);
  }

  lemma CheckPublishes(p: HealthPolicy, f: Fleet, d: DeviceId, result: Probe, now: real)
    requires d in f.reg.devices
    ensures
      var g := CheckDone(p, f, d, result, now);
      && d in g.reg.devices && g.mon.sweep == f.mon.sweep - {d}
      && (!result.Dead? ==> g.mon.recoveries == f.mon.recoveries)
      && g.mon.log == f.mon.log + (if StateOf(g, d) == StateOf(f, d) then []
                                   else if StateOf(g, d) == Online then [Event(now, d, DeviceRestored(ProbeRecovered))]
                                   else [Event(now, d, DeviceQuarantined)])
  {
  }

  /** No probe of the sweep starts on a leased device. */
  lemma LeasedIsNotProbed(p: Policy, k: Kernel, d: DeviceId)
    requires Enabled(p, k, CheckStart(d))
    ensures
      var sweep := Apply(p, k, CheckStart(d)).fleet.mon.sweep;
      d in k.fleet.reg.leases <==> !(d in sweep && sweep[d].CheckProbing?)
  {
  }

  ghost predicate BeingProbed(k: Kernel, d: DeviceId) {
    d in k.fleet.mon.sweep && k.fleet.mon.sweep[d].CheckProbing?
  }

  lemma JudgingKeepsSweep(p: Policy, k: Kernel, step: Step)
    requires Enabled(p, k, step)
    requires step.RecoveryStart? || step.ReconnectEnd? || step.RecoveryProbeEnd? || step.RecoveryWake?
    ensures Apply(p, k, step).fleet.mon.sweep == k.fleet.mon.sweep
  {
  }

  lemma CheckDoneSweep(p: HealthPolicy, f: Fleet, d: DeviceId, result: Probe, now: real)
    requires d in f.reg.devices
    ensures CheckDone(p, f, d, result, now).mon.sweep == f.mon.sweep - {d}
  {
  }

  lemma OnlyStartProbes(p: Policy, k: Kernel, step: Step, d: DeviceId)
    requires Enabled(p, k, step) && BeingProbed(Apply(p, k, step), d) && !BeingProbed(k, d)
    ensures step == CheckStart(d) && d !in k.fleet.reg.leases
  {
    if step.RecoveryStart? || step.ReconnectEnd? || step.RecoveryProbeEnd? || step.RecoveryWake? {
      JudgingKeepsSweep(p, k, step);
    } else if step.CheckEnd? {
      CheckDoneSweep(p.health, k.fleet, step.d, step.result, k.now);
    } else if step.CheckStart? {
      LeasedIsNotProbed(p, k, step.d);
    } else if !step.SweepStart? {
      OthersKeepSweep(p, k, step);
    }
  }

  lemma OthersKeepSweep(p: Policy, k: Kernel, step: Step)
    requires Enabled(p, k, step) && (!MonitorStep(step) || step.Tick? || step.Refresh?)
    ensures Apply(p, k, step).fleet.mon.sweep == k.fleet.mon.sweep
  {
  }

  lemma RunStepProbes(p: Policy, trace: seq<Kernel>, steps: seq<Step>, m: nat, d: DeviceId)
    requires IsRun(p, trace, steps) && m < |steps| && BeingProbed(trace[m + 1], d) && !BeingProbed(trace[m], d)
    ensures steps[m] == CheckStart(d) && d !in trace[m].fleet.reg.leases
  {
    OnlyStartProbes(p, trace[m], steps[m], d);
  }

  ghost predicate ProbedSince(trace: seq<Kernel>, m: nat, n: nat, d: DeviceId) {
    forall i | m < i <= n && i < |trace| :: BeingProbed(trace[i], d)
  }

  /** A device that is being probed was free when the probe started: no sweep starts to probe a
      device a task has, in any run. */
  lemma {:induction false} ProbedWhileFree(p: Policy, trace: seq<Kernel>, steps: seq<Step>, n: nat, d: DeviceId)
    returns (m: nat)
    requires IsRun(p, trace, steps) && n < |trace| && BeingProbed(trace[n], d)
    ensures m < n && steps[m] == CheckStart(d) && d !in trace[m].fleet.reg.leases
    ensures ProbedSince(trace, m, n, d)
  {
    assert n > 0;
    if BeingProbed(trace[n - 1], d) {
      m := ProbedWhileFree(p, trace, steps, n - 1, d);
    } else {
      m := n - 1;
      RunStepProbes(p, trace, steps, m, d);
    }
  }
}
