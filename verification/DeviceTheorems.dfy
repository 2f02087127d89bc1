/** What every run promises about devices: verdicts stick, the stream tells them, flapping
    phones are retired, dead ones are retried ever more slowly. */
module DeviceTheorems {
  import opened Tasks
  import opened Devices
  import opened Health
  import opened DeviceHistory
  import opened FleetEffects
  import opened FleetProofs
  import opened RegistryEffects
  import opened Scheduler
  import opened Books
  import opened Kernel
  import opened KernelProofs

  // ---------- the log only grows ----------

  ghost predicate Extends(log: seq<Event>, log': seq<Event>) {
    |log| <= |log'| && log'[..|log|] == log
  }

  lemma MonitorExtendsLog(p: Policy, k: Kernel, step: Step)
    requires Enabled(p, k, step) && MonitorStep(step)
    ensures Extends(k.fleet.mon.log, Apply(p, k, step).fleet.mon.log)
  {
  }

  lemma QuarantineExtendsLog(f: Fleet, d: DeviceId, now: real)
    ensures Extends(f.mon.log, Quarantine(f, d, now).mon.log)
  {
  }

  lemma StepExtendsLog(p: Policy, k: Kernel, step: Step)
    requires Enabled(p, k, step)
    ensures Extends(k.fleet.mon.log, Apply(p, k, step).fleet.mon.log)
  {
    if MonitorStep(step) {
      MonitorExtendsLog(p, k, step);
    } else if step.ExecutionEnd? {
      QuarantineExtendsLog(k.fleet, k.fleet.reg.issued[k.sched.workers[step.w].lease].device, k.now);
    } else {
      WorkerInventory(p, k, step);
    }
  }

  lemma ExtendsTwice(a: seq<Event>, b: seq<Event>, c: seq<Event>)
    requires Extends(a, b) && Extends(b, c)
    ensures Extends(a, c)
  {
    assert c[..|b|][..|a|] == c[..|a|];
  }

  lemma RunStepExtendsLog(p: Policy, trace: seq<Kernel>, steps: seq<Step>, i: nat)
    requires IsRun(p, trace, steps) && i < |steps|
    ensures Extends(trace[i].fleet.mon.log, trace[i + 1].fleet.mon.log)
  {
    StepExtendsLog(p, trace[i], steps[i]);
  }

  lemma {:induction false} RunExtendsLog(p: Policy, trace: seq<Kernel>, steps: seq<Step>, m: nat, n: nat)
    requires IsRun(p, trace, steps) && m <= n < |trace|
    ensures Extends(trace[m].fleet.mon.log, trace[n].fleet.mon.log)
  {
    if m < n {
      RunExtendsLog(p, trace, steps, m, n - 1);
      RunStepExtendsLog(p, trace, steps, n - 1);
      ExtendsTwice(trace[m].fleet.mon.log, trace[n - 1].fleet.mon.log, trace[n].fleet.mon.log);
    }
  }

  lemma {:induction false} LogOfExtends(log: seq<Event>, log': seq<Event>, d: DeviceId)
    requires Extends(log, log')
    ensures Extends(LogOf(log, d), LogOf(log', d))
    ensures forall i | |LogOf(log, d)| <= i < |LogOf(log', d)| ::
              exists j :: |log| <= j < |log'| && log'[j] == LogOf(log', d)[i]
    decreases |log'|
  {
    if |log'| > |log| {
      var n := |log'| - 1;
      LogOfExtends(log, log'[..n], d);
      assert log' == log'[..n] + [log'[n]];
      LogOfAppend(log'[..n], log'[n], d);
      forall i | |LogOf(log, d)| <= i < |LogOf(log', d)|
        ensures exists j :: |log| <= j < |log'| && log'[j] == LogOf(log', d)[i]
      {
        if i < |LogOf(log'[..n], d)| {
          var j :| |log| <= j < n && log'[..n][j] == LogOf(log'[..n], d)[i];
          assert log'[j] == LogOf(log', d)[i];
        } else {
          assert log'[n] == LogOf(log', d)[i];
        }
      }
    } else {
      assert log' == log;
    }
  }

  // ---------- verdicts stick until a restore is published ----------

  lemma {:induction false} NoRestoreNoReturn(log: seq<Event>, log': seq<Event>, born: Standing)
    requires Extends(log, log') && Published(log, born) != InPool
    requires forall i | |log| <= i < |log'| :: !IsRestored(log'[i])
    ensures Published(log', born) != InPool
    decreases |log'|
  {
    if |log'| > |log| {
      NoRestoreNoReturn(log, log'[..|log'| - 1], born);
    } else {
      assert log' == log;
    }
  }

  lemma MonitorKept(p: Policy, k: Kernel, step: Step)
    requires Enabled(p, k, step) && MonitorStep(step) && !step.Refresh?
    ensures Kept(k.fleet.reg, Apply(p, k, step).fleet.reg)
  {
    if step.CheckEnd? {
      CheckDoneKept(p.health, k.fleet, step.d, step.result, k.now);
    } else if step.RecoveryStart? {
      RecoveryBegunKept(p.health, k.fleet, step.d, k.now);
    } else if step.ReconnectEnd? || step.RecoveryProbeEnd? {
      ReconnectDoneKept(p.health, k.fleet, step.d, k.fleet.mon.recoveries[step.d].attempt, step.result, k.now);
      KeptSelf(k.fleet.reg);
    } else if step.RecoveryWake? {
      AttemptKept(p.health, k.fleet, step.d, k.fleet.mon.recoveries[step.d].attempt + 1, k.now);
      KeptSelf(k.fleet.reg);
    } else {
      KeptSelf(k.fleet.reg);
    }
  }

  ghost predicate SameDevices(f: Fleet, g: Fleet) {
    g.reg.devices == f.reg.devices && g.reg.born == f.reg.born && g.mon == f.mon
  }

  lemma AcquireInventory(p: Policy, k: Kernel, w: nat, id: TaskId, deadline: Option<real>, token: nat, draw: real)
    requires w < |k.sched.workers| && id in k.sched.records
    ensures SameDevices(k.fleet, AcquireFor(p, k, w, id, deadline, token, draw).fleet)
  {
  }

  lemma WorkerInventory(p: Policy, k: Kernel, step: Step)
    requires Enabled(p, k, step) && !MonitorStep(step) && !step.ExecutionEnd?
    ensures SameDevices(k.fleet, Apply(p, k, step).fleet)
  {
    match step
    case Take(w, token, draw) =>
      var taken := k.(sched := Dequeued(k.sched, w));
      if k.sched.queue[0].Some? && !Skippable(taken.sched, k.sched.queue[0].value) {
        AcquireInventory(p, taken, w, k.sched.queue[0].value, Deadline(p, k.now), token, draw);
      }
    case WaiterWake(w, token, draw) =>
      AcquireInventory(p, WithReg(k, Unparked(k.fleet.reg, w)), w, k.sched.workers[w].task,
                       k.fleet.reg.waiters[w].deadline, token, draw);
    case _ =>
  }

  /** Only `refresh` changes what the fleet consists of. */
  lemma InventoryKept(p: Policy, k: Kernel, step: Step)
    requires Enabled(p, k, step) && !step.Refresh?
    ensures SameInventory(k.fleet.reg, Apply(p, k, step).fleet.reg)
  {
    if MonitorStep(step) {
      MonitorKept(p, k, step);
    } else if step.ExecutionEnd? {
      QuarantineKept(k.fleet, k.fleet.reg.issued[k.sched.workers[step.w].lease].device, k.now);
    } else {
      WorkerInventory(p, k, step);
    }
  }

  lemma StepKeepsDevices(p: Policy, k: Kernel, step: Step, d: DeviceId)
    requires Enabled(p, k, step) && d in k.fleet.reg.devices && d in k.fleet.reg.born
    ensures d in Apply(p, k, step).fleet.reg.devices
    ensures d in Apply(p, k, step).fleet.reg.born && Apply(p, k, step).fleet.reg.born[d] == k.fleet.reg.born[d]
  {
    if !step.Refresh? {
      InventoryKept(p, k, step);
    }
  }

  lemma {:induction false} RunKeepsDevices(p: Policy, trace: seq<Kernel>, steps: seq<Step>, m: nat, n: nat, d: DeviceId)
    requires IsRun(p, trace, steps) && m <= n < |trace| && d in trace[m].fleet.reg.devices
    ensures d in trace[n].fleet.reg.devices
    ensures d in trace[m].fleet.reg.born && d in trace[n].fleet.reg.born
    ensures trace[n].fleet.reg.born[d] == trace[m].fleet.reg.born[d]
  {
    RunValid(p, trace, steps, m);
    if m < n {
      RunKeepsDevices(p, trace, steps, m, n - 1, d);
      StepKeepsDevices(p, trace[n - 1], steps[n - 1], d);
    }
  }

  ghost predicate RestoredBetween(k: Kernel, k': Kernel, d: DeviceId) {
    exists i :: |k.fleet.mon.log| <= i < |k'.fleet.mon.log|
                && k'.fleet.mon.log[i].device == d && IsRestored(k'.fleet.mon.log[i])
  }

  lemma {:induction false} LogOfIsOwn(log: seq<Event>, d: DeviceId)
    ensures forall i | 0 <= i < |LogOf(log, d)| :: LogOf(log, d)[i].device == d
  {
    if log != [] {
      LogOfIsOwn(log[..|log| - 1], d);
    }
  }

  /** A pulled device stays pulled, in every later state, until its restore is published. */
  lemma PulledUntilRestored(p: Policy, trace: seq<Kernel>, steps: seq<Step>, m: nat, n: nat, d: DeviceId)
    requires IsRun(p, trace, steps) && m <= n < |trace|
    requires d in trace[m].fleet.reg.devices && Pulled(StateOf(trace[m].fleet, d))
    requires !RestoredBetween(trace[m], trace[n], d)
    ensures d in trace[n].fleet.reg.devices && Pulled(StateOf(trace[n].fleet, d))
  {
    RunValid(p, trace, steps, m);
    RunValid(p, trace, steps, n);
    RunKeepsDevices(p, trace, steps, m, n, d);
    RunExtendsLog(p, trace, steps, m, n);
    var log, log' := trace[m].fleet.mon.log, trace[n].fleet.mon.log;
    LogOfExtends(log, log', d);
    LogOfIsOwn(log', d);
    var born := StandingOf(trace[m].fleet.reg.born[d].state);
    assert LocalValid(p.health, Locally(trace[m].fleet, d), trace[m].now);
    assert LocalValid(p.health, Locally(trace[n].fleet, d), trace[n].now);
    NoRestoreNoReturn(LogOf(log, d), LogOf(log', d), born);
  }

  /** A lease on `d` is granted by this step. */
  ghost predicate Grants(k: Kernel, k': Kernel, d: DeviceId) {
    |k'.fleet.reg.issued| > |k.fleet.reg.issued| && k'.fleet.reg.issued[|k.fleet.reg.issued|].device == d
  }

  lemma AcquireGrants(p: Policy, k: Kernel, w: nat, id: TaskId, deadline: Option<real>, token: nat, draw: real,
      d: DeviceId)
    requires w < |k.sched.workers| && id in k.sched.records
    requires Grants(k, AcquireFor(p, k, w, id, deadline, token, draw), d)
    ensures d in k.fleet.reg.devices && StateOf(k.fleet, d) == Online && d !in k.fleet.reg.leases
  {
    var sel := k.sched.records[id].spec.selector;
    assert FindFree(k.fleet.reg, sel).Some? && Free(k.fleet.reg, FindFree(k.fleet.reg, sel).value, sel);
  }

  lemma OnlyAcquireGrants(p: Policy, k: Kernel, step: Step)
    requires Enabled(p, k, step) && !step.Take? && !step.WaiterWake?
    ensures |Apply(p, k, step).fleet.reg.issued| == |k.fleet.reg.issued|
  {
    if MonitorStep(step) && !step.Refresh? {
      MonitorKept(p, k, step);
    } else if step.ExecutionEnd? {
      QuarantineKept(k.fleet, k.fleet.reg.issued[k.sched.workers[step.w].lease].device, k.now);
    }
  }

  lemma GrantsOnlyOnline(p: Policy, k: Kernel, step: Step, d: DeviceId)
    requires Enabled(p, k, step) && Grants(k, Apply(p, k, step), d)
    ensures step.Take? || step.WaiterWake?
    ensures d in k.fleet.reg.devices && StateOf(k.fleet, d) == Online && d !in k.fleet.reg.leases
  {
    if step.Take? {
      var taken := k.(sched := Dequeued(k.sched, step.w));
      AcquireGrants(p, taken, step.w, k.sched.queue[0].value, Deadline(p, k.now), step.token, step.draw, d);
    } else if step.WaiterWake? {
      AcquireGrants(p, WithReg(k, Unparked(k.fleet.reg, step.w)), step.w, k.sched.workers[step.w].task,
                    k.fleet.reg.waiters[step.w].deadline, step.token, step.draw, d);
    } else {
      OnlyAcquireGrants(p, k, step);
    }
  }

  /** The device a worker is executing on. */
  ghost function DeviceOf(k: Kernel, w: nat): DeviceId
    requires w < |k.sched.workers| && k.sched.workers[w].Executing?
    requires k.sched.workers[w].lease < |k.fleet.reg.issued|
  {
    k.fleet.reg.issued[k.sched.workers[w].lease].device
  }

  lemma ExecutesOnLeased(p: Policy, k: Kernel, w: nat)
    requires KernelValid(p, k) && w < |k.sched.workers| && k.sched.workers[w].Executing?
    requires k.sched.workers[w].lease < |k.fleet.reg.issued|
    ensures DeviceOf(k, w) in k.fleet.reg.leases && DeviceOf(k, w) in k.fleet.reg.devices
  {
    assert Holds(k.sched, w, k.sched.workers[w].lease);
  }

  lemma BlameVerdict(k: Kernel, d: DeviceId, o: Outcome)
    requires IsFailure(o) && Blames(o) && d in k.fleet.reg.devices
    ensures d in Blamed(k, d, o).reg.devices
    ensures StateOf(Blamed(k, d, o), d) == if StateOf(k.fleet, d) == Online then Quarantined else StateOf(k.fleet, d)
  {
    if StateOf(k.fleet, d) == Online {
      QuarantineEffect(k.fleet, d, k.now);
    }
  }

  /** A blamed failure takes its device out of the pool unless the device is OFFLINE or
      UNAUTHORIZED when the failure is handled, as a poll may have found it while the task ran. */
  lemma BlamePulls(p: Policy, trace: seq<Kernel>, steps: seq<Step>, n: nat, w: nat, o: Outcome)
    requires IsRun(p, trace, steps) && n < |steps| && steps[n] == ExecutionEnd(w, o) && Enabled(p, trace[n], steps[n])
    requires IsFailure(o) && Blames(o)
    ensures
      var d := DeviceOf(trace[n], w);
      && d in trace[n].fleet.reg.devices && d in trace[n + 1].fleet.reg.devices
      && (Pulled(StateOf(trace[n + 1].fleet, d)) <==> StateOf(trace[n].fleet, d) !in {Offline, Unauthorized})
  {
    RunValid(p, trace, steps, n);
    ExecutesOnLeased(p, trace[n], w);
    BlameVerdict(trace[n], DeviceOf(trace[n], w), o);
    assert trace[n + 1].fleet == Blamed(trace[n], DeviceOf(trace[n], w), o);
  }

  lemma BlamedStaysLeased(p: Policy, trace: seq<Kernel>, steps: seq<Step>, n: nat, w: nat, o: Outcome)
    requires IsRun(p, trace, steps) && n < |steps| && steps[n] == ExecutionEnd(w, o) && Enabled(p, trace[n], steps[n])
    ensures DeviceOf(trace[n], w) in trace[n + 1].fleet.reg.leases
  {
    RunValid(p, trace, steps, n);
    ExecutesOnLeased(p, trace[n], w);
    assert trace[n + 1].fleet == Blamed(trace[n], DeviceOf(trace[n], w), o);
    QuarantineKept(trace[n].fleet, DeviceOf(trace[n], w), trace[n].now);
  }

  /** A blamed device that is not OFFLINE or UNAUTHORIZED when its failure is handled is out of the
      pool before its lease is given back, and no step of any coroutine leases it again until its
      restore has been published. */
  lemma BlamedIsNotLeasedAgain(p: Policy, trace: seq<Kernel>, steps: seq<Step>, m: nat, n: nat, w: nat, o: Outcome)
    requires IsRun(p, trace, steps) && m < n < |steps|
    requires steps[m] == ExecutionEnd(w, o) && IsFailure(o) && Blames(o) && Enabled(p, trace[m], steps[m])
    requires
      var d := DeviceOf(trace[m], w);
      d in trace[m].fleet.reg.devices && StateOf(trace[m].fleet, d) !in {Offline, Unauthorized}
      && !RestoredBetween(trace[m + 1], trace[n], d)
    ensures
      var d := DeviceOf(trace[m], w);
      && d in trace[m + 1].fleet.reg.leases
      && d in trace[n].fleet.reg.devices && Pulled(StateOf(trace[n].fleet, d))
      && !Grants(trace[n], trace[n + 1], d)
  {
    var d := DeviceOf(trace[m], w);
    BlamePulls(p, trace, steps, m, w, o);
    BlamedStaysLeased(p, trace, steps, m, w, o);
    PulledUntilRestored(p, trace, steps, m + 1, n, d);
    if Grants(trace[n], trace[n + 1], d) {
      GrantsOnlyOnline(p, trace[n], steps[n], d);
    }
  }

  // ---------- RETIRED ----------

  lemma FleetStepAbout(p: Policy, k: Kernel, step: Step, x: DeviceId)
    requires Enabled(p, k, step)
    requires step.CheckStart? || step.CheckEnd? || step.RecoveryStart? || step.ReconnectEnd?
             || step.RecoveryProbeEnd? || step.RecoveryWake?
    requires x != step.d
    ensures Locally(Apply(p, k, step).fleet, x) == Locally(k.fleet, x)
  {
    var f := k.fleet;
    match step
    case CheckStart(d) =>
    case CheckEnd(d, result) => CheckDoneEffect(p.health, f, d, result, k.now);
    case RecoveryStart(d) => RecoveryBegunEffect(p.health, f, d, k.now);
    case ReconnectEnd(d, result) =>
      ReconnectDoneEffect(p.health, f, d, f.mon.recoveries[d].attempt, result, k.now);
    case RecoveryProbeEnd(d, result) =>
      ReconnectDoneEffect(p.health, f, d, f.mon.recoveries[d].attempt, result, k.now);
    case RecoveryWake(d) => AttemptBegunEffect(p.health, f, d, f.mon.recoveries[d].attempt + 1, k.now);
  }

  ghost predicate IsRetired(f: Fleet, d: DeviceId) {
    d in f.reg.devices && StateOf(f, d) == Retired
  }

  /** What makes the unchecked restores harmless: a retired device has no recovery under way. */
  lemma RetiredHasNoRecovery(p: Policy, k: Kernel, d: DeviceId)
    requires KernelValid(p, k) && IsRetired(k.fleet, d)
    ensures d !in k.fleet.mon.recoveries
  {
    assert LocalValid(p.health, Locally(k.fleet, d), k.now);
  }

  lemma MonitorLeavesRetired(p: Policy, k: Kernel, step: Step, d: DeviceId)
    requires Enabled(p, k, step) && MonitorStep(step)
    requires IsRetired(k.fleet, d) && d !in k.fleet.mon.recoveries
    ensures IsRetired(Apply(p, k, step).fleet, d)
  {
    if !step.Tick? && !step.Refresh? && !step.SweepStart? && step.d != d {
      FleetStepAbout(p, k, step, d);
      assert Locally(Apply(p, k, step).fleet, d).dev == Locally(k.fleet, d).dev;
    }
  }

  lemma BlameLeavesRetired(k: Kernel, x: DeviceId, o: Outcome, d: DeviceId)
    requires IsRetired(k.fleet, d)
    ensures IsRetired(Blamed(k, x, o), d)
  {
    if Blamed(k, x, o) != k.fleet {
      QuarantineEffect(k.fleet, x, k.now);
      assert Locally(Quarantine(k.fleet, x, k.now), d).dev == Locally(k.fleet, d).dev;
    }
  }

  /** No sweep, recovery, task failure or poll leaves RETIRED. */
  lemma RetiredStays(p: Policy, k: Kernel, step: Step, d: DeviceId)
    requires KernelValid(p, k) && Enabled(p, k, step) && IsRetired(k.fleet, d)
    ensures IsRetired(Apply(p, k, step).fleet, d)
  {
    RetiredHasNoRecovery(p, k, d);
    if MonitorStep(step) {
      MonitorLeavesRetired(p, k, step, d);
    } else if step.ExecutionEnd? {
      BlameLeavesRetired(k, k.fleet.reg.issued[k.sched.workers[step.w].lease].device, step.outcome, d);
    } else {
      WorkerInventory(p, k, step);
    }
  }

  /** Retirement is for good: only a human ends it. */
  lemma {:induction false} RetiredForever(p: Policy, trace: seq<Kernel>, steps: seq<Step>, m: nat, n: nat, d: DeviceId)
    requires IsRun(p, trace, steps) && m <= n < |trace|
    requires IsRetired(trace[m].fleet, d)
    ensures IsRetired(trace[n].fleet, d)
  {
    if m < n {
      RetiredForever(p, trace, steps, m, n - 1, d);
      RunValid(p, trace, steps, n - 1);
      RetiredStays(p, trace[n - 1], steps[n - 1], d);
    }
  }

  // ---------- the event stream ----------

  /** The device's own events, read from its first sighting, say where it stands. */
  ghost predicate Told(f: Fleet, d: DeviceId)
    requires d in f.reg.devices && d in f.reg.born
  {
    var log := LogOf(f.mon.log, d);
    var born := StandingOf(f.reg.born[d].state);
    && (StateOf(f, d) == Quarantined <==> Published(log, born) == InQuarantine)
    && (StateOf(f, d) == Retired <==> Published(log, born) == Gone)
    && Honest(log, born)
    && f.reg.devices[d].recoveries == f.reg.born[d].recoveries + |RecTimes(log)|
  }

  lemma StandingIsTold(l: Local)
    requires StandingValid(l)
    ensures l.dev.value.state == Quarantined <==> Published(l.log, StandingOf(l.born.value.state)) == InQuarantine
    ensures l.dev.value.state == Retired <==> Published(l.log, StandingOf(l.born.value.state)) == Gone
  {
  }

  lemma FleetIsTold(p: HealthPolicy, f: Fleet, d: DeviceId, now: real)
    requires FleetValid(p, f, now) && d in f.reg.devices
    ensures d in f.reg.born && Told(f, d)
  {
    assert LocalValid(p, Locally(f, d), now);
    StandingIsTold(Locally(f, d));
  }

  /** In every state of every run the published events tell where a device stands; failures
      are only published of a device the stream shows in quarantine; and the lifetime count
      is the number of adb recoveries published. */
  lemma StreamIsFaithful(p: Policy, trace: seq<Kernel>, steps: seq<Step>, n: nat, d: DeviceId)
    requires IsRun(p, trace, steps) && n < |trace| && d in trace[n].fleet.reg.devices
    ensures d in trace[n].fleet.reg.born && Told(trace[n].fleet, d)
  {
    RunValid(p, trace, steps, n);
    FleetIsTold(p.health, trace[n].fleet, d, trace[n].now);
  }

  lemma StepKeepsIdentity(p: Policy, k: Kernel, step: Step, d: DeviceId)
    requires Enabled(p, k, step) && d in k.fleet.reg.devices
    ensures
      var r := Apply(p, k, step).fleet.reg;
      d in r.devices && r.devices[d].id == k.fleet.reg.devices[d].id
      && r.devices[d].transport == k.fleet.reg.devices[d].transport
  {
    if step.Refresh? {
      FlapKeepsHistory(k.fleet.reg, step.keys, step.found, d);
    } else {
      InventoryKept(p, k, step);
    }
  }

  lemma {:induction false} RunKeepsIdentity(p: Policy, trace: seq<Kernel>, steps: seq<Step>, m: nat, n: nat,
      d: DeviceId)
    requires IsRun(p, trace, steps) && m <= n < |trace| && d in trace[m].fleet.reg.devices
    ensures
      d in trace[n].fleet.reg.devices
      && trace[n].fleet.reg.devices[d].id == trace[m].fleet.reg.devices[d].id
      && trace[n].fleet.reg.devices[d].transport == trace[m].fleet.reg.devices[d].transport
  {
    if m < n {
      RunKeepsIdentity(p, trace, steps, m, n - 1, d);
      StepKeepsIdentity(p, trace[n - 1], steps[n - 1], d);
    }
  }

  /** However often a phone drops off the bus and comes back, it is never forgotten, and never a
      fresh device: identity and transport stay, and its count of recoveries grows by those
      published in between. */
  lemma FlappingKeepsHistory(p: Policy, trace: seq<Kernel>, steps: seq<Step>, m: nat, n: nat, d: DeviceId)
    requires IsRun(p, trace, steps) && m <= n < |trace| && d in trace[m].fleet.reg.devices
    ensures
      d in trace[n].fleet.reg.devices
      && var (was, after) := (trace[m].fleet.reg.devices[d], trace[n].fleet.reg.devices[d]);
      && after.id == was.id && after.transport == was.transport
      && after.recoveries - was.recoveries
         == |RecTimes(LogOf(trace[n].fleet.mon.log, d))| - |RecTimes(LogOf(trace[m].fleet.mon.log, d))|
  {
    RunKeepsIdentity(p, trace, steps, m, n, d);
    RunKeepsDevices(p, trace, steps, m, n, d);
    StreamIsFaithful(p, trace, steps, m, d);
    StreamIsFaithful(p, trace, steps, n, d);
  }

  /** For a device first seen healthy: it is quarantined, or retired, exactly when that was
      the last verdict published. */
  lemma LastVerdictTells(p: Policy, trace: seq<Kernel>, steps: seq<Step>, n: nat, d: DeviceId, i: nat)
    requires IsRun(p, trace, steps) && n < |trace| && d in trace[n].fleet.reg.devices
    requires
      var log := LogOf(trace[n].fleet.mon.log, d);
      && i < |log| && !IsFailed(log[i]) && forall j | i < j < |log| :: IsFailed(log[j])
    ensures
      var last := LogOf(trace[n].fleet.mon.log, d)[i].notice;
      && (StateOf(trace[n].fleet, d) == Quarantined <==> last.DeviceQuarantined?)
      && (StateOf(trace[n].fleet, d) == Retired <==> last.DeviceRetired?)
  {
    StreamIsFaithful(p, trace, steps, n, d);
    PublishedByLast(LogOf(trace[n].fleet.mon.log, d), StandingOf(trace[n].fleet.reg.born[d].state), i);
  }

  lemma {:induction false} PublishedByLast(log: seq<Event>, born: Standing, i: nat)
    requires i < |log| && !IsFailed(log[i]) && forall j | i < j < |log| :: IsFailed(log[j])
    ensures Published(log, born) == match log[i].notice
                                    case DeviceQuarantined => InQuarantine
                                    case DeviceRestored(_) => InPool
                                    case _ => Gone
    decreases |log|
  {
    if i + 1 < |log| {
      assert IsFailed(log[|log| - 1]);
      PublishedByLast(log[..|log| - 1], born, i);
    }
  }

  /** A poll keeps stream and registry together exactly when it reports no verdict of its own. */
  lemma PollKeepsStream(r: Registry, keys: seq<DeviceId>, found: map<DeviceId, Device>, d: DeviceId)
    requires InventoryValid(r) && IsPoll(keys, found) && d in r.devices
    ensures StandingOf(Reconciled(r, keys, found).devices[d].state) == StandingOf(r.devices[d].state)
            <==> (d in found && Pulled(found[d].state) ==> Pulled(r.devices[d].state))
  {
  }
}
