/** Registry, monitor and scheduler as one transition system. A step is the code a coroutine
    runs between two suspension points, or a shorter piece of it. */
module Kernel {
  import opened Tasks
  import opened Devices
  import opened Health
  import opened Scheduler

  datatype Policy = Policy(health: HealthPolicy, sched: SchedulerPolicy)

  datatype Kernel = Kernel(fleet: Fleet, sched: Sched, now: real)

  datatype Step =
    | Tick(to: real)
    | Refresh(keys: seq<DeviceId>, found: map<DeviceId, Device>)
    | SweepStart
    | CheckStart(d: DeviceId)
    | CheckEnd(d: DeviceId, result: Probe)
    | RecoveryStart(d: DeviceId)
    | ReconnectEnd(d: DeviceId, result: Probe)
    | RecoveryProbeEnd(d: DeviceId, result: Probe)
    | RecoveryWake(d: DeviceId)
    | Submit(spec: TaskSpec)
    | Start
    | Stop
    | DrainCall(k: nat)
    | DrainReturn(k: nat, quiet: bool)
    | Take(w: nat, token: nat, draw: real)
    | WaiterWake(w: nat, token: nat, draw: real)
    | WaiterTimeout(w: nat, draw: real)
    | ExecutionEnd(w: nat, outcome: Outcome)
    | FailureRequeue(w: nat, draw: real)
    | LeaseReturn(w: nat)
    | WorkerTail(w: nat)
    | RetryFire(i: nat)

  function Init(now: real): Kernel {
    Kernel(Fleet(EMPTY_REGISTRY, EMPTY_MONITOR), EMPTY_SCHED, now)
  }

  function WithReg(k: Kernel, r: Registry): Kernel {
    k.(fleet := k.fleet.(reg := r))
  }

  /** The rest of a worker's turn once `acquire` has run as far as it can. */
  function AfterAcquire(p: Policy, k: Kernel, w: nat, id: TaskId, result: Acquired, draw: real): Kernel
    requires w < |k.sched.workers| && id in k.sched.records
    requires result.Granted? ==> result.handle < |k.fleet.reg.issued|
  {
    match result
    case Granted(h) => k.(sched := AttemptStarted(k.sched, w, id, h, k.fleet.reg.issued[h].device))
    case Parked => k
    case GaveUp => k.(sched := LeaseTimedOut(p.sched, k.sched, w, id, k.now, draw))
  }

  function AcquireFor(p: Policy, k: Kernel, w: nat, id: TaskId, deadline: Option<real>, token: nat, draw: real): Kernel
    requires w < |k.sched.workers| && id in k.sched.records
  {
    var (r, result) := TryAcquire(k.fleet.reg, w, k.sched.records[id].spec.selector, deadline, k.now, token);
    AfterAcquire(p, WithReg(k, r), w, id, result, draw)
  }

  function Deadline(p: Policy, now: real): Option<real> {
    match p.sched.leaseTimeout
    case None => None
    case Some(t) => Some(now + t)
  }

  /** `_run_once` up to its first suspension. */
  function RunOnce(p: Policy, k: Kernel, w: nat, id: TaskId, token: nat, draw: real): Kernel
    requires w < |k.sched.workers|
  {
    if Skippable(k.sched, id) then k.(sched := Skipped(k.sched, w, id))
    else if !CouldEverMatch(k.fleet.reg, k.sched.records[id].spec.selector) then
      k.(sched := AbandonedAt(k.sched, w, id))
    else AcquireFor(p, k, w, id, Deadline(p, k.now), token, draw)
  }

  function TakeNext(p: Policy, k: Kernel, w: nat, token: nat, draw: real): Kernel
    requires w < |k.sched.workers| && k.sched.queue != []
  {
    var taken := k.(sched := Dequeued(k.sched, w));
    match k.sched.queue[0]
    case None => taken
    case Some(id) => RunOnce(p, taken, w, id, token, draw)
  }

  /** The failure handler up to the requeue: quarantine, if this is the device's fault
      and nobody has already passed a verdict on it. */
  function Blamed(k: Kernel, d: DeviceId, o: Outcome): Fleet {
    if IsFailure(o) && Blames(o) && d in k.fleet.reg.devices && StateOf(k.fleet, d) == Online
    then Quarantine(k.fleet, d, k.now)
    else k.fleet
  }

  predicate WorkerAt(k: Kernel, w: nat) {
    w < |k.sched.workers|
  }

  predicate DrawnWithin(p: Policy, k: Kernel, id: TaskId, draw: real) {
    id in k.sched.records ==>
      var range := JitterRange(BackoffRaw(p.sched, |k.sched.records[id].attempts|), p.sched.retryJitter);
      -range <= draw <= range || range <= draw <= -range
  }

  /** When a step can be taken. The constants of randomness and time are inputs. */
  ghost predicate Enabled(p: Policy, k: Kernel, step: Step) {
    var reg, mon, s := k.fleet.reg, k.fleet.mon, k.sched;
    match step
    case Tick(to) => k.now <= to
    case Refresh(keys, found) => IsPoll(keys, found) && PollSane(reg, found)
    case SweepStart => mon.sweep == map[]
    case CheckStart(d) => d in reg.devices && d in mon.sweep && mon.sweep[d].Due?
    case CheckEnd(d, result) => d in reg.devices && d in mon.sweep && mon.sweep[d].CheckProbing?
    case RecoveryStart(d) => d in reg.devices && d in mon.recoveries && mon.recoveries[d].Spawned?
    case ReconnectEnd(d, result) => d in reg.devices && d in mon.recoveries && mon.recoveries[d].Reconnecting?
    case RecoveryProbeEnd(d, result) => d in reg.devices && d in mon.recoveries && mon.recoveries[d].Probing?
    case RecoveryWake(d) =>
      d in reg.devices && d in mon.recoveries && mon.recoveries[d].Sleeping? && mon.recoveries[d].until <= k.now
    case Submit(spec) => spec.id !in s.records
    case Start => s.workers == []
    case Stop => true
    case DrainCall(n) => n !in s.drains
    case DrainReturn(n, quiet) => n in s.drains && (quiet ==> s.drains[n].woken)
    case Take(w, token, draw) =>
      WorkerAt(k, w) && s.workers[w].Idle? && s.queue != []
      && (s.queue[0].Some? ==> DrawnWithin(p, k, s.queue[0].value, draw))
    case WaiterWake(w, token, draw) =>
      WorkerAt(k, w) && s.workers[w].Acquiring? && s.workers[w].task in s.records
      && w in reg.waiters && reg.waiters[w].notified && DrawnWithin(p, k, s.workers[w].task, draw)
    case WaiterTimeout(w, draw) =>
      WorkerAt(k, w) && s.workers[w].Acquiring? && s.workers[w].task in s.records
      && w in reg.waiters && reg.waiters[w].deadline.Some? && reg.waiters[w].deadline.value <= k.now
      && DrawnWithin(p, k, s.workers[w].task, draw)
    case ExecutionEnd(w, outcome) =>
      WorkerAt(k, w) && s.workers[w].Executing? && s.workers[w].task in s.records
      && s.workers[w].lease < |reg.issued|
    case FailureRequeue(w, draw) =>
      WorkerAt(k, w) && s.workers[w].Failing? && s.workers[w].task in s.records
      && DrawnWithin(p, k, s.workers[w].task, draw)
    case LeaseReturn(w) => WorkerAt(k, w) && s.workers[w].Releasing? && s.workers[w].lease < |reg.issued|
    case WorkerTail(w) => WorkerAt(k, w) && s.workers[w].Tail?
    case RetryFire(i) => i < |s.retries| && s.retries[i].due <= k.now
  }

  ghost function Apply(p: Policy, k: Kernel, step: Step): Kernel
    requires Enabled(p, k, step)
  {
    var f, s := k.fleet, k.sched;
    match step
    case Tick(to) => k.(now := to)
    case Refresh(keys, found) => WithReg(k, Reconciled(f.reg, keys, found))
    case SweepStart => k.(fleet := SweepBegun(f))
    case CheckStart(d) => k.(fleet := CheckBegun(f, d))
    case CheckEnd(d, result) => k.(fleet := CheckDone(p.health, f, d, result, k.now))
    case RecoveryStart(d) => k.(fleet := RecoveryBegun(p.health, f, d, k.now))
    case ReconnectEnd(d, result) =>
      k.(fleet := ReconnectDone(p.health, f, d, f.mon.recoveries[d].attempt, result, k.now))
    case RecoveryProbeEnd(d, result) =>
      k.(fleet := RecoveryProbed(p.health, f, d, f.mon.recoveries[d].attempt, result, k.now))
    case RecoveryWake(d) => k.(fleet := AttemptBegun(p.health, f, d, f.mon.recoveries[d].attempt + 1, k.now))
    case Submit(spec) => k.(sched := Submitted(p.sched, s, spec))
    case Start => k.(sched := Started(p.sched, s))
    case Stop => k.(sched := StopAsked(s))
    case DrainCall(n) => k.(sched := DrainBegun(s, n))
    case DrainReturn(n, _) => k.(sched := DrainOver(s, n))
    case Take(w, token, draw) => TakeNext(p, k, w, token, draw)
    case WaiterWake(w, token, draw) =>
      AcquireFor(p, WithReg(k, Unparked(f.reg, w)), w, s.workers[w].task, f.reg.waiters[w].deadline, token, draw)
    case WaiterTimeout(w, draw) =>
      AfterAcquire(p, WithReg(k, Unparked(f.reg, w)), w, s.workers[w].task, GaveUp, draw)
    case ExecutionEnd(w, outcome) =>
      var phase := s.workers[w];
      Kernel(Blamed(k, f.reg.issued[phase.lease].device, outcome),
             ExecutionDone(s, w, phase.task, phase.lease, outcome), k.now)
    case FailureRequeue(w, draw) => k.(sched := FailureRequeued(p.sched, s, w, k.now, draw))
    case LeaseReturn(w) =>
      WithReg(k, Released(f.reg, s.workers[w].lease)).(sched := LeaseReturned(s, w))
    case WorkerTail(w) => k.(sched := TailDone(s, w))
    case RetryFire(i) => k.(sched := RetryFired(s, i))
  }

  /** The steps that cannot touch the scheduler. */
  predicate MonitorStep(step: Step) {
    step.Tick? || step.Refresh? || step.SweepStart? || step.CheckStart? || step.CheckEnd?
    || step.RecoveryStart? || step.ReconnectEnd? || step.RecoveryProbeEnd? || step.RecoveryWake?
  }

  /** A run: states linked by enabled steps, from an empty orchestrator. */
  ghost predicate IsRun(p: Policy, trace: seq<Kernel>, steps: seq<Step>) {
    && |trace| == |steps| + 1
    && trace[0].now >= 0.0 && trace[0] == Init(trace[0].now)
    && PolicyValid(p.health)
    && forall i | 0 <= i < |steps| :: Enabled(p, trace[i], steps[i]) && trace[i + 1] == Apply(p, trace[i], steps[i])
  }
}
