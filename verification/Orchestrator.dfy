/** The orchestrator: registry, sessions, monitor and scheduler wired together. Every step its
    objects perform is a step of the kernel, so whatever the theorems say of every run they
    say of the objects. */
module Orchestrators {
  import opened Counting
  import opened Tasks
  import opened Devices
  import opened DeviceRegistries
  import opened Health
  import opened HealthMonitors
  import Schedulers
  import opened Kernel
  import opened KernelProofs
  import Books
  import LeaseTheorems
  import Sessions
  import S = Scheduler
  import TaskTheorems

  class Orchestrator {
    const registry: DeviceRegistry
    const sessions: Sessions.SessionManager
    const health: HealthMonitor
    const scheduler: Schedulers.Scheduler
    var now: real
    ghost var trace: seq<Kernel>
    ghost var steps: seq<Step>

    ghost function View(): Kernel
      reads this, scheduler, scheduler.monitor, scheduler.monitor.registry
    {
      scheduler.View(now)
    }

    ghost predicate Wired() {
      && scheduler.registry == registry && scheduler.monitor == health
      && health.registry == registry && health.sessions == sessions
    }

    /** The objects are where a run of the kernel has led them. */
    ghost predicate Valid()
      reads this, scheduler, scheduler.monitor, scheduler.monitor.registry
    {
      Wired() && IsRun(scheduler.Policy(), trace, steps) && trace[|steps|] == View()
    }

    constructor (healthPolicy: HealthPolicy, schedulerPolicy: S.SchedulerPolicy, sessionPolicy: Sessions.SessionPolicy,
                 now: real)
      requires PolicyValid(healthPolicy) && now >= 0.0
      ensures Valid() && steps == [] && View() == Init(now)
      ensures scheduler.Policy() == Policy(healthPolicy, schedulerPolicy) && sessions.policy == sessionPolicy
    {
      var r := new DeviceRegistry();
      var m := new Sessions.SessionManager(sessionPolicy);
      var h := new HealthMonitor(r, m, healthPolicy);
      registry, sessions, health := r, m, h;
      scheduler := new Schedulers.Scheduler(r, h, schedulerPolicy);
      this.now, trace, steps := now, [Init(now)], [];
    }

    /** The clock, the inventory, the sweep and the start of a recovery. */
    method Supervise(step: Step)
      requires Wired() && Devices.Valid(registry.View()) && Enabled(scheduler.Policy(), View(), step)
      requires step.Tick? || step.Refresh? || step.SweepStart? || step.CheckStart? || step.CheckEnd?
               || step.RecoveryStart?
      modifies this`now, registry, health, sessions`sessions
      ensures View() == Apply(scheduler.Policy(), old(View()), step)
      ensures health.SessionsFollow(old(sessions.View()), old(health.log))
    {
      match step
      case Tick(to) => now := to;
      case Refresh(keys, found) => registry.Refresh(keys, found);
      case SweepStart => health.SweepBegin();
      case CheckStart(d) => health.CheckBegin(d);
      case CheckEnd(d, result) => health.CheckEnd(d, result, now);
      case RecoveryStart(d) => health.RecoveryBegin(d, now);
    }

    /** A recovery's turn past its first. */
    method Recover(step: Step)
      requires Wired() && Enabled(scheduler.Policy(), View(), step)
      requires step.ReconnectEnd? || step.RecoveryProbeEnd? || step.RecoveryWake?
      modifies registry, health
      ensures View() == Apply(scheduler.Policy(), old(View()), step)
      ensures health.SessionsFollow(old(sessions.View()), old(health.log))
    {
      match step
      case ReconnectEnd(d, result) => health.ReconnectEnd(d, health.recoveries[d].attempt, result, now);
      case RecoveryProbeEnd(d, result) => health.RecoveryProbeEnd(d, health.recoveries[d].attempt, result, now);
      case RecoveryWake(d) => health.AttemptBegin(d, health.recoveries[d].attempt + 1, now);
    }

    /** What clients ask of the scheduler, and the retries. */
    method Serve(step: Step)
      requires Wired() && scheduler.Valid(now) && Enabled(scheduler.Policy(), View(), step)
      requires step.Submit? || step.Start? || step.Stop? || step.RetryFire?
      modifies scheduler
      ensures View() == Apply(scheduler.Policy(), old(View()), step)
    {
      match step
      case Submit(spec) => scheduler.Submit(spec, now);
      case Start => scheduler.Start(now);
      case Stop => scheduler.Stop(now);
      case RetryFire(i) => scheduler.RetryFire(i, now);
    }

    /** Someone waits for the idle flag, or has waited. */
    method Drain(step: Step)
      requires Wired() && scheduler.Valid(now) && Enabled(scheduler.Policy(), View(), step)
      requires step.DrainCall? || step.DrainReturn?
      modifies scheduler
      ensures View() == Apply(scheduler.Policy(), old(View()), step)
    {
      match step
      case DrainCall(k) => scheduler.DrainBegin(k, now);
      case DrainReturn(k, quiet) => scheduler.DrainEnd(k, quiet, now);
    }

    /** A worker's turns until it has a lease. */
    method Lease(step: Step)
      requires Wired() && scheduler.Valid(now) && Enabled(scheduler.Policy(), View(), step)
      requires step.Take? || step.WaiterWake? || step.WaiterTimeout?
      modifies scheduler, registry
      ensures View() == Apply(scheduler.Policy(), old(View()), step)
    {
      match step
      case Take(w, token, draw) => scheduler.Take(w, now, token, draw);
      case WaiterWake(w, token, draw) => scheduler.WaiterWake(w, now, token, draw);
      case WaiterTimeout(w, draw) => scheduler.WaiterTimeout(w, now, draw);
    }

    /** The end of an attempt. */
    method EndAttempt(step: Step)
      requires Wired() && scheduler.Valid(now) && step.ExecutionEnd? && Enabled(scheduler.Policy(), View(), step)
      modifies scheduler, health, registry, sessions`sessions
      ensures View() == Apply(scheduler.Policy(), old(View()), step)
      ensures health.SessionsFollow(old(sessions.View()), old(health.log))
    {
      scheduler.ExecutionEnd(step.w, step.outcome, now);
    }

    /** A worker's turns after the verdict on its attempt. */
    method Conclude(step: Step)
      requires Wired() && scheduler.Valid(now) && Enabled(scheduler.Policy(), View(), step)
      requires step.FailureRequeue? || step.LeaseReturn? || step.WorkerTail?
      modifies scheduler, registry
      ensures View() == Apply(scheduler.Policy(), old(View()), step)
    {
      match step
      case FailureRequeue(w, draw) => scheduler.FailureRequeue(w, now, draw);
      case LeaseReturn(w) => scheduler.LeaseReturn(w, now);
      case WorkerTail(w) => scheduler.WorkerTail(w, now);
    }

    /** Any step that can be taken, taken by the objects, is the kernel's step; and cached
        sessions are dropped exactly with a published quarantine or retirement. */
    method Perform(step: Step)
      requires Valid() && Enabled(scheduler.Policy(), View(), step)
      modifies this, scheduler, health, registry, sessions`sessions
      ensures Valid()
      ensures steps == old(steps) + [step] && trace == old(trace) + [View()]
      ensures health.SessionsFollow(old(sessions.View()), old(health.log))
    {
      ghost var p := scheduler.Policy();
      RunValid(p, trace, steps, |steps|);
      RunGrows(p, trace, steps, step, Apply(p, View(), step));
      Dispatch(step);
      trace, steps := trace + [View()], steps + [step];
    }

    method Dispatch(step: Step)
      requires Wired() && scheduler.Valid(now) && Enabled(scheduler.Policy(), View(), step)
      modifies this`now, scheduler, health, registry, sessions`sessions
      ensures View() == Apply(scheduler.Policy(), old(View()), step)
      ensures health.SessionsFollow(old(sessions.View()), old(health.log))
    {
      if step.Tick? || step.Refresh? || step.SweepStart? || step.CheckStart? || step.CheckEnd? || step.RecoveryStart? {
        Supervise(step);
      } else if step.ReconnectEnd? || step.RecoveryProbeEnd? || step.RecoveryWake? {
        Recover(step);
      } else if step.Submit? || step.Start? || step.Stop? || step.RetryFire? {
        Serve(step);
      } else if step.DrainCall? || step.DrainReturn? {
        Drain(step);
      } else if step.Take? || step.WaiterWake? || step.WaiterTimeout? {
        Lease(step);
      } else if step.ExecutionEnd? {
        EndAttempt(step);
      } else {
        Conclude(step);
      }
    }

    /** So the objects keep what is promised of every run: here, of their own fields, that no
        work is lost, that the idle flag does not lie, and that no two workers share a device. */
    lemma Promises(id: TaskId, v: nat, w: nat)
      requires Valid()
      ensures Count(scheduler.queue, S.EntryOf(id)) + Count(scheduler.workers, S.OwnerOf(id))
              + Count(scheduler.retries, S.RetryOf(id))
              == if id in scheduler.records && !Terminal(scheduler.records[id].state) then 1 else 0
      ensures scheduler.idle && id in scheduler.records ==> Terminal(scheduler.records[id].state)
      ensures v < w < |scheduler.workers| && S.HasLease(scheduler.workers[v]) && S.HasLease(scheduler.workers[w]) ==>
                var (g, h) := (scheduler.workers[v].lease, scheduler.workers[w].lease);
                && g < |registry.issued| && h < |registry.issued|
                && registry.issued[g].device != registry.issued[h].device
    {
      var p, n := scheduler.Policy(), |steps|;
      TaskTheorems.WorkConserved(p, trace, steps, n, id);
      if scheduler.idle {
        TaskTheorems.IdleMeansDone(p, trace, steps, n);
      }
      LeaseTheorems.LeasesAreExclusive(p, trace, steps, n);
      if v < w < |scheduler.workers| && S.HasLease(scheduler.workers[v]) && S.HasLease(scheduler.workers[w]) {
        assert Books.Holds(scheduler.Own(), v, scheduler.workers[v].lease);
        assert Books.Holds(scheduler.Own(), w, scheduler.workers[w].lease);
      }
    }
  }
}
