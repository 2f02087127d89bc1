/** The scheduler as the object it is, over the registry and the monitor it was given. Each
    step method is what one coroutine does between two suspensions, and keeps every invariant
    of the kernel; `workers`, `retries` and `drains` stand for the suspended coroutines and
    what they hold. */
module Schedulers {
  import opened Tasks
  import opened Devices
  import opened DeviceRegistries
  import opened HealthMonitors
  import S = Scheduler
  import K = Kernel
  import KernelProofs

  class Scheduler {
    const registry: DeviceRegistry
    const monitor: HealthMonitor
    const policy: S.SchedulerPolicy
    var records: map<TaskId, TaskRecord>
    var queue: seq<Option<TaskId>>
    var workers: seq<S.Worker>
    var retries: seq<S.Retry>
    var inflight: int
    var pendingRetries: int
    var idle: bool
    var running: bool
    var drains: map<nat, S.Drain>

    /** The scheduler's own state. */
    ghost function Own(): S.Sched
      reads this
    {
      S.Sched(records, queue, workers, retries, inflight, pendingRetries, idle, running, drains)
    }

    /** The whole orchestrator at a time. */
    ghost function View(now: real): K.Kernel
      reads this, monitor, monitor.registry
    {
      K.Kernel(monitor.View(), Own(), now)
    }

    /** Both policies, as one. */
    ghost function Policy(): K.Policy {
      K.Policy(monitor.policy, policy)
    }

    /** What the parts of a step rely on. */
    ghost predicate Wired()
      reads this, registry
    {
      monitor.registry == registry && Devices.Valid(registry.View())
    }

    /** Every invariant of the kernel holds of scheduler, monitor and registry together. */
    ghost predicate Valid(now: real)
      reads this, registry, monitor, monitor.registry
      ensures Valid(now) ==> Wired()
    {
      monitor.registry == registry && KernelProofs.KernelValid(Policy(), View(now))
    }

    /** The step can be taken now. */
    ghost predicate Can(step: K.Step, now: real)
      reads this, monitor, monitor.registry
    {
      K.Enabled(Policy(), View(now), step)
    }

    /** What the step makes of the orchestrator. */
    ghost function After(step: K.Step, now: real): K.Kernel
      requires Can(step, now)
      reads this, monitor, monitor.registry
    {
      K.Apply(Policy(), View(now), step)
    }

    /** A step from a valid state leads to a valid state. */
    lemma StepsValid(step: K.Step, now: real)
      requires Valid(now) && Can(step, now)
      ensures KernelProofs.KernelValid(Policy(), After(step, now))
    {
      KernelProofs.ApplyValid(Policy(), View(now), step);
    }

    constructor (registry: DeviceRegistry, monitor: HealthMonitor, policy: S.SchedulerPolicy)
      ensures this.registry == registry && this.monitor == monitor && this.policy == policy
      ensures Own() == S.EMPTY_SCHED
    {
      this.registry, this.monitor, this.policy := registry, monitor, policy;
      records, queue, workers, retries, drains := map[], [], [], [], map[];
      inflight, pendingRetries, idle, running := 0, 0, true, false;
    }

    // ---------- public surface ----------

    /** Takes any spec; with a fresh id every invariant is kept. */
    method Submit(spec: TaskSpec, ghost now: real)
      modifies this`records, this`idle, this`queue
      ensures Own() == S.Submitted(policy, old(Own()), spec)
      ensures old(Valid(now)) && spec.id !in old(records) ==> Valid(now)
    {
      if Valid(now) && spec.id !in records {
        StepsValid(K.Submit(spec), now);
      }
      if spec.kind !in policy.kinds {
        records := records[spec.id := TaskRecord(spec, Rejected, [], None,
            Some("no target registered for kind=" + spec.kind))];
        return;
      }
      records := records[spec.id := TaskRecord(spec, Pending, [], None, None)];
      idle := false;
      queue := queue + [Some(spec.id)];
    }

    method Start(ghost now: real)
      modifies this`running, this`workers
      ensures Own() == S.Started(policy, old(Own()))
      ensures old(Valid(now)) && old(workers) == [] ==> Valid(now)
    {
      if Valid(now) && workers == [] {
        StepsValid(K.Start, now);
      }
      if running {
        return;
      }
      running := true;
      var index := 0;
      while index < policy.workers
        invariant 0 <= index <= policy.workers && running
        invariant workers == old(workers) + seq(index, _ => S.Idle)
      {
        workers := workers + [S.Idle];
        index := index + 1;
      }
      assert workers == S.Started(policy, old(Own())).workers;
    }

    method Stop(ghost now: real)
      modifies this`running, this`queue
      ensures Own() == S.StopAsked(old(Own()))
      ensures old(Valid(now)) ==> Valid(now)
    {
      if Valid(now) {
        StepsValid(K.Stop, now);
      }
      if !running {
        return;
      }
      running := false;
      var pills := 0;
      while pills < |workers|
        invariant 0 <= pills <= |workers| && !running
        invariant queue == old(queue) + seq(pills, _ => None)
      {
        queue := queue + [None];
        pills := pills + 1;
      }
      assert queue == S.StopAsked(old(Own())).queue;
    }

    method DrainBegin(k: nat, ghost now: real)
      requires Valid(now) && Can(K.DrainCall(k), now)
      modifies this`drains
      ensures Valid(now) && View(now) == old(After(K.DrainCall(k), now))
    {
      StepsValid(K.DrainCall(k), now);
      drains := drains[k := S.Drain(records.Keys, idle)];
    }

    method DrainEnd(k: nat, ghost quiet: bool, ghost now: real)
      requires Valid(now) && Can(K.DrainReturn(k, quiet), now)
      modifies this`drains
      ensures Valid(now) && View(now) == old(After(K.DrainReturn(k, quiet), now))
    {
      StepsValid(K.DrainReturn(k, quiet), now);
      drains := drains - {k};
    }

    // ---------- helpers ----------

    method SettleIdle()
      modifies this`idle, this`drains
      ensures Own() == S.Settled(old(Own()))
    {
      if queue == [] && inflight == 0 && pendingRetries == 0 {
        if !idle {
          drains := map k | k in drains :: drains[k].(woken := true);
        }
        idle := true;
      }
    }

    method Finish(id: TaskId, state: TaskState, result: Option<string>, error: Option<string>)
      requires id in records
      modifies this`records
      ensures Own() == S.Finished(old(Own()), id, state, result, error)
    {
      records := records[id := records[id].(state := state, result := result, error := error)];
    }

    /** `draw` is the jitter drawn for the backoff. */
    method Requeue(id: TaskId, reason: string, now: real, draw: real)
      requires id in records
      modifies this`records, this`pendingRetries, this`idle, this`retries
      ensures Own() == S.Requeued(policy, old(Own()), id, reason, now, draw)
    {
      var attempts := |records[id].attempts|;
      if attempts >= records[id].spec.maxAttempts {
        Finish(id, Failed, None, Some(reason));
        return;
      }
      var delay := S.Backoff(policy, attempts, draw);
      records := records[id := records[id].(state := Pending)];
      pendingRetries := pendingRetries + 1;
      idle := false;
      retries := retries + [S.Retry(id, now + delay)];
    }

    // ---------- a worker's turns ----------

    /** An idle worker takes the next entry and runs up to its first suspension. */
    method Take(w: nat, now: real, token: nat, draw: real)
      requires Valid(now) && Can(K.Take(w, token, draw), now)
      modifies this, registry
      ensures Valid(now) && View(now) == old(After(K.Take(w, token, draw), now))
    {
      StepsValid(K.Take(w, token, draw), now);
      TakeNext(w, now, token, draw);
    }

    method TakeNext(w: nat, now: real, token: nat, draw: real)
      requires Wired() && w < |workers| && queue != []
      modifies this, registry
      ensures Wired() && View(now) == K.TakeNext(Policy(), old(View(now)), w, token, draw)
    {
      var entry := queue[0];
      queue := queue[1..];
      match entry
      case None =>
        workers := workers[w := S.Stopped];
      case Some(id) =>
        inflight := inflight + 1;
        workers := workers[w := S.Acquiring(id)];
        RunOnce(w, id, now, token, draw);
    }

    method RunOnce(w: nat, id: TaskId, now: real, token: nat, draw: real)
      requires Wired() && w < |workers|
      modifies this, registry
      ensures Wired() && View(now) == K.RunOnce(Policy(), old(View(now)), w, id, token, draw)
    {
      if id !in records || records[id].state == Succeeded || records[id].state == Rejected {
        workers := workers[w := S.Tail(id)];
        return;
      }
      var could := registry.CouldEverMatch(records[id].spec.selector);
      if !could {
        Finish(id, Abandoned, None, Some(S.NO_DEVICE));
        workers := workers[w := S.Tail(id)];
        return;
      }
      var deadline := match policy.leaseTimeout case None => None case Some(t) => Some(now + t);
      Acquire(w, id, deadline, now, token, draw);
    }

    /** A turn of the wait loop in `acquire`, and what follows if it ends there. */
    method Acquire(w: nat, id: TaskId, deadline: Option<real>, now: real, token: nat, draw: real)
      requires Wired() && w < |workers| && id in records
      modifies this, registry
      ensures Wired() && View(now) == K.AcquireFor(Policy(), old(View(now)), w, id, deadline, token, draw)
    {
      var result := registry.TryAcquire(w, records[id].spec.selector, deadline, now, token);
      match result
      case Granted(h) => StartAttempt(w, id, h, registry.issued[h].device);
      case Parked =>
      case GaveUp => TimeOut(w, id, now, draw);
    }

    method StartAttempt(w: nat, id: TaskId, lease: nat, device: DeviceId)
      requires w < |workers| && id in records
      modifies this`records, this`workers
      ensures Own() == S.AttemptStarted(old(Own()), w, id, lease, device)
    {
      var attempt := Attempt(|records[id].attempts| + 1, device, false, None);
      records := records[id := records[id].(state := Running, attempts := records[id].attempts + [attempt])];
      workers := workers[w := S.Executing(id, lease)];
    }

    method TimeOut(w: nat, id: TaskId, now: real, draw: real)
      requires w < |workers| && id in records
      modifies this
      ensures Own() == S.LeaseTimedOut(policy, old(Own()), w, id, now, draw)
    {
      Requeue(id, S.NO_LEASE, now, draw);
      workers := workers[w := S.Tail(id)];
    }

    /** A parked worker that was notified looks again. */
    method WaiterWake(w: nat, now: real, token: nat, draw: real)
      requires Valid(now) && Can(K.WaiterWake(w, token, draw), now)
      modifies this, registry
      ensures Valid(now) && View(now) == old(After(K.WaiterWake(w, token, draw), now))
    {
      StepsValid(K.WaiterWake(w, token, draw), now);
      var deadline := registry.waiters[w].deadline;
      registry.Unpark(w);
      Acquire(w, workers[w].task, deadline, now, token, draw);
    }

    method WaiterTimeout(w: nat, now: real, draw: real)
      requires Valid(now) && Can(K.WaiterTimeout(w, draw), now)
      modifies this, registry
      ensures Valid(now) && View(now) == old(After(K.WaiterTimeout(w, draw), now))
    {
      StepsValid(K.WaiterTimeout(w, draw), now);
      GiveUp(w, now, draw);
    }

    /** The waiter leaves the condition, and its task goes on without a lease. */
    method GiveUp(w: nat, now: real, draw: real)
      requires Wired() && w < |workers| && workers[w].Acquiring? && workers[w].task in records
      modifies this, registry`waiters
      ensures Own() == S.LeaseTimedOut(policy, old(Own()), w, old(workers[w].task), now, draw)
      ensures registry.View() == Unparked(old(registry.View()), w)
    {
      registry.Unpark(w);
      TimeOut(w, workers[w].task, now, draw);
    }

    /** The target returned or raised: a verdict, or the first half of the failure handler,
        which pulls a device that is to blame before anything else happens. */
    method ExecutionEnd(w: nat, outcome: Outcome, now: real)
      requires Valid(now) && Can(K.ExecutionEnd(w, outcome), now)
      modifies this, monitor, registry, monitor.sessions`sessions
      ensures Valid(now) && View(now) == old(After(K.ExecutionEnd(w, outcome), now))
      ensures monitor.SessionsFollow(old(monitor.sessions.View()), old(monitor.log))
    {
      StepsValid(K.ExecutionEnd(w, outcome), now);
      Ended(w, outcome, now);
    }

    method Ended(w: nat, outcome: Outcome, now: real)
      requires monitor.registry == registry && w < |workers| && workers[w].Executing?
      requires workers[w].task in records && workers[w].lease < |registry.issued|
      modifies this`records, this`workers, monitor, registry, monitor.sessions`sessions
      ensures Own() == S.ExecutionDone(old(Own()), w, old(workers[w].task), old(workers[w].lease), outcome)
      ensures monitor.View() == K.Blamed(old(View(now)), old(registry.issued[workers[w].lease].device), outcome)
      ensures monitor.SessionsFollow(old(monitor.sessions.View()), old(monitor.log))
    {
      var device := registry.issued[workers[w].lease].device;
      Conclude(w, outcome);
      if outcome.Success? || outcome.Fatal? {
        return;
      }
      Blame(device, outcome, now);
    }

    /** What the outcome means for the record and the worker. */
    method Conclude(w: nat, outcome: Outcome)
      requires w < |workers| && workers[w].Executing? && workers[w].task in records
      modifies this`records, this`workers
      ensures Own() == S.ExecutionDone(old(Own()), w, old(workers[w].task), old(workers[w].lease), outcome)
    {
      var id, lease := workers[w].task, workers[w].lease;
      EndAttempt(id, outcome);
      match outcome
      case Success(result) =>
        Finish(id, Succeeded, Some(result), None);
        workers := workers[w := S.Releasing(id, lease)];
      case Fatal(reason) =>
        Finish(id, Rejected, None, Some(reason));
        workers := workers[w := S.Releasing(id, lease)];
      case _ =>
        workers := workers[w := S.Failing(id, lease, outcome.reason)];
    }

    /** The failure handler up to the requeue. */
    method Blame(device: DeviceId, outcome: Outcome, now: real)
      requires monitor.registry == registry && IsFailure(outcome)
      modifies monitor, registry, monitor.sessions`sessions
      ensures monitor.View() == K.Blamed(old(View(now)), device, outcome)
      ensures monitor.SessionsFollow(old(monitor.sessions.View()), old(monitor.log))
    {
      if Blames(outcome) {
        if device in registry.devices && registry.devices[device].state == Online {
          monitor.Quarantine(device, now);
        }
      }
    }

    method EndAttempt(id: TaskId, outcome: Outcome)
      requires id in records
      modifies this`records
      ensures records == old(records)[id := S.AttemptEnded(old(records)[id], outcome)]
    {
      var attempts := records[id].attempts;
      if attempts != [] {
        var n := |attempts| - 1;
        var ended := attempts[n].(ended := true, error := if outcome.Success? then None else Some(outcome.reason));
        records := records[id := records[id].(attempts := attempts[n := ended])];
      }
    }

    lemma AfterFailure(w: nat, now: real, draw: real)
      requires Valid(now) && Can(K.FailureRequeue(w, draw), now)
      ensures w < |workers| && workers[w].Failing? && workers[w].task in records
      ensures
        var after := View(now).(sched := S.FailureRequeued(policy, Own(), w, now, draw));
        After(K.FailureRequeue(w, draw), now) == after && KernelProofs.KernelValid(Policy(), after)
    {
      StepsValid(K.FailureRequeue(w, draw), now);
    }

    method FailureRequeue(w: nat, now: real, draw: real)
      requires Valid(now) && Can(K.FailureRequeue(w, draw), now)
      modifies this`workers, this`records, this`pendingRetries, this`idle, this`retries
      ensures Valid(now) && View(now) == old(After(K.FailureRequeue(w, draw), now))
    {
      AfterFailure(w, now, draw);
      RequeueFailed(w, now, draw);
    }

    /** The second half of the failure handler: the lease is still held. */
    method RequeueFailed(w: nat, now: real, draw: real)
      requires w < |workers| && workers[w].Failing? && workers[w].task in records
      modifies this`workers, this`records, this`pendingRetries, this`idle, this`retries
      ensures Own() == S.FailureRequeued(policy, old(Own()), w, now, draw)
    {
      var phase := workers[w];
      Requeue(phase.task, phase.reason, now, draw);
      workers := workers[w := S.Releasing(phase.task, phase.lease)];
    }

    method LeaseReturn(w: nat, ghost now: real)
      requires Valid(now) && Can(K.LeaseReturn(w), now)
      modifies this`workers, registry
      ensures Valid(now) && View(now) == old(After(K.LeaseReturn(w), now))
    {
      StepsValid(K.LeaseReturn(w), now);
      registry.Release(workers[w].lease);
      workers := workers[w := S.Tail(workers[w].task)];
    }

    method WorkerTail(w: nat, ghost now: real)
      requires Valid(now) && Can(K.WorkerTail(w), now)
      modifies this
      ensures Valid(now) && View(now) == old(After(K.WorkerTail(w), now))
    {
      StepsValid(K.WorkerTail(w), now);
      TurnOver(w);
    }

    /** The worker's `finally`. */
    method TurnOver(w: nat)
      requires w < |workers|
      modifies this`workers, this`inflight, this`idle, this`drains
      ensures Own() == S.TailDone(old(Own()), w)
    {
      workers := workers[w := S.Idle];
      inflight := inflight - 1;
      SettleIdle();
    }

    method RetryFire(i: nat, ghost now: real)
      requires Valid(now) && Can(K.RetryFire(i), now)
      modifies this
      ensures Valid(now) && View(now) == old(After(K.RetryFire(i), now))
    {
      StepsValid(K.RetryFire(i), now);
      DelayedPut(i);
    }

    /** The task is queued before the retry stops being counted. */
    method DelayedPut(i: nat)
      requires i < |retries|
      modifies this`queue, this`retries, this`pendingRetries, this`idle, this`drains
      ensures Own() == S.RetryFired(old(Own()), i)
    {
      queue := queue + [Some(retries[i].task)];
      retries := retries[..i] + retries[i + 1..];
      pendingRetries := pendingRetries - 1;
      SettleIdle();
    }
  }
}
