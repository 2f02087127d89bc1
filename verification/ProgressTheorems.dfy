/** The scheduler is never stuck: as long as work is left, one of its coroutines can go on. */
module ProgressTheorems {
  import opened Counting
  import opened Tasks
  import opened Devices
  import opened Health
  import opened Scheduler
  import opened RegistryEffects
  import opened Books
  import opened Kernel
  import opened KernelProofs
  import opened TaskTheorems

  /** The steps of the scheduler's own coroutines, workers and sleeping retries. */
  predicate Own(step: Step) {
    step.Take? || step.WaiterWake? || step.WaiterTimeout? || step.ExecutionEnd? || step.FailureRequeue?
    || step.LeaseReturn? || step.WorkerTail? || step.RetryFire?
  }

  /** Left alone, the scheduler can take this step at this time. */
  ghost predicate Stirs(p: Policy, k: Kernel, to: real, step: Step) {
    k.now <= to && Own(step) && Enabled(p, k.(now := to), step)
  }

  /** The worker sleeps until a device is free, with no deadline and no wake-up on its way. */
  predicate Waiting(k: Kernel, w: nat) {
    && WorkerAt(k, w) && k.sched.workers[w].Acquiring?
    && w in k.fleet.reg.waiters && !k.fleet.reg.waiters[w].notified && k.fleet.reg.waiters[w].deadline.None?
  }

  predicate Resting(k: Kernel, w: nat)
    requires WorkerAt(k, w)
  {
    k.sched.workers[w].Idle? || k.sched.workers[w].Stopped? || Waiting(k, w)
  }

  /** No retry sleeps, every worker waits, is idle or is gone, and no idle one has anything to take. */
  ghost predicate Stuck(k: Kernel) {
    && k.sched.retries == []
    && (forall w | 0 <= w < |k.sched.workers| :: Resting(k, w))
    && (k.sched.queue == [] || forall w | 0 <= w < |k.sched.workers| :: !k.sched.workers[w].Idle?)
  }

  function Later(now: real, due: real): real {
    if due < now then now else due
  }

  lemma ZeroDraw(p: Policy, k: Kernel, id: TaskId)
    ensures DrawnWithin(p, k, id, 0.0)
  {
  }

  lemma WaiterStirs(p: Policy, k: Kernel, w: nat) returns (to: real, step: Step)
    requires BooksAgree(k.fleet.reg, k.sched) && WorkerAt(k, w) && k.sched.workers[w].Acquiring? && !Waiting(k, w)
    ensures Stirs(p, k, to, step) && !step.RetryFire? && step.w == w
  {
    assert Parks(k.fleet.reg, k.sched, w);
    var waiter := k.fleet.reg.waiters[w];
    if waiter.notified {
      to, step := k.now, WaiterWake(w, 0, 0.0);
    } else {
      to, step := Later(k.now, waiter.deadline.value), WaiterTimeout(w, 0.0);
    }
    ZeroDraw(p, k.(now := to), k.sched.workers[w].task);
  }

  lemma HolderReady(k: Kernel, w: nat)
    requires BooksAgree(k.fleet.reg, k.sched) && WorkerAt(k, w) && HasLease(k.sched.workers[w])
    ensures k.sched.workers[w].lease < |k.fleet.reg.issued|
    ensures !k.sched.workers[w].Releasing? ==> k.sched.workers[w].task in k.sched.records
  {
    assert Holds(k.sched, w, k.sched.workers[w].lease);
    assert Attempts(k.fleet.reg, k.sched, w);
  }

  lemma HolderStirs(p: Policy, k: Kernel, w: nat) returns (step: Step)
    requires WorkerAt(k, w) && HasLease(k.sched.workers[w]) && k.sched.workers[w].lease < |k.fleet.reg.issued|
    requires !k.sched.workers[w].Releasing? ==> k.sched.workers[w].task in k.sched.records
    ensures Stirs(p, k, k.now, step) && !step.RetryFire? && step.w == w
  {
    assert k.(now := k.now) == k;
    match k.sched.workers[w]
    case Executing(id, _) => step := ExecutionEnd(w, Success(""));
    case Failing(id, _, _) =>
      step := FailureRequeue(w, 0.0);
      ZeroDraw(p, k, id);
    case Releasing(_, _) => step := LeaseReturn(w);
  }

  /** A worker that does not rest has a step of its own. */
  lemma WorkerStirs(p: Policy, k: Kernel, w: nat) returns (to: real, step: Step)
    requires BooksAgree(k.fleet.reg, k.sched) && WorkerAt(k, w) && !Resting(k, w)
    ensures Stirs(p, k, to, step) && !step.RetryFire? && step.w == w
  {
    if k.sched.workers[w].Acquiring? {
      to, step := WaiterStirs(p, k, w);
    } else if HasLease(k.sched.workers[w]) {
      to := k.now;
      HolderReady(k, w);
      step := HolderStirs(p, k, w);
    } else {
      to, step := k.now, WorkerTail(w);
    }
  }

  lemma IdleStirs(p: Policy, k: Kernel, w: nat) returns (step: Step)
    requires WorkerAt(k, w) && k.sched.workers[w].Idle? && k.sched.queue != []
    ensures Stirs(p, k, k.now, step) && step.Take?
  {
    step := Take(w, 0, 0.0);
    assert k.(now := k.now) == k;
    if k.sched.queue[0].Some? {
      ZeroDraw(p, k, k.sched.queue[0].value);
    }
  }

  lemma RetryStirs(p: Policy, k: Kernel, i: nat)
    requires i < |k.sched.retries|
    ensures Stirs(p, k, Later(k.now, k.sched.retries[i].due), RetryFire(i))
  {
  }

  lemma SomethingStirs(p: Policy, k: Kernel) returns (to: real, step: Step)
    requires BooksAgree(k.fleet.reg, k.sched) && !Stuck(k)
    ensures Stirs(p, k, to, step)
  {
    if k.sched.retries != [] {
      to, step := Later(k.now, k.sched.retries[0].due), RetryFire(0);
      RetryStirs(p, k, 0);
    } else if w: nat :| w < |k.sched.workers| && !Resting(k, w) {
      to, step := WorkerStirs(p, k, w);
    } else {
      var w: nat :| w < |k.sched.workers| && k.sched.workers[w].Idle?;
      to := k.now;
      step := IdleStirs(p, k, w);
    }
  }

  lemma NothingStirs(p: Policy, k: Kernel, to: real, step: Step)
    requires Stuck(k)
    ensures !Stirs(p, k, to, step)
  {
    if Own(step) && !step.RetryFire? && step.w < |k.sched.workers| {
      assert Resting(k, step.w);
    }
  }

  /** In every state of every run the scheduler has no step it could ever take by itself if and
      only if no retry sleeps, no idle worker has anything to take, and every worker at work waits
      for a device with no deadline and no wake-up; and no device that one could take is free. */
  lemma StuckExactly(p: Policy, trace: seq<Kernel>, steps: seq<Step>, n: nat)
    requires IsRun(p, trace, steps) && n < |trace|
    ensures (forall to, step :: !Stirs(p, trace[n], to, step)) <==> Stuck(trace[n])
    ensures forall w | 0 <= w < |trace[n].sched.workers| && Waiting(trace[n], w) ::
              FindFree(trace[n].fleet.reg, trace[n].fleet.reg.waiters[w].selector) == None
  {
    RunValid(p, trace, steps, n);
    var k := trace[n];
    if Stuck(k) {
      forall to, step ensures !Stirs(p, k, to, step) {
        NothingStirs(p, k, to, step);
      }
    } else {
      var to, step := SomethingStirs(p, k);
    }
  }

  // ---------- every waiter has a deadline ----------

  ghost predicate Timed(p: Policy, r: Registry) {
    forall w | w in r.waiters :: r.waiters[w].deadline.Some? <==> p.sched.leaseTimeout.Some?
  }

  lemma SameTimed(p: Policy, r: Registry, r': Registry)
    requires Timed(p, r) && SameBooks(r, r')
    ensures Timed(p, r')
  {
  }

  lemma FleetTimed(p: Policy, k: Kernel, step: Step)
    requires Timed(p, k.fleet.reg) && Enabled(p, k, step) && MonitorStep(step)
    ensures Timed(p, Apply(p, k, step).fleet.reg)
  {
    var f := k.fleet;
    match step
    case CheckEnd(d, result) =>
      CheckDoneKept(p.health, f, d, result, k.now);
      SameTimed(p, f.reg, CheckDone(p.health, f, d, result, k.now).reg);
    case RecoveryStart(d) =>
      RecoveryBegunKept(p.health, f, d, k.now);
      SameTimed(p, f.reg, RecoveryBegun(p.health, f, d, k.now).reg);
    case ReconnectEnd(d, result) =>
      ReconnectDoneKept(p.health, f, d, f.mon.recoveries[d].attempt, result, k.now);
    case RecoveryProbeEnd(d, result) =>
      var attempt := f.mon.recoveries[d].attempt;
      ReconnectDoneKept(p.health, f, d, attempt, result, k.now);
      SameTimed(p, f.reg, RecoveryProbed(p.health, f, d, attempt, result, k.now).reg);
    case RecoveryWake(d) => AttemptKept(p.health, f, d, f.mon.recoveries[d].attempt + 1, k.now);
    case _ =>
  }

  lemma AcquireTimed(p: Policy, k: Kernel, w: nat, id: TaskId, deadline: Option<real>, token: nat, draw: real)
    requires w < |k.sched.workers| && id in k.sched.records && Timed(p, k.fleet.reg)
    requires deadline.Some? <==> p.sched.leaseTimeout.Some?
    ensures Timed(p, AcquireFor(p, k, w, id, deadline, token, draw).fleet.reg)
  {
  }

  lemma TakeTimed(p: Policy, k: Kernel, w: nat, token: nat, draw: real)
    requires Timed(p, k.fleet.reg) && Enabled(p, k, Take(w, token, draw))
    ensures Timed(p, TakeNext(p, k, w, token, draw).fleet.reg)
  {
    if k.sched.queue[0].Some? {
      var id := k.sched.queue[0].value;
      var taken := k.(sched := Dequeued(k.sched, w));
      if !Skippable(taken.sched, id) && CouldEverMatch(k.fleet.reg, k.sched.records[id].spec.selector) {
        AcquireTimed(p, taken, w, id, Deadline(p, k.now), token, draw);
      }
    }
  }

  lemma ReleasedTimed(p: Policy, r: Registry, h: nat)
    requires Timed(p, r) && h < |r.issued|
    ensures Timed(p, Released(r, h))
  {
  }

  lemma SchedTimed(p: Policy, k: Kernel, step: Step)
    requires Timed(p, k.fleet.reg) && Enabled(p, k, step) && !MonitorStep(step)
    ensures Timed(p, Apply(p, k, step).fleet.reg)
  {
    match step
    case Take(w, token, draw) => TakeTimed(p, k, w, token, draw);
    case WaiterWake(w, token, draw) =>
      AcquireTimed(p, WithReg(k, Unparked(k.fleet.reg, w)), w, k.sched.workers[w].task,
                   k.fleet.reg.waiters[w].deadline, token, draw);
    case ExecutionEnd(w, o) =>
      var d := k.fleet.reg.issued[k.sched.workers[w].lease].device;
      QuarantineKept(k.fleet, d, k.now);
      SameTimed(p, k.fleet.reg, Quarantine(k.fleet, d, k.now).reg);
    case LeaseReturn(w) => ReleasedTimed(p, k.fleet.reg, k.sched.workers[w].lease);
    case _ =>
  }

  /** Whoever waits for a device has a deadline, unless no lease timeout is configured. */
  lemma {:induction false} RunTimed(p: Policy, trace: seq<Kernel>, steps: seq<Step>, n: nat)
    requires IsRun(p, trace, steps) && n < |trace|
    ensures Timed(p, trace[n].fleet.reg)
  {
    if n > 0 {
      RunTimed(p, trace, steps, n - 1);
      if MonitorStep(steps[n - 1]) {
        FleetTimed(p, trace[n - 1], steps[n - 1]);
      } else {
        SchedTimed(p, trace[n - 1], steps[n - 1]);
      }
    }
  }

  // ---------- the idle flag means rest ----------

  lemma TimedNotWaiting(p: Policy, k: Kernel, w: nat)
    requires Timed(p, k.fleet.reg) && p.sched.leaseTimeout.Some?
    ensures !Waiting(k, w)
  {
  }

  lemma StuckIsQuiet(p: Policy, k: Kernel)
    requires Timed(p, k.fleet.reg) && p.sched.leaseTimeout.Some? && CountersValid(k.sched) && NoStop(k.sched)
    requires k.sched.workers != []
    ensures Stuck(k) <==> Quiet(k.sched)
  {
    var s := k.sched;
    CountZero(s.workers, BUSY);
    forall w | 0 <= w < |s.workers| ensures Resting(k, w) <==> !BUSY(s.workers[w]) {
      TimedNotWaiting(p, k, w);
    }
    if Stuck(k) {
      assert Resting(k, 0);
    }
  }

  /** Without `stop`, with a crew and a lease timeout, the scheduler cannot be stuck: the idle flag
      is down exactly while one of its coroutines can go on by itself, now or later. */
  lemma IdleIsRest(p: Policy, trace: seq<Kernel>, steps: seq<Step>, n: nat)
    requires IsRun(p, trace, steps) && n < |trace| && NeverStopped(steps, n)
    requires p.sched.leaseTimeout.Some? && trace[n].sched.workers != []
    ensures trace[n].sched.idle <==> forall to, step :: !Stirs(p, trace[n], to, step)
  {
    RunValid(p, trace, steps, n);
    RunNoStop(p, trace, steps, n);
    RunTimed(p, trace, steps, n);
    IdleExactly(p, trace, steps, n);
    StuckIsQuiet(p, trace[n]);
    StuckExactly(p, trace, steps, n);
  }

  // ---------- no task is stuck ----------

  /** The step is of the worker or the retry that has the task. */
  predicate Moves(s: Sched, step: Step, id: TaskId) {
    if step.RetryFire? then step.i < |s.retries| && s.retries[step.i].task == id
    else Own(step) && step.w < |s.workers| && Owns(s.workers[step.w], id)
  }

  lemma Carried(s: Sched, id: TaskId)
    requires Conserved(s) && Live(s, id)
    ensures (exists i :: 0 <= i < |s.queue| && s.queue[i] == Some(id))
            || (exists w :: 0 <= w < |s.workers| && Owns(s.workers[w], id))
            || (exists i :: 0 <= i < |s.retries| && s.retries[i].task == id)
  {
    assert Carriers(s, id) == 1;
    CountZero(s.queue, EntryOf(id));
    CountZero(s.workers, OwnerOf(id));
    CountZero(s.retries, RetryOf(id));
  }

  lemma CarrierStirs(p: Policy, k: Kernel, id: TaskId) returns (to: real, step: Step)
    requires Timed(p, k.fleet.reg) && p.sched.leaseTimeout.Some? && NoStop(k.sched) && k.sched.workers != []
    requires BooksAgree(k.fleet.reg, k.sched) && Conserved(k.sched) && Live(k.sched, id)
    ensures Stirs(p, k, to, step)
    ensures Some(id) in k.sched.queue || Moves(k.sched, step, id)
    ensures Some(id) in k.sched.queue ==>
              step.Take? || forall w | 0 <= w < |k.sched.workers| :: BUSY(k.sched.workers[w])
  {
    var s := k.sched;
    Carried(s, id);
    if Some(id) in s.queue {
      if w: nat :| w < |s.workers| && s.workers[w].Idle? {
        to := k.now;
        step := IdleStirs(p, k, w);
      } else {
        TimedNotWaiting(p, k, 0);
        to, step := WorkerStirs(p, k, 0);
      }
    } else if w: nat :| w < |s.workers| && Owns(s.workers[w], id) {
      TimedNotWaiting(p, k, w);
      to, step := WorkerStirs(p, k, w);
    } else {
      var i: nat :| i < |s.retries| && s.retries[i].task == id;
      to, step := Later(k.now, s.retries[i].due), RetryFire(i);
      RetryStirs(p, k, i);
    }
  }

  /** Whatever has happened, an unfinished task is in the queue or its own worker or retry can go
      on; and if it is in the queue a worker can take the next entry, unless all are at work, and
      then one of those can go on. */
  lemma NoTaskIsStuck(p: Policy, trace: seq<Kernel>, steps: seq<Step>, n: nat, id: TaskId)
    returns (to: real, step: Step)
    requires IsRun(p, trace, steps) && n < |trace| && NeverStopped(steps, n)
    requires p.sched.leaseTimeout.Some? && trace[n].sched.workers != [] && Live(trace[n].sched, id)
    ensures Stirs(p, trace[n], to, step)
    ensures Some(id) in trace[n].sched.queue || Moves(trace[n].sched, step, id)
    ensures Some(id) in trace[n].sched.queue ==>
              step.Take? || forall w | 0 <= w < |trace[n].sched.workers| :: BUSY(trace[n].sched.workers[w])
  {
    RunValid(p, trace, steps, n);
    RunNoStop(p, trace, steps, n);
    RunTimed(p, trace, steps, n);
    to, step := CarrierStirs(p, trace[n], id);
  }
}
