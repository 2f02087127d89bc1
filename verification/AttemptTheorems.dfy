/** What a run does to one task's record: attempts are counted, bounded and never taken back. */
module AttemptTheorems {
  import opened Counting
  import opened Tasks
  import opened Devices
  import opened Scheduler
  import opened SchedulerProofs
  import opened Kernel
  import opened KernelProofs
  import opened TaskTheorems

  /** Attempts the task can still fail: those not begun, and the one that is running. */
  function Budget(rec: TaskRecord): int {
    AttemptLimit(rec.spec) - |rec.attempts| + (if rec.state == Running then 1 else 0)
  }

  /** `b` is what some steps may make of `a`. */
  ghost predicate Later(a: TaskRecord, b: TaskRecord) {
    && b.spec == a.spec
    && (Terminal(a.state) ==> b == a)
    && |a.attempts| <= |b.attempts|
    && (forall i | 0 <= i < |a.attempts| ::
          b.attempts[i].number == a.attempts[i].number && b.attempts[i].deviceId == a.attempts[i].deviceId)
    && Budget(b) <= Budget(a)
  }

  /** The task goes to sleep until its next try. */
  ghost predicate Requeues(s: Sched, s': Sched, id: TaskId) {
    Count(s'.retries, RetryOf(id)) > Count(s.retries, RetryOf(id))
  }

  /** One step does this to the record of `id`: nothing, or something that keeps `Later`;
      and a requeue of a running task spends budget. */
  ghost predicate Progresses(s: Sched, s': Sched, id: TaskId)
    requires id in s.records
  {
    && id in s'.records && Later(s.records[id], s'.records[id])
    && (Requeues(s, s', id) ==>
          && s'.records[id].state == Pending
          && !Terminal(s.records[id].state)
          && (s.records[id].state == Running ==> Budget(s'.records[id]) < Budget(s.records[id])))
  }

  lemma LaterTwice(a: TaskRecord, b: TaskRecord, c: TaskRecord)
    requires Later(a, b) && Later(b, c)
    ensures Later(a, c)
  {
  }

  lemma NothingProgresses(s: Sched, s': Sched, id: TaskId)
    requires id in s.records && id in s'.records && s'.records[id] == s.records[id]
    requires Count(s'.retries, RetryOf(id)) <= Count(s.retries, RetryOf(id))
    ensures Progresses(s, s', id)
  {
  }

  lemma StartedProgresses(s: Sched, w: nat, id: TaskId, handle: nat, device: DeviceId, x: TaskId)
    requires Ready(s, w, id) && s.workers[w].Acquiring? && x in s.records
    ensures Progresses(s, AttemptStarted(s, w, id, handle, device), x)
  {
  }

  lemma DoneProgresses(s: Sched, w: nat, id: TaskId, handle: nat, o: Outcome, x: TaskId)
    requires Ready(s, w, id) && s.workers[w].Executing? && x in s.records
    ensures Progresses(s, ExecutionDone(s, w, id, handle, o), x)
  {
  }

  lemma RequeuedProgresses(p: SchedulerPolicy, s: Sched, w: nat, id: TaskId, reason: string, now: real, draw: real,
      phase: Worker, x: TaskId)
    requires Ready(s, w, id) && x in s.records
    ensures Progresses(s, At(Requeued(p, s, id, reason, now, draw), w, phase), x)
  {
    var rec := s.records[id];
    if |rec.attempts| < rec.spec.maxAttempts {
      CountAppend(s.retries, [Retry(id, now + Backoff(p, |rec.attempts|, draw))], RetryOf(x));
    }
  }

  lemma AcquireProgresses(p: Policy, k: Kernel, w: nat, id: TaskId, deadline: Option<real>, token: nat, draw: real,
      x: TaskId)
    requires Ready(k.sched, w, id) && k.sched.workers[w].Acquiring? && x in k.sched.records
    ensures Progresses(k.sched, AcquireFor(p, k, w, id, deadline, token, draw).sched, x)
  {
    var (r, result) := TryAcquire(k.fleet.reg, w, k.sched.records[id].spec.selector, deadline, k.now, token);
    match result
    case Granted(h) => StartedProgresses(k.sched, w, id, h, r.issued[h].device, x);
    case Parked => NothingProgresses(k.sched, k.sched, x);
    case GaveUp => RequeuedProgresses(p.sched, k.sched, w, id, NO_LEASE, k.now, draw, Tail(id), x);
  }

  lemma TakeProgresses(p: Policy, k: Kernel, w: nat, token: nat, draw: real, x: TaskId)
    requires KernelValid(p, k) && Enabled(p, k, Take(w, token, draw)) && x in k.sched.records
    ensures Progresses(k.sched, TakeNext(p, k, w, token, draw).sched, x)
  {
    var taken := k.(sched := Dequeued(k.sched, w));
    DequeuedValid(k.sched, w);
    if k.sched.queue[0].Some? {
      OwnerReady(taken.sched, w, k.sched.queue[0].value);
      RunOnceProgresses(p, taken, w, k.sched.queue[0].value, token, draw, x);
    }
  }

  lemma RunOnceProgresses(p: Policy, k: Kernel, w: nat, id: TaskId, token: nat, draw: real, x: TaskId)
    requires Ready(k.sched, w, id) && k.sched.workers[w].Acquiring? && x in k.sched.records
    ensures Progresses(k.sched, RunOnce(p, k, w, id, token, draw).sched, x)
  {
    if CouldEverMatch(k.fleet.reg, k.sched.records[id].spec.selector) {
      AcquireProgresses(p, k, w, id, Deadline(p, k.now), token, draw, x);
    }
  }

  lemma WakeProgresses(p: Policy, k: Kernel, w: nat, token: nat, draw: real, x: TaskId)
    requires KernelValid(p, k) && Enabled(p, k, WaiterWake(w, token, draw)) && x in k.sched.records
    ensures Progresses(k.sched, Apply(p, k, WaiterWake(w, token, draw)).sched, x)
  {
    var id := k.sched.workers[w].task;
    OwnerReady(k.sched, w, id);
    AcquireProgresses(p, WithReg(k, Unparked(k.fleet.reg, w)), w, id, k.fleet.reg.waiters[w].deadline, token, draw, x);
  }

  lemma FailureProgresses(p: SchedulerPolicy, s: Sched, w: nat, now: real, draw: real, x: TaskId)
    requires Scheduler.Valid(s) && w < |s.workers| && s.workers[w].Failing? && x in s.records
    requires s.workers[w].task in s.records
    ensures Progresses(s, FailureRequeued(p, s, w, now, draw), x)
  {
    var ph := s.workers[w];
    OwnerReady(s, w, ph.task);
    RequeuedProgresses(p, s, w, ph.task, ph.reason, now, draw, Releasing(ph.task, ph.lease), x);
  }

  lemma TimeoutProgresses(p: SchedulerPolicy, s: Sched, w: nat, now: real, draw: real, x: TaskId)
    requires Scheduler.Valid(s) && w < |s.workers| && s.workers[w].Acquiring? && x in s.records
    requires s.workers[w].task in s.records
    ensures Progresses(s, LeaseTimedOut(p, s, w, s.workers[w].task, now, draw), x)
  {
    var id := s.workers[w].task;
    OwnerReady(s, w, id);
    RequeuedProgresses(p, s, w, id, NO_LEASE, now, draw, Tail(id), x);
  }

  lemma EndProgresses(s: Sched, w: nat, o: Outcome, x: TaskId)
    requires Scheduler.Valid(s) && w < |s.workers| && s.workers[w].Executing? && x in s.records
    requires s.workers[w].task in s.records
    ensures Progresses(s, ExecutionDone(s, w, s.workers[w].task, s.workers[w].lease, o), x)
  {
    OwnerReady(s, w, s.workers[w].task);
    DoneProgresses(s, w, s.workers[w].task, s.workers[w].lease, o, x);
  }

  lemma RetryProgresses(s: Sched, i: nat, x: TaskId)
    requires i < |s.retries| && x in s.records
    ensures Progresses(s, RetryFired(s, i), x)
  {
    CountRemove(s.retries, i, RetryOf(x));
    NothingProgresses(s, RetryFired(s, i), x);
  }

  lemma OtherProgresses(p: Policy, k: Kernel, step: Step, x: TaskId)
    requires Enabled(p, k, step) && x in k.sched.records
    requires step.Submit? || step.Start? || step.Stop? || step.DrainCall? || step.DrainReturn? || step.LeaseReturn?
             || step.WorkerTail?
    ensures Progresses(k.sched, Apply(p, k, step).sched, x)
  {
    NothingProgresses(k.sched, Apply(p, k, step).sched, x);
  }

  lemma StepProgresses(p: Policy, k: Kernel, step: Step, x: TaskId)
    requires KernelValid(p, k) && Enabled(p, k, step) && x in k.sched.records
    ensures Progresses(k.sched, Apply(p, k, step).sched, x)
  {
    if MonitorStep(step) {
      MonitorStepSched(p, k, step);
      NothingProgresses(k.sched, k.sched, x);
    } else if step.Take? {
      TakeProgresses(p, k, step.w, step.token, step.draw, x);
    } else if step.WaiterWake? {
      WakeProgresses(p, k, step.w, step.token, step.draw, x);
    } else if step.WaiterTimeout? {
      TimeoutProgresses(p.sched, k.sched, step.w, k.now, step.draw, x);
    } else if step.ExecutionEnd? {
      EndProgresses(k.sched, step.w, step.outcome, x);
    } else if step.FailureRequeue? {
      FailureProgresses(p.sched, k.sched, step.w, k.now, step.draw, x);
    } else if step.RetryFire? {
      RetryProgresses(k.sched, step.i, x);
    } else {
      OtherProgresses(p, k, step, x);
    }
  }

  // ---------- over whole runs ----------

  /** Attempts are numbered 1, 2, ... in order and never exceed the limit. */
  lemma AttemptsBounded(p: Policy, trace: seq<Kernel>, steps: seq<Step>, n: nat, id: TaskId)
    requires IsRun(p, trace, steps) && n < |trace| && id in trace[n].sched.records
    ensures
      var rec := trace[n].sched.records[id];
      && |rec.attempts| <= (if rec.spec.maxAttempts < 1 then 1 else rec.spec.maxAttempts)
      && (forall i | 0 <= i < |rec.attempts| :: rec.attempts[i].number == i + 1)
      && rec.state != Assigned
  {
    RunValid(p, trace, steps, n);
  }

  /** A terminal record stays as it is; any record keeps the attempts it has made. */
  lemma {:induction false} RecordsOnlyProgress(p: Policy, trace: seq<Kernel>, steps: seq<Step>, m: nat, n: nat,
      id: TaskId)
    requires IsRun(p, trace, steps) && m <= n < |trace| && id in trace[m].sched.records
    ensures id in trace[n].sched.records
    ensures Later(trace[m].sched.records[id], trace[n].sched.records[id])
  {
    if m < n {
      RecordsOnlyProgress(p, trace, steps, m, n - 1, id);
      RunValid(p, trace, steps, n - 1);
      StepProgresses(p, trace[n - 1], steps[n - 1], id);
      LaterTwice(trace[m].sched.records[id], trace[n - 1].sched.records[id], trace[n].sched.records[id]);
    }
  }

  /** Requeues of `id` in the first n steps, and those of them that follow a lease timeout. */
  ghost function RequeueCount(trace: seq<Kernel>, id: TaskId, n: nat): nat
    requires n < |trace|
  {
    if n == 0 then 0
    else RequeueCount(trace, id, n - 1)
         + if Requeues(trace[n - 1].sched, trace[n].sched, id) then 1 else 0
  }

  ghost function TimeoutCount(trace: seq<Kernel>, id: TaskId, n: nat): nat
    requires n < |trace|
  {
    if n == 0 then 0
    else TimeoutCount(trace, id, n - 1)
         + if Requeues(trace[n - 1].sched, trace[n].sched, id) && id in trace[n - 1].sched.records
              && trace[n - 1].sched.records[id].state == Pending then 1 else 0
  }

  lemma AcquireKeepsKeys(p: Policy, k: Kernel, w: nat, id: TaskId, deadline: Option<real>, token: nat, draw: real)
    requires w < |k.sched.workers| && id in k.sched.records
    ensures AcquireFor(p, k, w, id, deadline, token, draw).sched.records.Keys == k.sched.records.Keys
  {
  }

  lemma TakeKeepsKeys(p: Policy, k: Kernel, w: nat, token: nat, draw: real)
    requires Enabled(p, k, Take(w, token, draw))
    ensures TakeNext(p, k, w, token, draw).sched.records.Keys == k.sched.records.Keys
  {
    if k.sched.queue[0].Some? {
      var id := k.sched.queue[0].value;
      var taken := k.(sched := Dequeued(k.sched, w));
      if !Skippable(taken.sched, id) && CouldEverMatch(k.fleet.reg, k.sched.records[id].spec.selector) {
        AcquireKeepsKeys(p, taken, w, id, Deadline(p, k.now), token, draw);
      }
    }
  }

  lemma ClientKeepsKeys(p: Policy, k: Kernel, step: Step)
    requires Enabled(p, k, step)
    requires step.Start? || step.Stop? || step.DrainCall? || step.DrainReturn? || step.RetryFire?
    ensures Apply(p, k, step).sched.records.Keys == k.sched.records.Keys
  {
  }

  /** Only `submit` makes records. */
  lemma OnlySubmitAdds(p: Policy, k: Kernel, step: Step)
    requires Enabled(p, k, step) && !step.Submit?
    ensures Apply(p, k, step).sched.records.Keys == k.sched.records.Keys
  {
    if MonitorStep(step) {
      MonitorStepSched(p, k, step);
    } else if step.Take? {
      TakeKeepsKeys(p, k, step.w, step.token, step.draw);
    } else if step.WaiterWake? {
      AcquireKeepsKeys(p, WithReg(k, Unparked(k.fleet.reg, step.w)), step.w, k.sched.workers[step.w].task,
                       k.fleet.reg.waiters[step.w].deadline, step.token, step.draw);
    } else if step.Start? || step.Stop? || step.DrainCall? || step.DrainReturn? || step.RetryFire? {
      ClientKeepsKeys(p, k, step);
    }
  }

  lemma UnknownNotRequeued(p: Policy, k: Kernel, step: Step, id: TaskId)
    requires KernelValid(p, k) && Enabled(p, k, step) && id !in k.sched.records
    ensures !Requeues(k.sched, Apply(p, k, step).sched, id)
    ensures id in Apply(p, k, step).sched.records ==>
              var rec := Apply(p, k, step).sched.records[id];
              Budget(rec) <= AttemptLimit(rec.spec)
  {
    if !step.Submit? {
      var s' := Apply(p, k, step).sched;
      ApplyValid(p, k, step);
      OnlySubmitAdds(p, k, step);
      assert Carriers(s', id) == if Live(s', id) then 1 else 0;
    }
  }

  ghost predicate Paid(s: Sched, id: TaskId, requeues: nat, timeouts: nat) {
    if id !in s.records then requeues == 0
    else
      var limit := AttemptLimit(s.records[id].spec);
      && requeues - timeouts + 1 <= limit
      && (!Terminal(s.records[id].state) ==> requeues - timeouts + Budget(s.records[id]) <= limit)
  }

  lemma StepPaid(p: Policy, k: Kernel, step: Step, id: TaskId, requeues: nat, timeouts: nat)
    requires KernelValid(p, k) && Enabled(p, k, step) && Paid(k.sched, id, requeues, timeouts)
    ensures
      var s' := Apply(p, k, step).sched;
      var again := Requeues(k.sched, s', id);
      Paid(s', id, requeues + (if again then 1 else 0),
           timeouts + (if again && InState(k.sched, id, Pending) then 1 else 0))
  {
    ApplyValid(p, k, step);
    var s' := Apply(p, k, step).sched;
    if id in k.sched.records {
      StepProgresses(p, k, step, id);
      assert RecordValid(s'.records[id]);
    } else {
      UnknownNotRequeued(p, k, step, id);
    }
  }

  lemma RunStepPaid(p: Policy, trace: seq<Kernel>, steps: seq<Step>, i: nat, id: TaskId, requeues: nat, timeouts: nat)
    requires IsRun(p, trace, steps) && i < |steps| && Paid(trace[i].sched, id, requeues, timeouts)
    ensures
      var again := Requeues(trace[i].sched, trace[i + 1].sched, id);
      Paid(trace[i + 1].sched, id, requeues + (if again then 1 else 0),
           timeouts + (if again && InState(trace[i].sched, id, Pending) then 1 else 0))
  {
    RunValid(p, trace, steps, i);
    StepPaid(p, trace[i], steps[i], id, requeues, timeouts);
  }

  /** Everything but lease timeouts is paid for out of the attempt budget. */
  lemma {:induction false} RequeuesPaid(p: Policy, trace: seq<Kernel>, steps: seq<Step>, n: nat, id: TaskId)
    requires IsRun(p, trace, steps) && n < |trace|
    ensures Paid(trace[n].sched, id, RequeueCount(trace, id, n), TimeoutCount(trace, id, n))
  {
    if n > 0 {
      RequeuesPaid(p, trace, steps, n - 1, id);
      RunStepPaid(p, trace, steps, n - 1, id, RequeueCount(trace, id, n - 1), TimeoutCount(trace, id, n - 1));
    }
  }

  /** However long the run, a task is requeued at most once per attempt it may fail and once
      per lease timeout, so finitely many lease timeouts mean finitely many requeues. */
  lemma RequeuesBounded(p: Policy, trace: seq<Kernel>, steps: seq<Step>, n: nat, id: TaskId)
    requires IsRun(p, trace, steps) && n < |trace| && id in trace[n].sched.records
    ensures RequeueCount(trace, id, n)
            <= AttemptLimit(trace[n].sched.records[id].spec) - 1 + TimeoutCount(trace, id, n)
  {
    RequeuesPaid(p, trace, steps, n, id);
  }
}
