/** Why a task is finished: every terminal record goes back to one step that gave it its
    verdict, and that step had a reason. */
module VerdictTheorems {
  import opened Counting
  import opened Tasks
  import opened Devices
  import opened Scheduler
  import opened Kernel
  import opened KernelProofs
  import opened TaskTheorems
  import opened AttemptTheorems
  import opened LeaseTheorems

  ghost predicate Decided(s: Sched, id: TaskId) {
    id in s.records && Terminal(s.records[id].state)
  }

  /** Worker w is executing the task. */
  ghost predicate Executes(s: Sched, w: nat, id: TaskId) {
    w < |s.workers| && s.workers[w].Executing? && s.workers[w].task == id
  }

  /** Worker w is handling this failure of the task. */
  ghost predicate Fails(s: Sched, w: nat, id: TaskId, error: Option<string>) {
    w < |s.workers| && s.workers[w].Failing? && s.workers[w].task == id && error == Some(s.workers[w].reason)
  }

  /** In this step a worker can find that it gets no lease for the task in time. */
  ghost predicate GivesUp(s: Sched, step: Step, id: TaskId) {
    || (step.Take? && s.queue != [] && s.queue[0] == Some(id))
    || ((step.WaiterWake? || step.WaiterTimeout?)
        && step.w < |s.workers| && s.workers[step.w].Acquiring? && s.workers[step.w].task == id)
  }

  /** `step`, taken from k, leaves the record `rec` of a task, and this is why. */
  ghost predicate Cause(p: Policy, k: Kernel, step: Step, id: TaskId, rec: TaskRecord) {
    match rec.state
    case Succeeded =>
      step.ExecutionEnd? && Executes(k.sched, step.w, id) && step.outcome.Success?
      && rec.result == Some(step.outcome.result)
    case Rejected =>
      || (step.ExecutionEnd? && Executes(k.sched, step.w, id) && step.outcome.Fatal?
          && rec.error == Some(step.outcome.reason))
      || (step.Submit? && step.spec.id == id && step.spec.kind !in p.sched.kinds && rec.attempts == [])
    case Failed =>
      && |rec.attempts| >= rec.spec.maxAttempts
      && (if step.FailureRequeue? then Fails(k.sched, step.w, id, rec.error)
          else GivesUp(k.sched, step, id) && rec.error == Some(NO_LEASE))
    case Abandoned =>
      step.Take? && id in k.sched.records && Hopeless(k.fleet.reg, k.sched.records[id].spec.selector)
    case _ => false
  }

  /** If this change of the scheduler finishes x at all, then x is the task `id`, its attempts
      are spent, and `reason` is what is said about it. */
  ghost predicate OnlySpent(s: Sched, s': Sched, id: TaskId, reason: string, x: TaskId) {
    Decided(s', x) && !Decided(s, x) ==>
      && x == id
      && s'.records[x].state == Failed && s'.records[x].error == Some(reason)
      && |s'.records[x].attempts| >= s'.records[x].spec.maxAttempts
  }

  lemma RequeuedVerdict(p: SchedulerPolicy, s: Sched, w: nat, id: TaskId, reason: string, now: real, draw: real,
                        phase: Worker, x: TaskId)
    requires w < |s.workers| && id in s.records
    ensures OnlySpent(s, At(Requeued(p, s, id, reason, now, draw), w, phase), id, reason, x)
  {
  }

  lemma AcquireVerdict(p: Policy, k: Kernel, w: nat, id: TaskId, deadline: Option<real>, token: nat, draw: real,
                       x: TaskId)
    requires w < |k.sched.workers| && id in k.sched.records
    ensures OnlySpent(k.sched, AcquireFor(p, k, w, id, deadline, token, draw).sched, id, NO_LEASE, x)
  {
    var (r, result) := TryAcquire(k.fleet.reg, w, k.sched.records[id].spec.selector, deadline, k.now, token);
    if result.GaveUp? {
      RequeuedVerdict(p.sched, k.sched, w, id, NO_LEASE, k.now, draw, Tail(id), x);
    }
  }

  lemma TakeVerdict(p: Policy, k: Kernel, w: nat, token: nat, draw: real, x: TaskId)
    requires Enabled(p, k, Take(w, token, draw))
    requires !Decided(k.sched, x) && Decided(TakeNext(p, k, w, token, draw).sched, x)
    ensures Cause(p, k, Take(w, token, draw), x, TakeNext(p, k, w, token, draw).sched.records[x])
  {
    var id := k.sched.queue[0].value;
    var taken := k.(sched := Dequeued(k.sched, w));
    if CouldEverMatch(k.fleet.reg, k.sched.records[id].spec.selector) {
      AcquireVerdict(p, taken, w, id, Deadline(p, k.now), token, draw, x);
    }
  }

  lemma EndVerdict(s: Sched, w: nat, id: TaskId, handle: nat, o: Outcome, x: TaskId)
    requires w < |s.workers| && id in s.records && !Decided(s, x) && Decided(ExecutionDone(s, w, id, handle, o), x)
    ensures x == id && !IsFailure(o)
    ensures
      var rec := ExecutionDone(s, w, id, handle, o).records[x];
      if o.Success? then rec.state == Succeeded && rec.result == Some(o.result)
      else rec.state == Rejected && rec.error == Some(o.reason)
  {
  }

  lemma StepVerdict(p: Policy, k: Kernel, step: Step, x: TaskId)
    requires Enabled(p, k, step) && !Decided(k.sched, x) && Decided(Apply(p, k, step).sched, x)
    ensures Cause(p, k, step, x, Apply(p, k, step).sched.records[x])
  {
    var s := k.sched;
    if MonitorStep(step) {
      MonitorStepSched(p, k, step);
    } else {
      match step
      case Take(w, token, draw) => TakeVerdict(p, k, w, token, draw, x);
      case WaiterWake(w, token, draw) =>
        AcquireVerdict(p, WithReg(k, Unparked(k.fleet.reg, w)), w, s.workers[w].task,
            k.fleet.reg.waiters[w].deadline, token, draw, x);
      case WaiterTimeout(w, draw) => RequeuedVerdict(p.sched, s, w, s.workers[w].task, NO_LEASE, k.now, draw,
          Tail(s.workers[w].task), x);
      case ExecutionEnd(w, o) => EndVerdict(s, w, s.workers[w].task, s.workers[w].lease, o, x);
      case FailureRequeue(w, draw) =>
        var ph := s.workers[w];
        RequeuedVerdict(p.sched, s, w, ph.task, ph.reason, k.now, draw, Releasing(ph.task, ph.lease), x);
      case _ =>
    }
  }

  /** One of the first n steps finished the task and left it as `rec`. */
  ghost predicate HasCause(p: Policy, trace: seq<Kernel>, steps: seq<Step>, n: nat, id: TaskId, rec: TaskRecord)
    requires n <= |steps| && n < |trace|
  {
    n > 0 && (HasCause(p, trace, steps, n - 1, id, rec) || IsCause(p, trace, steps, n - 1, id, rec))
  }

  ghost predicate IsCause(p: Policy, trace: seq<Kernel>, steps: seq<Step>, m: nat, id: TaskId, rec: TaskRecord)
    requires m < |steps| && m < |trace|
  {
    !Decided(trace[m].sched, id) && Cause(p, trace[m], steps[m], id, rec)
  }

  lemma {:induction false} FindCause(p: Policy, trace: seq<Kernel>, steps: seq<Step>, n: nat, id: TaskId,
      rec: TaskRecord) returns (m: nat)
    requires n <= |steps| && n < |trace| && HasCause(p, trace, steps, n, id, rec)
    ensures m < n && IsCause(p, trace, steps, m, id, rec)
  {
    if HasCause(p, trace, steps, n - 1, id, rec) {
      m := FindCause(p, trace, steps, n - 1, id, rec);
    } else {
      m := n - 1;
    }
  }

  lemma RunStepVerdict(p: Policy, trace: seq<Kernel>, steps: seq<Step>, m: nat, id: TaskId)
    requires IsRun(p, trace, steps) && m < |steps| && !Decided(trace[m].sched, id) && Decided(trace[m + 1].sched, id)
    ensures HasCause(p, trace, steps, m + 1, id, trace[m + 1].sched.records[id])
  {
    StepVerdict(p, trace[m], steps[m], id);
  }

  lemma RunStepFinal(p: Policy, trace: seq<Kernel>, steps: seq<Step>, m: nat, id: TaskId)
    requires IsRun(p, trace, steps) && m < |steps| && Decided(trace[m].sched, id)
    ensures id in trace[m + 1].sched.records && trace[m + 1].sched.records[id] == trace[m].sched.records[id]
  {
    RecordsOnlyProgress(p, trace, steps, m, m + 1, id);
  }

  lemma {:induction false} RunHasCause(p: Policy, trace: seq<Kernel>, steps: seq<Step>, n: nat, id: TaskId)
    requires IsRun(p, trace, steps) && n < |trace| && Decided(trace[n].sched, id)
    ensures HasCause(p, trace, steps, n, id, trace[n].sched.records[id])
  {
    if n > 0 && Decided(trace[n - 1].sched, id) {
      RunHasCause(p, trace, steps, n - 1, id);
      RunStepFinal(p, trace, steps, n - 1, id);
    } else {
      assert n > 0;
      RunStepVerdict(p, trace, steps, n - 1, id);
    }
  }

  /** Behind every finished record of every run stands one step that finished it: SUCCEEDED
      means its target returned that result, REJECTED that its target raised a fatal error
      with that reason or that its kind is unknown, FAILED that its attempts were
      spent and a worker handled its failure or got no lease for it, with that error, and
      ABANDONED that no device could serve it. */
  lemma VerdictHasACause(p: Policy, trace: seq<Kernel>, steps: seq<Step>, n: nat, id: TaskId) returns (m: nat)
    requires IsRun(p, trace, steps) && n < |trace| && Decided(trace[n].sched, id)
    ensures m < n && IsCause(p, trace, steps, m, id, trace[n].sched.records[id])
  {
    RunHasCause(p, trace, steps, n, id);
    m := FindCause(p, trace, steps, n, id, trace[n].sched.records[id]);
  }

  // ---------- a lease timeout is a worker that gives up ----------

  ghost predicate OnlyRequeues(s: Sched, s': Sched, id: TaskId, x: TaskId) {
    Requeues(s, s', x) ==> x == id
  }

  lemma RequeuedOnly(p: SchedulerPolicy, s: Sched, w: nat, id: TaskId, reason: string, now: real, draw: real,
                     phase: Worker, x: TaskId)
    requires w < |s.workers| && id in s.records
    ensures OnlyRequeues(s, At(Requeued(p, s, id, reason, now, draw), w, phase), id, x)
  {
    var rec := s.records[id];
    CountAppend(s.retries, [Retry(id, now + Backoff(p, |rec.attempts|, draw))], RetryOf(x));
  }

  lemma AcquireRequeues(p: Policy, k: Kernel, w: nat, id: TaskId, deadline: Option<real>, token: nat, draw: real,
                        x: TaskId)
    requires w < |k.sched.workers| && id in k.sched.records
    ensures
      var s' := AcquireFor(p, k, w, id, deadline, token, draw).sched;
      OnlyRequeues(k.sched, s', id, x)
      && (Requeues(k.sched, s', x) ==> FindFree(k.fleet.reg, k.sched.records[id].spec.selector) == None)
  {
    RequeuedOnly(p.sched, k.sched, w, id, NO_LEASE, k.now, draw, Tail(id), x);
  }

  /** No device the task could take is free. */
  ghost predicate Refused(k: Kernel, id: TaskId) {
    id in k.sched.records && FindFree(k.fleet.reg, k.sched.records[id].spec.selector) == None
  }

  lemma TakeRequeues(p: Policy, k: Kernel, w: nat, token: nat, draw: real, x: TaskId)
    requires Enabled(p, k, Take(w, token, draw)) && Requeues(k.sched, TakeNext(p, k, w, token, draw).sched, x)
    ensures k.sched.queue[0] == Some(x) && Refused(k, x)
  {
    var id := k.sched.queue[0].value;
    var taken := k.(sched := Dequeued(k.sched, w));
    if !Skippable(taken.sched, id) && CouldEverMatch(k.fleet.reg, k.sched.records[id].spec.selector) {
      AcquireRequeues(p, taken, w, id, Deadline(p, k.now), token, draw, x);
    }
  }

  lemma WakeRequeues(p: Policy, k: Kernel, w: nat, token: nat, draw: real, x: TaskId)
    requires Enabled(p, k, WaiterWake(w, token, draw))
    requires Requeues(k.sched, Apply(p, k, WaiterWake(w, token, draw)).sched, x)
    ensures k.sched.workers[w].task == x && Refused(k, x)
  {
    var r := Unparked(k.fleet.reg, w);
    AcquireRequeues(p, WithReg(k, r), w, k.sched.workers[w].task, k.fleet.reg.waiters[w].deadline, token, draw, x);
    SameFree(k.fleet.reg, r, k.sched.records[x].spec.selector);
  }

  lemma RetryRequeuesNone(s: Sched, i: nat, x: TaskId)
    requires i < |s.retries|
    ensures !Requeues(s, RetryFired(s, i), x)
  {
    CountRemove(s.retries, i, RetryOf(x));
  }

  /** A worker is refused a lease for the task, or handles its failure; nothing else requeues. */
  ghost predicate RequeueCause(k: Kernel, step: Step, id: TaskId) {
    if step.FailureRequeue? then step.w < |k.sched.workers| && k.sched.workers[step.w].Failing?
                                 && k.sched.workers[step.w].task == id
    else GivesUp(k.sched, step, id) && (step.WaiterTimeout? || Refused(k, id))
  }

  lemma StepRequeues(p: Policy, k: Kernel, step: Step, x: TaskId)
    requires Enabled(p, k, step) && Requeues(k.sched, Apply(p, k, step).sched, x)
    ensures RequeueCause(k, step, x)
  {
    var s := k.sched;
    if MonitorStep(step) {
      MonitorStepSched(p, k, step);
    } else {
      match step
      case Take(w, token, draw) => TakeRequeues(p, k, w, token, draw, x);
      case WaiterWake(w, token, draw) => WakeRequeues(p, k, w, token, draw, x);
      case WaiterTimeout(w, draw) =>
        RequeuedOnly(p.sched, s, w, s.workers[w].task, NO_LEASE, k.now, draw, Tail(s.workers[w].task), x);
      case FailureRequeue(w, draw) =>
        var ph := s.workers[w];
        RequeuedOnly(p.sched, s, w, ph.task, ph.reason, k.now, draw, Releasing(ph.task, ph.lease), x);
      case RetryFire(i) => RetryRequeuesNone(s, i, x);
      case _ =>
    }
  }

  lemma CauseState(s: Sched, step: Step, id: TaskId)
    requires PhasesValid(s)
    ensures GivesUp(s, step, id) ==> InState(s, id, Pending)
    ensures forall w | 0 <= w < |s.workers| && s.workers[w].Failing? && s.workers[w].task == id ::
              InState(s, id, Running)
  {
  }

  /** What the count of lease timeouts counts: a requeue finds the task PENDING if and only if it
      is the step of a worker that gives up waiting for a lease, with no device free or its
      deadline passed; every other requeue handles the failure of a RUNNING task. */
  lemma TimeoutIsGiveUp(p: Policy, trace: seq<Kernel>, steps: seq<Step>, n: nat, id: TaskId)
    requires IsRun(p, trace, steps) && n < |steps| && Requeues(trace[n].sched, trace[n + 1].sched, id)
    ensures RequeueCause(trace[n], steps[n], id)
    ensures InState(trace[n].sched, id, Pending) <==> GivesUp(trace[n].sched, steps[n], id)
    ensures InState(trace[n].sched, id, Running) <==> steps[n].FailureRequeue?
  {
    RunValid(p, trace, steps, n);
    StepRequeues(p, trace[n], steps[n], id);
    CauseState(trace[n].sched, steps[n], id);
  }
}
