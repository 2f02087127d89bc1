/** What `stop` does to `drain`: from then on every worker still at work has its own pill in
    the queue, so the queue is never empty when idleness could be announced. */
module StopTheorems {
  import opened Counting
  import opened Tasks
  import opened Devices
  import opened Scheduler
  import opened Kernel
  import opened TaskTheorems

  const PILL: Option<TaskId> -> bool := (e: Option<TaskId>) => e.None?

  const AWAKE: Worker -> bool := (w: Worker) => !w.Stopped?

  /** There is a pill for every worker that has not taken one. */
  ghost predicate Poisoned(p: SchedulerPolicy, s: Sched) {
    |s.workers| == p.workers && Count(s.workers, AWAKE) <= Count(s.queue, PILL)
  }

  /** No announcement: the flag is not raised and nobody is woken. */
  ghost predicate Silent(s: Sched, s': Sched) {
    && (s'.idle ==> s.idle)
    && forall j | j in s.drains && j in s'.drains :: s'.drains[j].woken == s.drains[j].woken
  }

  /** Worker w goes on, the queue keeps its pills, and nothing is announced. */
  ghost predicate GoesOn(s: Sched, s': Sched, w: nat) {
    && w < |s.workers| && !s.workers[w].Stopped?
    && w < |s'.workers| && !s'.workers[w].Stopped? && s'.workers == s.workers[w := s'.workers[w]]
    && s'.queue == s.queue && s'.running == s.running && Silent(s, s')
  }

  lemma GoesOnPoisoned(p: SchedulerPolicy, s: Sched, s': Sched, w: nat)
    requires Poisoned(p, s) && GoesOn(s, s', w)
    ensures Poisoned(p, s')
  {
    CountUpdate(s.workers, w, s'.workers[w], AWAKE);
  }

  lemma AcquireGoesOn(p: Policy, k: Kernel, w: nat, id: TaskId, deadline: Option<real>, token: nat, draw: real)
    requires w < |k.sched.workers| && k.sched.workers[w].Acquiring? && id in k.sched.records
    ensures GoesOn(k.sched, AcquireFor(p, k, w, id, deadline, token, draw).sched, w)
  {
  }

  lemma RunOnceGoesOn(p: Policy, k: Kernel, w: nat, id: TaskId, token: nat, draw: real)
    requires w < |k.sched.workers| && k.sched.workers[w].Acquiring?
    ensures GoesOn(k.sched, RunOnce(p, k, w, id, token, draw).sched, w)
  {
    if !Skippable(k.sched, id) && CouldEverMatch(k.fleet.reg, k.sched.records[id].spec.selector) {
      AcquireGoesOn(p, k, w, id, Deadline(p, k.now), token, draw);
    }
  }

  lemma DequeuedPoisoned(p: SchedulerPolicy, s: Sched, w: nat)
    requires Poisoned(p, s) && w < |s.workers| && s.workers[w].Idle? && s.queue != []
    ensures Poisoned(p, Dequeued(s, w)) && Silent(s, Dequeued(s, w))
  {
    CountUpdate(s.workers, w, Dequeued(s, w).workers[w], AWAKE);
  }

  lemma TakePoisoned(p: Policy, k: Kernel, w: nat, token: nat, draw: real)
    requires Poisoned(p.sched, k.sched) && WorkerAt(k, w) && k.sched.workers[w].Idle? && k.sched.queue != []
    ensures var s' := TakeNext(p, k, w, token, draw).sched; Poisoned(p.sched, s') && Silent(k.sched, s')
  {
    var taken := k.(sched := Dequeued(k.sched, w));
    DequeuedPoisoned(p.sched, k.sched, w);
    if k.sched.queue[0].Some? {
      var id := k.sched.queue[0].value;
      RunOnceGoesOn(p, taken, w, id, token, draw);
      GoesOnPoisoned(p.sched, taken.sched, RunOnce(p, taken, w, id, token, draw).sched, w);
    }
  }

  /** The worker whose tail this is has a pill in the queue. */
  lemma TailIsSilent(p: SchedulerPolicy, s: Sched, w: nat)
    requires Poisoned(p, s) && w < |s.workers| && s.workers[w].Tail?
    ensures GoesOn(s, TailDone(s, w), w)
  {
    CountZero(s.workers, AWAKE);
    assert AWAKE(s.workers[w]);
    assert s.queue != [];
  }

  lemma RequeuedGoesOn(p: SchedulerPolicy, s: Sched, w: nat, id: TaskId, reason: string, now: real, draw: real,
      phase: Worker)
    requires w < |s.workers| && !s.workers[w].Stopped? && id in s.records && !phase.Stopped?
    ensures GoesOn(s, At(Requeued(p, s, id, reason, now, draw), w, phase), w)
  {
  }

  lemma EndGoesOn(s: Sched, w: nat, id: TaskId, handle: nat, o: Outcome)
    requires w < |s.workers| && !s.workers[w].Stopped? && id in s.records
    ensures GoesOn(s, ExecutionDone(s, w, id, handle, o), w)
  {
  }

  lemma ReturnGoesOn(s: Sched, w: nat)
    requires w < |s.workers| && s.workers[w].Releasing?
    ensures GoesOn(s, LeaseReturned(s, w), w)
  {
  }

  lemma FailureGoesOn(p: SchedulerPolicy, s: Sched, w: nat, now: real, draw: real)
    requires w < |s.workers| && s.workers[w].Failing? && s.workers[w].task in s.records
    ensures GoesOn(s, FailureRequeued(p, s, w, now, draw), w)
  {
    var ph := s.workers[w];
    RequeuedGoesOn(p, s, w, ph.task, ph.reason, now, draw, Releasing(ph.task, ph.lease));
  }

  lemma WorkerGoesOn(p: Policy, k: Kernel, step: Step)
    requires Poisoned(p.sched, k.sched) && Enabled(p, k, step)
    requires step.WaiterTimeout? || step.ExecutionEnd? || step.FailureRequeue? || step.LeaseReturn? || step.WorkerTail?
    ensures GoesOn(k.sched, Apply(p, k, step).sched, step.w)
  {
    var s := k.sched;
    match step
    case WaiterTimeout(w, draw) =>
      RequeuedGoesOn(p.sched, s, w, s.workers[w].task, NO_LEASE, k.now, draw, Tail(s.workers[w].task));
    case ExecutionEnd(w, o) => EndGoesOn(s, w, s.workers[w].task, s.workers[w].lease, o);
    case FailureRequeue(w, draw) => FailureGoesOn(p.sched, s, w, k.now, draw);
    case LeaseReturn(w) => ReturnGoesOn(s, w);
    case WorkerTail(w) => TailIsSilent(p.sched, s, w);
  }

  lemma {:induction false} CountAll<T>(xs: seq<T>, f: T -> bool)
    requires forall i | 0 <= i < |xs| :: f(xs[i])
    ensures Count(xs, f) == |xs|
  {
    if xs != [] {
      CountAll(xs[1..], f);
    }
  }

  lemma StopPoisons(p: SchedulerPolicy, s: Sched)
    requires s.running && |s.workers| == p.workers
    ensures Poisoned(p, StopAsked(s)) && Silent(s, StopAsked(s))
  {
    var pills: seq<Option<TaskId>> := seq(|s.workers|, _ => None);
    CountAppend(s.queue, pills, PILL);
    CountAll(pills, PILL);
    CountAtMost(s.workers, AWAKE);
    assert StopAsked(s).queue == s.queue + pills;
  }

  lemma ClientPoisoned(p: Policy, k: Kernel, step: Step)
    requires Poisoned(p.sched, k.sched) && Enabled(p, k, step)
    requires step.Submit? || step.Start? || step.Stop? || step.DrainCall? || step.DrainReturn? || step.RetryFire?
    ensures Poisoned(p.sched, Apply(p, k, step).sched) && Silent(k.sched, Apply(p, k, step).sched)
  {
    var s := k.sched;
    match step
    case Submit(spec) => CountAppend(s.queue, [Some(spec.id)], PILL);
    case Start => assert Started(p.sched, s).workers == s.workers;
    case Stop => if s.running { StopPoisons(p.sched, s); }
    case RetryFire(i) => CountAppend(s.queue, [Some(s.retries[i].task)], PILL);
    case _ =>
  }

  /** Once poisoned, always poisoned, and nothing is announced any more. */
  lemma StepPoisoned(p: Policy, k: Kernel, step: Step)
    requires Poisoned(p.sched, k.sched) && Enabled(p, k, step)
    ensures Poisoned(p.sched, Apply(p, k, step).sched) && Silent(k.sched, Apply(p, k, step).sched)
  {
    if MonitorStep(step) {
      MonitorStepSched(p, k, step);
    } else if step.Take? {
      TakePoisoned(p, k, step.w, step.token, step.draw);
    } else if step.WaiterWake? {
      var task := k.sched.workers[step.w].task;
      AcquireGoesOn(p, WithReg(k, Unparked(k.fleet.reg, step.w)), step.w, task, k.fleet.reg.waiters[step.w].deadline,
          step.token, step.draw);
      GoesOnPoisoned(p.sched, k.sched, Apply(p, k, step).sched, step.w);
    } else if step.WaiterTimeout? || step.ExecutionEnd? || step.FailureRequeue? || step.LeaseReturn?
              || step.WorkerTail? {
      WorkerGoesOn(p, k, step);
      GoesOnPoisoned(p.sched, k.sched, Apply(p, k, step).sched, step.w);
    } else {
      ClientPoisoned(p, k, step);
    }
  }

  // ---------- runs ----------

  ghost predicate Staffed(p: SchedulerPolicy, s: Sched) {
    s.workers != [] || s.running ==> |s.workers| == p.workers
  }

  lemma TakeStaffed(p: Policy, k: Kernel, w: nat, token: nat, draw: real)
    requires Enabled(p, k, Take(w, token, draw))
    ensures |TakeNext(p, k, w, token, draw).sched.workers| == |k.sched.workers|
    ensures TakeNext(p, k, w, token, draw).sched.running == k.sched.running
  {
    if k.sched.queue[0].Some? {
      RunOnceGoesOn(p, k.(sched := Dequeued(k.sched, w)), w, k.sched.queue[0].value, token, draw);
    }
  }

  lemma StepStaffed(p: Policy, k: Kernel, step: Step)
    requires Staffed(p.sched, k.sched) && Enabled(p, k, step)
    ensures Staffed(p.sched, Apply(p, k, step).sched)
  {
    if MonitorStep(step) {
      MonitorStepSched(p, k, step);
    } else if step.Take? {
      TakeStaffed(p, k, step.w, step.token, step.draw);
    }
  }

  lemma {:induction false} RunStaffed(p: Policy, trace: seq<Kernel>, steps: seq<Step>, n: nat)
    requires IsRun(p, trace, steps) && n < |trace|
    ensures Staffed(p.sched, trace[n].sched)
  {
    if n > 0 {
      RunStaffed(p, trace, steps, n - 1);
      StepStaffed(p, trace[n - 1], steps[n - 1]);
    }
  }

  /** `stop` was called at step m while the scheduler was running. */
  ghost predicate StopsAt(trace: seq<Kernel>, steps: seq<Step>, m: nat) {
    m < |steps| && m < |trace| && steps[m].Stop? && trace[m].sched.running
  }

  lemma {:induction false} StaysPoisoned(p: Policy, trace: seq<Kernel>, steps: seq<Step>, m: nat, n: nat)
    requires IsRun(p, trace, steps) && StopsAt(trace, steps, m) && m < n < |trace|
    ensures Poisoned(p.sched, trace[n].sched) && Silent(trace[n - 1].sched, trace[n].sched)
    decreases n
  {
    if n == m + 1 {
      RunStaffed(p, trace, steps, m);
      StopPoisons(p.sched, trace[m].sched);
    } else {
      StaysPoisoned(p, trace, steps, m, n - 1);
      StepPoisoned(p, trace[n - 1], steps[n - 1]);
    }
  }

  /** After `stop` the idle flag never goes up again: if it was down then, it is down in every
      later state, however much work gets done. */
  lemma {:induction false} StopSilencesIdle(p: Policy, trace: seq<Kernel>, steps: seq<Step>, m: nat, n: nat)
    requires IsRun(p, trace, steps) && StopsAt(trace, steps, m) && m <= n < |trace|
    ensures trace[n].sched.idle ==> trace[m].sched.idle
    decreases n
  {
    if m < n {
      StopSilencesIdle(p, trace, steps, m, n - 1);
      StaysPoisoned(p, trace, steps, m, n);
    }
  }

  ghost predicate SilentRun(trace: seq<Kernel>, i: nat, n: nat) {
    forall k | i < k <= n && k < |trace| :: Silent(trace[k - 1].sched, trace[k].sched)
  }

  ghost predicate Drains(trace: seq<Kernel>, i: nat, n: nat, j: nat) {
    forall k | i <= k <= n && k < |trace| :: j in trace[k].sched.drains
  }

  /** As long as nothing is announced a waiting drain stays as it is. */
  lemma {:induction false} WokenStays(trace: seq<Kernel>, i: nat, n: nat, j: nat)
    requires i <= n < |trace| && SilentRun(trace, i, n) && Drains(trace, i, n, j)
    ensures j in trace[i].sched.drains && j in trace[n].sched.drains
    ensures trace[n].sched.drains[j].woken == trace[i].sched.drains[j].woken
    decreases n
  {
    if i < n {
      WokenStays(trace, i, n - 1, j);
      assert Silent(trace[n - 1].sched, trace[n].sched);
    }
  }

  lemma DrainStarts(p: Policy, trace: seq<Kernel>, steps: seq<Step>, c: nat, j: nat)
    requires IsRun(p, trace, steps) && c < |steps| && steps[c] == DrainCall(j)
    ensures j in trace[c + 1].sched.drains && trace[c + 1].sched.drains[j].woken == trace[c].sched.idle
  {
    assert trace[c + 1].sched == DrainBegun(trace[c].sched, j);
  }

  lemma StopSilences(p: Policy, trace: seq<Kernel>, steps: seq<Step>, m: nat, i: nat, n: nat)
    requires IsRun(p, trace, steps) && StopsAt(trace, steps, m) && m <= i
    ensures SilentRun(trace, i, n)
  {
    forall k | i < k <= n && k < |trace|
      ensures Silent(trace[k - 1].sched, trace[k].sched)
    {
      StaysPoisoned(p, trace, steps, m, k);
    }
  }

  lemma WaitedShorter(steps: seq<Step>, c: nat, k: nat, n: nat, j: nat)
    requires Waits(steps, c, n, j) && k <= n
    ensures Waits(steps, c, k, j)
  {
  }

  lemma DrainsOn(p: Policy, trace: seq<Kernel>, steps: seq<Step>, c: nat, n: nat, j: nat)
    requires IsRun(p, trace, steps) && c < n < |trace| && steps[c] == DrainCall(j) && Waits(steps, c, n, j)
    ensures Drains(trace, c + 1, n, j)
  {
    forall k | c + 1 <= k <= n && k < |trace|
      ensures j in trace[k].sched.drains
    {
      WaitedShorter(steps, c, k, n, j);
      DrainRemembers(p, trace, steps, c, k, j);
    }
  }

  /** So a drain called after `stop` is let go if and only if it found the flag up. */
  lemma DrainAfterStop(p: Policy, trace: seq<Kernel>, steps: seq<Step>, m: nat, c: nat, n: nat, j: nat)
    requires IsRun(p, trace, steps) && StopsAt(trace, steps, m) && m < c < n < |trace| && steps[c] == DrainCall(j)
    requires Waits(steps, c, n, j)
    ensures j in trace[n].sched.drains
    ensures trace[n].sched.drains[j].woken <==> trace[c].sched.idle
  {
    DrainStarts(p, trace, steps, c, j);
    StopSilences(p, trace, steps, m, c + 1, n);
    DrainsOn(p, trace, steps, c, n, j);
    WokenStays(trace, c + 1, n, j);
  }

  /** And a drain already waiting when `stop` is called is let go only if it had been by then. */
  lemma DrainBeforeStop(p: Policy, trace: seq<Kernel>, steps: seq<Step>, c: nat, m: nat, n: nat, j: nat)
    requires IsRun(p, trace, steps) && StopsAt(trace, steps, m) && c < m <= n < |trace| && steps[c] == DrainCall(j)
    requires Waits(steps, c, n, j)
    ensures j in trace[m].sched.drains && j in trace[n].sched.drains
    ensures trace[n].sched.drains[j].woken <==> trace[m].sched.drains[j].woken
  {
    StopSilences(p, trace, steps, m, m, n);
    DrainsOn(p, trace, steps, c, n, j);
    WokenStays(trace, m, n, j);
  }
}
