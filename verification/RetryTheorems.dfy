/** A failed attempt is retried, and not before its backoff is over. */
module RetryTheorems {
  import opened Counting
  import opened Tasks
  import opened Devices
  import opened Scheduler
  import opened Kernel
  import opened TaskTheorems
  import opened AttemptTheorems

  function Abs(x: real): real {
    if x < 0.0 then -x else x
  }

  /** The drawn jitter moves the pause from `raw`, by its range at most, and a tenth of a second
      takes the place of anything less. */
  ghost predicate Near(raw: real, range: real, draw: real, pause: real) {
    && pause >= 0.1 && pause >= raw - Abs(range)
    && (if raw + draw > 0.1 then pause == raw + draw && pause <= raw + Abs(range) else pause == 0.1)
  }

  /** What is drawn from after n attempts: min(retryBase * 2 ** n, retryMax). */
  function Raw(p: SchedulerPolicy, n: nat): real {
    Min(Scaled(p.retryBase, n), p.retryMax)
  }

  ghost predicate FairPause(p: SchedulerPolicy, n: nat, draw: real, pause: real) {
    Near(Raw(p, n), Raw(p, n) * p.retryJitter, draw, pause)
  }

  /** The task sleeps until `due`. */
  ghost predicate Asleep(s: Sched, id: TaskId, due: real) {
    exists i :: 0 <= i < |s.retries| && s.retries[i] == Retry(id, due)
  }

  /** If this step puts `id` to sleep, then for a fair pause. */
  ghost predicate SleepsFairly(p: SchedulerPolicy, s: Sched, s': Sched, id: TaskId, now: real, draw: real) {
    Requeues(s, s', id) ==>
      && id in s'.records && s'.retries != []
      && var r := s'.retries[|s'.retries| - 1];
      r.task == id && FairPause(p, |s'.records[id].attempts|, draw, r.due - now)
  }

  lemma RawIsPower(p: SchedulerPolicy, n: nat)
    ensures BackoffRaw(p, n) == Min(Scaled(p.retryBase, n), p.retryMax)
  {
    DoubledIsScaled(p.retryBase, n);
  }

  lemma JitterIsNear(p: SchedulerPolicy, n: nat, draw: real, range: real)
    requires -range <= draw <= range || range <= draw <= -range
    ensures Near(BackoffRaw(p, n), range, draw, Backoff(p, n, draw))
  {
  }

  lemma BackoffIsFair(p: Policy, k: Kernel, id: TaskId, draw: real)
    requires id in k.sched.records && DrawnWithin(p, k, id, draw)
    ensures
      var n := |k.sched.records[id].attempts|;
      FairPause(p.sched, n, draw, Backoff(p.sched, n, draw))
  {
    var n := |k.sched.records[id].attempts|;
    RawIsPower(p.sched, n);
    JitterIsNear(p.sched, n, draw, JitterRange(BackoffRaw(p.sched, n), p.sched.retryJitter));
  }

  /** Anything may be drawn that is within the jitter, and nothing else. */
  lemma DrawsAllowed(p: Policy, k: Kernel, id: TaskId, draw: real)
    requires id in k.sched.records
    ensures
      var raw := Raw(p.sched, |k.sched.records[id].attempts|);
      DrawnWithin(p, k, id, draw) <==> Abs(draw) <= Abs(raw * p.sched.retryJitter)
  {
    RawIsPower(p.sched, |k.sched.records[id].attempts|);
  }

  /** After the same number of attempts pauses above the floor are as far apart as their draws. */
  lemma PausesFollowDraws(p: SchedulerPolicy, n: nat, draw: real, other: real)
    requires Backoff(p, n, draw) > 0.1 && Backoff(p, n, other) > 0.1
    ensures Backoff(p, n, other) - Backoff(p, n, draw) == other - draw
    ensures Backoff(p, n, draw) == Min(Scaled(p.retryBase, n), p.retryMax) + draw
  {
    RawIsPower(p, n);
  }

  lemma RequeuedFairly(p: Policy, k: Kernel, w: nat, id: TaskId, reason: string, draw: real, phase: Worker, x: TaskId)
    requires w < |k.sched.workers| && id in k.sched.records && DrawnWithin(p, k, id, draw)
    ensures SleepsFairly(p.sched, k.sched, At(Requeued(p.sched, k.sched, id, reason, k.now, draw), w, phase), x, k.now,
                         draw)
  {
    var rec := k.sched.records[id];
    if |rec.attempts| < rec.spec.maxAttempts {
      BackoffIsFair(p, k, id, draw);
      CountAppend(k.sched.retries, [Retry(id, k.now + Backoff(p.sched, |rec.attempts|, draw))], RetryOf(x));
    }
  }

  lemma AcquireFairly(p: Policy, k: Kernel, w: nat, id: TaskId, deadline: Option<real>, token: nat, draw: real,
      x: TaskId)
    requires w < |k.sched.workers| && id in k.sched.records && DrawnWithin(p, k, id, draw)
    ensures SleepsFairly(p.sched, k.sched, AcquireFor(p, k, w, id, deadline, token, draw).sched, x, k.now, draw)
  {
    var (r, result) := TryAcquire(k.fleet.reg, w, k.sched.records[id].spec.selector, deadline, k.now, token);
    if result.GaveUp? {
      RequeuedFairly(p, WithReg(k, r), w, id, NO_LEASE, draw, Tail(id), x);
    }
  }

  lemma TakeFairly(p: Policy, k: Kernel, w: nat, token: nat, draw: real, x: TaskId)
    requires Enabled(p, k, Take(w, token, draw))
    ensures SleepsFairly(p.sched, k.sched, TakeNext(p, k, w, token, draw).sched, x, k.now, draw)
  {
    if k.sched.queue[0].Some? {
      var id := k.sched.queue[0].value;
      var taken := k.(sched := Dequeued(k.sched, w));
      if !Skippable(taken.sched, id) && CouldEverMatch(k.fleet.reg, k.sched.records[id].spec.selector) {
        AcquireFairly(p, taken, w, id, Deadline(p, k.now), token, draw, x);
      }
    }
  }

  /** The jitter drawn in this step, where one is. */
  function DrawOf(step: Step): real {
    match step
    case Take(_, _, draw) => draw
    case WaiterWake(_, _, draw) => draw
    case WaiterTimeout(_, draw) => draw
    case FailureRequeue(_, draw) => draw
    case _ => 0.0
  }

  lemma StepFairly(p: Policy, k: Kernel, step: Step, x: TaskId)
    requires Enabled(p, k, step)
    ensures SleepsFairly(p.sched, k.sched, Apply(p, k, step).sched, x, k.now, DrawOf(step))
  {
    if MonitorStep(step) {
      MonitorStepSched(p, k, step);
    } else {
      match step
      case Take(w, token, draw) => TakeFairly(p, k, w, token, draw, x);
      case WaiterWake(w, token, draw) =>
        AcquireFairly(p, WithReg(k, Unparked(k.fleet.reg, w)), w, k.sched.workers[w].task,
            k.fleet.reg.waiters[w].deadline, token, draw, x);
      case WaiterTimeout(w, draw) => RequeuedFairly(p, k, w, k.sched.workers[w].task, NO_LEASE, draw,
          Tail(k.sched.workers[w].task), x);
      case FailureRequeue(w, draw) =>
        var ph := k.sched.workers[w];
        RequeuedFairly(p, k, w, ph.task, ph.reason, draw, Releasing(ph.task, ph.lease), x);
      case RetryFire(i) => CountRemove(k.sched.retries, i, RetryOf(x));
      case _ =>
    }
  }

  // ---------- nothing wakes it early ----------

  lemma AcquireKeepsRetries(p: Policy, k: Kernel, w: nat, id: TaskId, deadline: Option<real>, token: nat, draw: real)
    requires w < |k.sched.workers| && id in k.sched.records
    ensures k.sched.retries <= AcquireFor(p, k, w, id, deadline, token, draw).sched.retries
    ensures AcquireFor(p, k, w, id, deadline, token, draw).now == k.now
  {
  }

  lemma StepKeepsRetries(p: Policy, k: Kernel, step: Step)
    requires Enabled(p, k, step) && !step.RetryFire?
    ensures k.sched.retries <= Apply(p, k, step).sched.retries && k.now <= Apply(p, k, step).now
  {
    if MonitorStep(step) {
      MonitorStepSched(p, k, step);
    } else {
      match step
      case Take(w, token, draw) =>
        var taken := k.(sched := Dequeued(k.sched, w));
        if k.sched.queue[0].Some? && !Skippable(taken.sched, k.sched.queue[0].value) {
          AcquireKeepsRetries(p, taken, w, k.sched.queue[0].value, Deadline(p, k.now), token, draw);
        }
      case WaiterWake(w, token, draw) =>
        AcquireKeepsRetries(p, WithReg(k, Unparked(k.fleet.reg, w)), w, k.sched.workers[w].task,
            k.fleet.reg.waiters[w].deadline, token, draw);
      case _ =>
    }
  }

  lemma StepKeepsSleep(p: Policy, k: Kernel, step: Step, id: TaskId, due: real)
    requires Enabled(p, k, step) && Asleep(k.sched, id, due)
    ensures Asleep(Apply(p, k, step).sched, id, due) || due <= k.now
    ensures k.now <= Apply(p, k, step).now
  {
    var i :| 0 <= i < |k.sched.retries| && k.sched.retries[i] == Retry(id, due);
    var s' := Apply(p, k, step).sched;
    if step.RetryFire? {
      if i < step.i {
        assert s'.retries[i] == Retry(id, due);
      } else if i > step.i {
        assert s'.retries[i - 1] == Retry(id, due);
      }
    } else {
      StepKeepsRetries(p, k, step);
      assert s'.retries[i] == Retry(id, due);
    }
  }

  lemma TakeKeepsTime(p: Policy, k: Kernel, w: nat, token: nat, draw: real)
    requires Enabled(p, k, Take(w, token, draw))
    ensures TakeNext(p, k, w, token, draw).now == k.now
  {
  }

  /** Time passes between steps, never backwards, and no step takes any. */
  lemma ClockRuns(p: Policy, k: Kernel, step: Step)
    requires Enabled(p, k, step)
    ensures k.now <= Apply(p, k, step).now == if step.Tick? then step.to else k.now
  {
    if step.Take? {
      TakeKeepsTime(p, k, step.w, step.token, step.draw);
    }
  }

  lemma {:induction false} SleepsUntilDue(p: Policy, trace: seq<Kernel>, steps: seq<Step>, m: nat, n: nat,
      id: TaskId, due: real)
    requires IsRun(p, trace, steps) && m <= n < |trace| && Asleep(trace[m].sched, id, due)
    ensures Asleep(trace[n].sched, id, due) || due <= trace[n].now
    decreases n
  {
    if m < n {
      SleepsUntilDue(p, trace, steps, m, n - 1, id, due);
      ClockRuns(p, trace[n - 1], steps[n - 1]);
      if Asleep(trace[n - 1].sched, id, due) {
        StepKeepsSleep(p, trace[n - 1], steps[n - 1], id, due);
      }
    }
  }

  /** A requeued task sleeps for a fair pause, as many doublings as it has made attempts, moved by
      the jitter drawn in that step; and until that is over it is in no queue and with no worker. */
  lemma RetryWaitsItsBackoff(p: Policy, trace: seq<Kernel>, steps: seq<Step>, m: nat, n: nat,
      id: TaskId) returns (pause: real)
    requires IsRun(p, trace, steps) && m < n < |trace|
    requires Requeues(trace[m].sched, trace[m + 1].sched, id)
    requires Count(trace[n].sched.queue, EntryOf(id)) + Count(trace[n].sched.workers, OwnerOf(id)) > 0
    ensures id in trace[m + 1].sched.records
    ensures FairPause(p.sched, |trace[m + 1].sched.records[id].attempts|, DrawOf(steps[m]), pause)
    ensures Asleep(trace[m + 1].sched, id, trace[m].now + pause)
    ensures trace[n].now >= trace[m].now + pause
  {
    StepFairly(p, trace[m], steps[m], id);
    var s := trace[m + 1].sched;
    var r := s.retries[|s.retries| - 1];
    pause := r.due - trace[m].now;
    assert s.retries[|s.retries| - 1] == Retry(id, r.due);
    SleepsUntilDue(p, trace, steps, m + 1, n, id, r.due);
    WorkConserved(p, trace, steps, n, id);
    CountZero(trace[n].sched.retries, RetryOf(id));
    assert forall i | 0 <= i < |trace[n].sched.retries| :: !RetryOf(id)(trace[n].sched.retries[i]);
  }
}
