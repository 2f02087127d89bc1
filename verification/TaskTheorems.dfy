/** What every run promises about tasks: none is lost, none runs forever on attempts,
    and `drain` does not lie. */
module TaskTheorems {
  import opened Counting
  import opened Tasks
  import opened Devices
  import opened Scheduler
  import opened SchedulerProofs
  import opened Kernel
  import opened KernelProofs

  // ---------- conservation ----------

  /** In every state of every run a live record has exactly one carrier: one queue entry,
      one owning worker or one sleeping retry. A finished or unknown one has none. */
  lemma WorkConserved(p: Policy, trace: seq<Kernel>, steps: seq<Step>, n: nat, id: TaskId)
    requires IsRun(p, trace, steps) && n < |trace|
    ensures
      var s := trace[n].sched;
      Count(s.queue, EntryOf(id)) + Count(s.workers, OwnerOf(id)) + Count(s.retries, RetryOf(id))
      == if id in s.records && !Terminal(s.records[id].state) then 1 else 0
  {
    RunValid(p, trace, steps, n);
    assert Carriers(trace[n].sched, id) == if Live(trace[n].sched, id) then 1 else 0;
  }

  /** Resubmitting an id keeps conservation exactly when the old record is finished. */
  lemma ResubmissionConserves(p: SchedulerPolicy, s: Sched, spec: TaskSpec)
    requires Conserved(s)
    ensures Conserved(Submitted(p, s, spec)) <==> !Live(s, spec.id)
  {
    var s' := Submitted(p, s, spec);
    forall id ensures Carriers(s', id) == Carriers(s, id) + (if id == spec.id && spec.kind in p.kinds then 1 else 0) {
      CountAppend(s.queue, [Some(spec.id)], EntryOf(id));
    }
    assert Carriers(s, spec.id) == if Live(s, spec.id) then 1 else 0;
    if !Live(s, spec.id) {
      forall id ensures Carriers(s', id) == if Live(s', id) then 1 else 0 {
        assert Carriers(s, id) == if Live(s, id) then 1 else 0;
      }
    }
  }

  // ---------- drain ----------

  ghost predicate NeverStopped(steps: seq<Step>, n: nat)
    requires n <= |steps|
  {
    forall i | 0 <= i < n :: !steps[i].Stop?
  }

  lemma MonitorStepSched(p: Policy, k: Kernel, step: Step)
    requires Enabled(p, k, step) && MonitorStep(step)
    ensures Apply(p, k, step).sched == k.sched
  {
  }

  lemma TakeNoStop(p: Policy, k: Kernel, w: nat, token: nat, draw: real)
    requires Enabled(p, k, Take(w, token, draw)) && NoStop(k.sched)
    ensures NoStop(TakeNext(p, k, w, token, draw).sched)
  {
    assert NoStop(Dequeued(k.sched, w));
  }

  lemma AcquireNoStop(p: Policy, k: Kernel, w: nat, id: TaskId, deadline: Option<real>, token: nat, draw: real)
    requires w < |k.sched.workers| && id in k.sched.records && NoStop(k.sched)
    ensures NoStop(AcquireFor(p, k, w, id, deadline, token, draw).sched)
  {
  }

  lemma ClientNoStop(p: Policy, k: Kernel, step: Step)
    requires Enabled(p, k, step) && NoStop(k.sched)
    requires step.Submit? || step.Start? || step.DrainCall? || step.DrainReturn? || step.RetryFire?
    ensures NoStop(Apply(p, k, step).sched)
  {
  }

  lemma NoStopKept(p: Policy, k: Kernel, step: Step)
    requires Enabled(p, k, step) && !step.Stop? && NoStop(k.sched)
    ensures NoStop(Apply(p, k, step).sched)
  {
    if MonitorStep(step) {
      MonitorStepSched(p, k, step);
    } else if step.Submit? || step.Start? || step.DrainCall? || step.DrainReturn? || step.RetryFire? {
      ClientNoStop(p, k, step);
    } else if step.Take? {
      TakeNoStop(p, k, step.w, step.token, step.draw);
    } else if step.WaiterWake? {
      AcquireNoStop(p, WithReg(k, Unparked(k.fleet.reg, step.w)), step.w, k.sched.workers[step.w].task,
                    k.fleet.reg.waiters[step.w].deadline, step.token, step.draw);
    }
  }

  lemma {:induction false} RunNoStop(p: Policy, trace: seq<Kernel>, steps: seq<Step>, n: nat)
    requires IsRun(p, trace, steps) && n < |trace| && NeverStopped(steps, n)
    ensures NoStop(trace[n].sched)
  {
    if n > 0 {
      RunNoStop(p, trace, steps, n - 1);
      NoStopKept(p, trace[n - 1], steps[n - 1]);
    }
  }

  /** The idle flag is never up while a task is queued, running or waiting for its retry,
      so every record is finished at that instant. */
  lemma IdleMeansDone(p: Policy, trace: seq<Kernel>, steps: seq<Step>, n: nat)
    requires IsRun(p, trace, steps) && n < |trace| && trace[n].sched.idle
    ensures
      var s := trace[n].sched;
      && (forall i | 0 <= i < |s.queue| :: s.queue[i].None?)
      && s.inflight == 0 && s.pendingRetries == 0 && s.retries == []
      && (forall w | 0 <= w < |s.workers| :: s.workers[w].Idle? || s.workers[w].Stopped?)
      && (forall id | id in s.records :: Terminal(s.records[id].state))
  {
    RunValid(p, trace, steps, n);
    var s := trace[n].sched;
    QuietMeansTerminal(s);
    CountZero(s.workers, BUSY);
    assert forall w | 0 <= w < |s.workers| :: !BUSY(s.workers[w]);
  }

  /** Until `stop` is called the flag is up exactly when the three counters are zero. */
  lemma IdleExactly(p: Policy, trace: seq<Kernel>, steps: seq<Step>, n: nat)
    requires IsRun(p, trace, steps) && n < |trace| && NeverStopped(steps, n)
    ensures
      var s := trace[n].sched;
      s.idle <==> s.queue == [] && s.inflight == 0 && s.pendingRetries == 0
  {
    RunValid(p, trace, steps, n);
    RunNoStop(p, trace, steps, n);
    var s := trace[n].sched;
    assert s.queue != [] ==> s.queue[0].Some?;
  }

  lemma DrainKept(p: Policy, k: Kernel, step: Step, j: nat)
    requires Enabled(p, k, step) && j in k.sched.drains
    requires !(step.DrainReturn? && step.k == j)
    ensures
      var s' := Apply(p, k, step).sched;
      j in s'.drains && s'.drains[j].asked == k.sched.drains[j].asked
  {
    if MonitorStep(step) {
      MonitorStepSched(p, k, step);
    }
  }

  /** Drain j does not return in the steps after m and before n. */
  ghost predicate Waits(steps: seq<Step>, m: nat, n: nat, j: nat) {
    forall i | m < i < n && i < |steps| :: !(steps[i].DrainReturn? && steps[i].k == j)
  }

  lemma WaitedBefore(steps: seq<Step>, m: nat, n: nat, j: nat)
    requires Waits(steps, m, n, j) && m + 1 < n <= |steps|
    ensures Waits(steps, m, n - 1, j) && !(steps[n - 1].DrainReturn? && steps[n - 1].k == j)
  {
  }

  /** The drain called at step m and not yet over at state n still answers for what existed at m. */
  lemma {:induction false} DrainRemembers(p: Policy, trace: seq<Kernel>, steps: seq<Step>, m: nat, n: nat, j: nat)
    requires IsRun(p, trace, steps) && m < n < |trace| && steps[m] == DrainCall(j)
    requires Waits(steps, m, n, j)
    ensures j in trace[n].sched.drains && trace[n].sched.drains[j].asked == trace[m].sched.records.Keys
  {
    if n > m + 1 {
      WaitedBefore(steps, m, n, j);
      DrainRemembers(p, trace, steps, m, n - 1, j);
      DrainKept(p, trace[n - 1], steps[n - 1], j);
    }
  }

  /** A drain that returns True leaves nothing unfinished of what was submitted before it. */
  lemma DrainIsTruthful(p: Policy, trace: seq<Kernel>, steps: seq<Step>, m: nat, n: nat, j: nat, id: TaskId)
    requires IsRun(p, trace, steps) && m < n < |steps|
    requires steps[m] == DrainCall(j) && steps[n] == DrainReturn(j, true)
    requires Waits(steps, m, n, j)
    requires id in trace[m].sched.records
    ensures id in trace[n + 1].sched.records && Terminal(trace[n + 1].sched.records[id].state)
  {
    DrainRemembers(p, trace, steps, m, n, j);
    RunValid(p, trace, steps, n);
    assert Enabled(p, trace[n], steps[n]);
  }
}
