/** First in, first out: what is put on the queue, what is taken off it, and who is told when
    there is nothing left. */
module QueueTheorems {
  import opened Tasks
  import opened Devices
  import opened Scheduler
  import opened Kernel
  import opened StopTheorems
  import opened TaskTheorems

  // ---------- the queue ----------

  /** What this step puts on the queue: a task submitted or due again, or, for `stop`, one pill per
      worker. */
  function Put(p: SchedulerPolicy, s: Sched, step: Step): seq<Option<TaskId>> {
    match step
    case Submit(spec) => if spec.kind in p.kinds then [Some(spec.id)] else []
    case RetryFire(i) => if i < |s.retries| then [Some(s.retries[i].task)] else []
    case Stop => if s.running then seq(|s.workers|, _ => None) else []
    case _ => []
  }

  /** All that was put on the queue in the first n steps, in order. */
  ghost function AllPut(p: SchedulerPolicy, trace: seq<Kernel>, steps: seq<Step>, n: nat): seq<Option<TaskId>>
    requires n <= |steps| && n < |trace|
  {
    if n == 0 then [] else AllPut(p, trace, steps, n - 1) + Put(p, trace[n - 1].sched, steps[n - 1])
  }

  /** How many of the first n steps take something off it. */
  function Takes(steps: seq<Step>, n: nat): nat
    requires n <= |steps|
  {
    if n == 0 then 0 else Takes(steps, n - 1) + if steps[n - 1].Take? then 1 else 0
  }

  lemma AcquireKeepsQueue(p: Policy, k: Kernel, w: nat, id: TaskId, deadline: Option<real>, token: nat, draw: real)
    requires w < |k.sched.workers| && id in k.sched.records
    ensures AcquireFor(p, k, w, id, deadline, token, draw).sched.queue == k.sched.queue
  {
  }

  lemma TakeShortens(p: Policy, k: Kernel, w: nat, token: nat, draw: real)
    requires Enabled(p, k, Take(w, token, draw))
    ensures TakeNext(p, k, w, token, draw).sched.queue == k.sched.queue[1..]
  {
    if k.sched.queue[0].Some? {
      var taken := k.(sched := Dequeued(k.sched, w));
      var id := k.sched.queue[0].value;
      if !Skippable(taken.sched, id) {
        AcquireKeepsQueue(p, taken, w, id, Deadline(p, k.now), token, draw);
      }
    }
  }

  lemma StepQueues(p: Policy, k: Kernel, step: Step)
    requires Enabled(p, k, step)
    ensures step.Take? ==> k.sched.queue != []
    ensures Apply(p, k, step).sched.queue
            == (if step.Take? then k.sched.queue[1..] else k.sched.queue) + Put(p.sched, k.sched, step)
  {
    if MonitorStep(step) {
      MonitorStepSched(p, k, step);
    } else if step.Take? {
      TakeShortens(p, k, step.w, step.token, step.draw);
    } else if step.WaiterWake? {
      AcquireKeepsQueue(p, WithReg(k, Unparked(k.fleet.reg, step.w)), step.w, k.sched.workers[step.w].task,
                        k.fleet.reg.waiters[step.w].deadline, step.token, step.draw);
    }
  }

  lemma RunStepQueues(p: Policy, trace: seq<Kernel>, steps: seq<Step>, n: nat)
    requires IsRun(p, trace, steps) && n < |steps|
    ensures steps[n].Take? ==> trace[n].sched.queue != []
    ensures trace[n + 1].sched.queue
            == (if steps[n].Take? then trace[n].sched.queue[1..] else trace[n].sched.queue)
               + Put(p.sched, trace[n].sched, steps[n])
  {
    StepQueues(p, trace[n], steps[n]);
  }

  lemma Shifted<T>(all: seq<T>, i: nat, more: seq<T>, taken: bool)
    requires i <= |all| && (taken ==> all[i..] != [])
    ensures (if taken then all[i..][1..] else all[i..]) + more == (all + more)[i + (if taken then 1 else 0)..]
  {
  }

  /** In every state of every run the queue is what was put on it less what was taken off it, in
      order: nobody jumps it, nothing falls out of it, and nothing comes twice. */
  lemma {:induction false} FirstInFirstOut(p: Policy, trace: seq<Kernel>, steps: seq<Step>, n: nat)
    requires IsRun(p, trace, steps) && n <= |steps|
    ensures Takes(steps, n) <= |AllPut(p.sched, trace, steps, n)|
    ensures trace[n].sched.queue == AllPut(p.sched, trace, steps, n)[Takes(steps, n)..]
  {
    if n > 0 {
      FirstInFirstOut(p, trace, steps, n - 1);
      RunStepQueues(p, trace, steps, n - 1);
      Shifted(AllPut(p.sched, trace, steps, n - 1), Takes(steps, n - 1), Put(p.sched, trace[n - 1].sched, steps[n - 1]),
              steps[n - 1].Take?);
    }
  }

  // ---------- a submission ----------

  /** A task of a known kind is recorded as PENDING and wakes the scheduler; one of an unknown kind
      is recorded as REJECTED, with the reason, and nothing else happens. */
  lemma SubmissionIsRecorded(p: Policy, trace: seq<Kernel>, steps: seq<Step>, n: nat, spec: TaskSpec)
    requires IsRun(p, trace, steps) && n < |steps| && steps[n] == Submit(spec)
    ensures
      var (s, s') := (trace[n].sched, trace[n + 1].sched);
      && spec.id !in s.records && s'.records.Keys == s.records.Keys + {spec.id}
      && (forall x | x in s.records :: s'.records[x] == s.records[x])
      && s'.workers == s.workers && s'.retries == s.retries
      && (if spec.kind in p.sched.kinds then
            s'.records[spec.id] == TaskRecord(spec, Pending, [], None, None) && !s'.idle
          else
            s'.records[spec.id]
            == TaskRecord(spec, Rejected, [], None, Some("no target registered for kind=" + spec.kind))
            && s'.idle == s.idle && s'.queue == s.queue)
  {
    assert Enabled(p, trace[n], Submit(spec));
    assert trace[n + 1].sched == Submitted(p.sched, trace[n].sched, spec);
  }

  lemma AcquireRunsOn(p: Policy, k: Kernel, w: nat, id: TaskId, deadline: Option<real>, token: nat, draw: real)
    requires w < |k.sched.workers| && id in k.sched.records
    ensures AcquireFor(p, k, w, id, deadline, token, draw).sched.running == k.sched.running
  {
  }

  /** `start` and `stop` alone say whether the scheduler runs. A start gives a scheduler that does not
      run its configured number of idle workers, and neither does anything the second time. */
  lemma StartedAndStopped(p: Policy, trace: seq<Kernel>, steps: seq<Step>, n: nat)
    requires IsRun(p, trace, steps) && n < |steps|
    ensures
      var (s, s', step) := (trace[n].sched, trace[n + 1].sched, steps[n]);
      && s'.running == (step.Start? || (!step.Stop? && s.running))
      && (step.Start? ==> s' == s.(running := true, workers := s'.workers)
                          && |s'.workers| == (if s.running then |s.workers| else |s.workers| + p.sched.workers)
                          && s.workers <= s'.workers
                          && forall w | |s.workers| <= w < |s'.workers| :: s'.workers[w].Idle?)
      && (step.Stop? ==> s' == s.(running := false, queue := s'.queue))
  {
    var k, step := trace[n], steps[n];
    if MonitorStep(step) {
      MonitorStepSched(p, k, step);
    } else if step.Take? {
      TakeStaffed(p, k, step.w, step.token, step.draw);
    } else if step.WaiterWake? {
      AcquireRunsOn(p, WithReg(k, Unparked(k.fleet.reg, step.w)), step.w, k.sched.workers[step.w].task,
                    k.fleet.reg.waiters[step.w].deadline, step.token, step.draw);
    }
  }

  // ---------- the way back ----------

  /** Where a worker goes that needs nothing from anybody: from the lease to its tail, from there
      back to the queue, and off for good when it draws a pill. */
  ghost predicate GoesBack(s: Sched, s': Sched, step: Step) {
    match step
    case LeaseReturn(w) =>
      && w < |s.workers| && s.workers[w].Releasing?
      && s' == s.(workers := s.workers[w := Tail(s.workers[w].task)])
    case WorkerTail(w) =>
      && w < |s.workers| && s.workers[w].Tail? && s'.workers == s.workers[w := Worker.Idle]
      && s'.inflight == s.inflight - 1 && s'.records == s.records && s'.retries == s.retries && s'.queue == s.queue
    case RetryFire(i) =>
      && i < |s.retries| && s'.retries == s.retries[..i] + s.retries[i + 1..]
      && s'.pendingRetries == s.pendingRetries - 1 && s'.workers == s.workers && s'.records == s.records
    case Take(w, _, _) =>
      s.queue != [] && s.queue[0].None? ==>
        w < |s.workers| && s' == s.(workers := s.workers[w := Stopped], queue := s.queue[1..])
    case _ => true
  }

  lemma WorkersGoBack(p: Policy, trace: seq<Kernel>, steps: seq<Step>, n: nat)
    requires IsRun(p, trace, steps) && n < |steps|
    ensures GoesBack(trace[n].sched, trace[n + 1].sched, steps[n])
  {
    assert Enabled(p, trace[n], steps[n]);
  }

  // ---------- who is told ----------

  /** Whoever still waits in `drain` is woken when the flag is up, and nobody is woken otherwise. */
  ghost predicate Wakes(s: Sched, s': Sched) {
    forall j | j in s.drains && j in s'.drains :: s'.drains[j].woken <==> s.drains[j].woken || s'.idle
  }

  ghost predicate AllWoken(s: Sched) {
    s.idle ==> forall j | j in s.drains :: s.drains[j].woken
  }

  ghost predicate Tells(s: Sched, s': Sched) {
    Wakes(s, s') && AllWoken(s')
  }

  /** The step has nothing to tell: the flag stays as it was or goes down. */
  lemma NothingToTell(s: Sched, s': Sched)
    requires AllWoken(s) && s'.drains == s.drains && (s'.idle ==> s.idle)
    ensures Tells(s, s')
  {
  }

  lemma SettledTells(s: Sched, s': Sched)
    requires AllWoken(s) && s'.drains == s.drains && s'.idle == s.idle
    ensures Tells(s, Settled(s'))
  {
  }

  lemma AcquireTells(p: Policy, k: Kernel, w: nat, id: TaskId, deadline: Option<real>, token: nat, draw: real)
    requires w < |k.sched.workers| && id in k.sched.records
    ensures
      var s' := AcquireFor(p, k, w, id, deadline, token, draw).sched;
      s'.drains == k.sched.drains && (s'.idle ==> k.sched.idle)
  {
  }

  lemma TakeTells(p: Policy, k: Kernel, w: nat, token: nat, draw: real)
    requires Enabled(p, k, Take(w, token, draw))
    ensures
      var s' := TakeNext(p, k, w, token, draw).sched;
      s'.drains == k.sched.drains && (s'.idle ==> k.sched.idle)
  {
    if k.sched.queue[0].Some? {
      var taken := k.(sched := Dequeued(k.sched, w));
      var id := k.sched.queue[0].value;
      if !Skippable(taken.sched, id) {
        AcquireTells(p, taken, w, id, Deadline(p, k.now), token, draw);
      }
    }
  }

  lemma ClientTells(p: Policy, k: Kernel, step: Step)
    requires Enabled(p, k, step) && AllWoken(k.sched)
    requires step.Submit? || step.Start? || step.Stop? || step.DrainCall? || step.DrainReturn?
    ensures Tells(k.sched, Apply(p, k, step).sched)
  {
  }

  lemma WorkerTells(p: Policy, k: Kernel, step: Step)
    requires Enabled(p, k, step) && AllWoken(k.sched)
    requires step.WaiterTimeout? || step.ExecutionEnd? || step.FailureRequeue? || step.LeaseReturn?
    ensures Tells(k.sched, Apply(p, k, step).sched)
  {
    NothingToTell(k.sched, Apply(p, k, step).sched);
  }

  lemma StepTells(p: Policy, k: Kernel, step: Step)
    requires Enabled(p, k, step) && AllWoken(k.sched)
    ensures Tells(k.sched, Apply(p, k, step).sched)
  {
    var s := k.sched;
    if MonitorStep(step) {
      MonitorStepSched(p, k, step);
    } else {
      match step
      case Take(w, token, draw) =>
        TakeTells(p, k, w, token, draw);
        NothingToTell(s, TakeNext(p, k, w, token, draw).sched);
      case WaiterWake(w, token, draw) =>
        AcquireTells(p, WithReg(k, Unparked(k.fleet.reg, w)), w, s.workers[w].task, k.fleet.reg.waiters[w].deadline,
                     token, draw);
        NothingToTell(s, Apply(p, k, step).sched);
      case WorkerTail(w) => SettledTells(s, At(s, w, Idle).(inflight := s.inflight - 1));
      case RetryFire(i) =>
        SettledTells(s, s.(queue := s.queue + [Some(s.retries[i].task)],
                     retries := s.retries[..i] + s.retries[i + 1..], pendingRetries := s.pendingRetries - 1));
      case _ =>
        if step.WaiterTimeout? || step.ExecutionEnd? || step.FailureRequeue? || step.LeaseReturn? {
          WorkerTells(p, k, step);
        } else {
          ClientTells(p, k, step);
        }
    }
  }

  lemma {:induction false} RunTells(p: Policy, trace: seq<Kernel>, steps: seq<Step>, n: nat)
    requires IsRun(p, trace, steps) && n < |trace|
    ensures AllWoken(trace[n].sched)
    ensures n > 0 ==> Wakes(trace[n - 1].sched, trace[n].sched)
  {
    if n > 0 {
      RunTells(p, trace, steps, n - 1);
      StepTells(p, trace[n - 1], steps[n - 1]);
    }
  }

  /** The flag has been up at some state from m to n. */
  ghost predicate WasUp(trace: seq<Kernel>, m: nat, n: nat)
    requires n < |trace|
  {
    m <= n && (trace[n].sched.idle || (n > 0 && WasUp(trace, m, n - 1)))
  }

  lemma DrainFirst(p: Policy, trace: seq<Kernel>, steps: seq<Step>, c: nat, j: nat)
    requires IsRun(p, trace, steps) && c < |steps| && steps[c] == DrainCall(j)
    ensures j in trace[c + 1].sched.drains
    ensures trace[c + 1].sched.drains[j].woken == trace[c].sched.idle == trace[c + 1].sched.idle
  {
    assert trace[c + 1].sched == DrainBegun(trace[c].sched, j);
  }

  lemma UpOnce(trace: seq<Kernel>, m: nat)
    requires m + 1 < |trace| && trace[m + 1].sched.idle == trace[m].sched.idle
    ensures WasUp(trace, m, m + 1) <==> trace[m].sched.idle
  {
    assert WasUp(trace, m, m) <==> trace[m].sched.idle;
  }

  lemma WokenByFlag(trace: seq<Kernel>, n: nat, j: nat)
    requires 0 < n < |trace| && Wakes(trace[n - 1].sched, trace[n].sched)
    requires j in trace[n - 1].sched.drains && j in trace[n].sched.drains
    ensures trace[n].sched.drains[j].woken <==> trace[n - 1].sched.drains[j].woken || trace[n].sched.idle
  {
  }

  ghost predicate WakesThrough(trace: seq<Kernel>, m: nat, n: nat) {
    forall k | m < k <= n && k < |trace| :: Wakes(trace[k - 1].sched, trace[k].sched)
  }

  lemma RunWakes(p: Policy, trace: seq<Kernel>, steps: seq<Step>, m: nat, n: nat)
    requires IsRun(p, trace, steps)
    ensures WakesThrough(trace, m, n)
  {
    forall k | m < k <= n && k < |trace|
      ensures Wakes(trace[k - 1].sched, trace[k].sched)
    {
      RunTells(p, trace, steps, k);
    }
  }

  lemma {:induction false} WokenSinceUp(trace: seq<Kernel>, c: nat, n: nat, j: nat)
    requires c < n < |trace| && WakesThrough(trace, c + 1, n) && Drains(trace, c + 1, n, j)
    requires trace[c + 1].sched.drains[j].woken == trace[c].sched.idle == trace[c + 1].sched.idle
    ensures j in trace[n].sched.drains
    ensures trace[n].sched.drains[j].woken <==> WasUp(trace, c, n)
    decreases n
  {
    if n == c + 1 {
      UpOnce(trace, c);
    } else {
      WokenSinceUp(trace, c, n - 1, j);
      WokenByFlag(trace, n, j);
    }
  }

  /** A drain is let go as soon as the idle flag is up, however short, and not before: it is woken
      if and only if the flag has been up since it was called. */
  lemma DrainIsPrompt(p: Policy, trace: seq<Kernel>, steps: seq<Step>, c: nat, n: nat, j: nat)
    requires IsRun(p, trace, steps) && c < n < |trace| && steps[c] == DrainCall(j) && Waits(steps, c, n, j)
    ensures j in trace[n].sched.drains
    ensures trace[n].sched.drains[j].woken <==> WasUp(trace, c, n)
  {
    DrainFirst(p, trace, steps, c, j);
    DrainsOn(p, trace, steps, c, n, j);
    RunWakes(p, trace, steps, c + 1, n);
    WokenSinceUp(trace, c, n, j);
  }
}
