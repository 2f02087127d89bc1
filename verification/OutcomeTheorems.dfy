/** What the end of an attempt means: for its record, for the worker, and for the device. */
module OutcomeTheorems {
  import opened Tasks
  import opened Devices
  import opened Health
  import opened Scheduler
  import opened Books
  import opened Kernel
  import opened KernelProofs
  import opened AttemptTheorems
  import opened DeviceTheorems

  /** The last of these attempts is over, with this error, and nothing else about them is new. */
  ghost predicate LastEnded(was: seq<Attempt>, attempts: seq<Attempt>, error: Option<string>) {
    && was != [] && |attempts| == |was|
    && (forall i | 0 <= i < |was| - 1 :: attempts[i] == was[i])
    && var (last, open) := (attempts[|was| - 1], was[|was| - 1]);
    last.ended && last.error == error && last.number == open.number && last.deviceId == open.deviceId
  }

  /** The record the outcome leaves, and where it leaves the worker. */
  ghost predicate Verdict(o: Outcome, was: TaskRecord, rec: TaskRecord, handle: nat, worker: Worker) {
    && rec.spec == was.spec
    && match o
       case Success(r) =>
         && rec.state == Succeeded && rec.result == Some(r) && rec.error == None
         && LastEnded(was.attempts, rec.attempts, None) && worker == Releasing(was.spec.id, handle)
       case Fatal(e) =>
         && rec.state == Rejected && rec.result == None && rec.error == Some(e)
         && LastEnded(was.attempts, rec.attempts, Some(e)) && worker == Releasing(was.spec.id, handle)
       case _ =>
         && rec.state == Running && rec.result == was.result && rec.error == was.error
         && LastEnded(was.attempts, rec.attempts, Some(o.reason))
         && worker == Failing(was.spec.id, handle, o.reason)
  }

  /** Nobody else's record or turn is touched, and no work is queued or put to sleep. */
  ghost predicate OthersUntouched(s: Sched, s': Sched, w: nat, id: TaskId) {
    && w < |s.workers| == |s'.workers|
    && (forall v | 0 <= v < |s.workers| && v != w :: s'.workers[v] == s.workers[v])
    && (forall x | x != id :: x in s.records <==> x in s'.records)
    && (forall x | x != id && x in s.records :: s'.records[x] == s.records[x])
    && s'.queue == s.queue && s'.retries == s.retries && s'.inflight == s.inflight && s'.idle == s.idle
  }

  lemma EndReady(p: Policy, k: Kernel, w: nat)
    requires KernelValid(p, k) && WorkerAt(k, w) && k.sched.workers[w].Executing?
    ensures
      var id := k.sched.workers[w].task;
      InState(k.sched, id, Running) && k.sched.records[id].attempts != [] && k.sched.records[id].spec.id == id
  {
    assert Attempts(k.fleet.reg, k.sched, w);
  }

  lemma EndVerdict(s: Sched, w: nat, id: TaskId, handle: nat, o: Outcome)
    requires w < |s.workers| && InState(s, id, Running) && s.records[id].attempts != [] && s.records[id].spec.id == id
    ensures
      var s' := ExecutionDone(s, w, id, handle, o);
      && id in s'.records && w < |s'.workers|
      && Verdict(o, s.records[id], s'.records[id], handle, s'.workers[w]) && OthersUntouched(s, s', w, id)
  {
  }

  /** In every run the end of an attempt is recorded for what it was: a result makes the task
      SUCCEEDED with that result, a fatal error REJECTED with that error, and after anything else
      the task is still RUNNING and its worker is about to handle exactly that failure. The
      attempt itself is over, with the outcome's error. */
  lemma OutcomeIsRecorded(p: Policy, trace: seq<Kernel>, steps: seq<Step>, n: nat, w: nat, o: Outcome)
    requires IsRun(p, trace, steps) && n < |steps| && steps[n] == ExecutionEnd(w, o)
    ensures
      var s, s' := trace[n].sched, trace[n + 1].sched;
      && w < |s.workers| && s.workers[w].Executing? && w < |s'.workers|
      && var id := s.workers[w].task;
      && InState(s, id, Running) && id in s'.records
      && Verdict(o, s.records[id], s'.records[id], s.workers[w].lease, s'.workers[w])
      && OthersUntouched(s, s', w, id)
  {
    RunValid(p, trace, steps, n);
    assert Enabled(p, trace[n], steps[n]);
    var s := trace[n].sched;
    EndReady(p, trace[n], w);
    EndVerdict(s, w, s.workers[w].task, s.workers[w].lease, o);
  }

  /** A fatal error or a result is final: the record stays as that step leaves it, and the task is
      never requeued. */
  lemma VerdictIsFinal(p: Policy, trace: seq<Kernel>, steps: seq<Step>, n: nat, w: nat, o: Outcome, m: nat)
    requires IsRun(p, trace, steps) && n < m < |steps| && steps[n] == ExecutionEnd(w, o) && !IsFailure(o)
    ensures w < |trace[n].sched.workers| && trace[n].sched.workers[w].Executing?
    ensures
      var id := trace[n].sched.workers[w].task;
      && id in trace[n + 1].sched.records && id in trace[m].sched.records
      && trace[m].sched.records[id] == trace[n + 1].sched.records[id]
      && !Requeues(trace[m].sched, trace[m + 1].sched, id)
  {
    OutcomeIsRecorded(p, trace, steps, n, w, o);
    var id := trace[n].sched.workers[w].task;
    RecordsOnlyProgress(p, trace, steps, n + 1, m, id);
    RunStepProgresses(p, trace, steps, m, id);
  }

  lemma RunStepProgresses(p: Policy, trace: seq<Kernel>, steps: seq<Step>, m: nat, id: TaskId)
    requires IsRun(p, trace, steps) && m < |steps| && id in trace[m].sched.records
    ensures Progresses(trace[m].sched, trace[m + 1].sched, id)
  {
    RunValid(p, trace, steps, m);
    StepProgresses(p, trace[m], steps[m], id);
  }

  /** What a failure leads to: the end, with its reason, if no attempts are left, and otherwise
      another try later. */
  ghost predicate Handled(s: Sched, s': Sched, id: TaskId, reason: string) {
    && id in s.records && id in s'.records && s'.records[id].spec == s.records[id].spec
    && s'.records[id].attempts == s.records[id].attempts
    && (if |s.records[id].attempts| >= s.records[id].spec.maxAttempts then
          && s'.records[id].state == Failed && s'.records[id].result == None
          && s'.records[id].error == Some(reason) && s'.retries == s.retries
        else
          && s'.records[id] == s.records[id].(state := Pending) && !s'.idle && s'.pendingRetries == s.pendingRetries + 1
          && |s'.retries| == |s.retries| + 1 && s.retries <= s'.retries && s'.retries[|s.retries|].task == id)
  }

  lemma FailureHandled(p: SchedulerPolicy, s: Sched, w: nat, now: real, draw: real)
    requires w < |s.workers| && s.workers[w].Failing? && s.workers[w].task in s.records
    ensures
      var s' := FailureRequeued(p, s, w, now, draw);
      && Handled(s, s', s.workers[w].task, s.workers[w].reason)
      && s'.workers == s.workers[w := Releasing(s.workers[w].task, s.workers[w].lease)]
      && (forall x | x in s.records && x != s.workers[w].task :: x in s'.records && s'.records[x] == s.records[x])
  {
  }

  /** In every run a worker that handles a failure fails the task with that reason if its attempts
      are spent, and puts it to sleep otherwise; it still has the lease, and gives it back next. */
  lemma FailureIsHandled(p: Policy, trace: seq<Kernel>, steps: seq<Step>, n: nat, w: nat, draw: real)
    requires IsRun(p, trace, steps) && n < |steps| && steps[n] == FailureRequeue(w, draw)
    ensures
      var (s, s') := (trace[n].sched, trace[n + 1].sched);
      && w < |s.workers| && s.workers[w].Failing?
      && Handled(s, s', s.workers[w].task, s.workers[w].reason)
      && s'.workers == s.workers[w := Releasing(s.workers[w].task, s.workers[w].lease)]
      && (forall x | x in s.records && x != s.workers[w].task :: x in s'.records && s'.records[x] == s.records[x])
      && trace[n + 1].fleet == trace[n].fleet
  {
    assert Enabled(p, trace[n], steps[n]);
    FailureHandled(p.sched, trace[n].sched, w, trace[n].now, draw);
  }

  // ---------- and the device ----------

  lemma BlamedOrNot(k: Kernel, d: DeviceId, o: Outcome)
    requires d in k.fleet.reg.devices
    ensures Blamed(k, d, o) == k.fleet
            <==> o.Success? || o.Fatal? || (o.Retryable? && !o.blamesDevice) || StateOf(k.fleet, d) != Online
  {
    assert |Quarantine(k.fleet, d, k.now).mon.log| > |k.fleet.mon.log|;
  }

  /** The end of an attempt changes nothing about any device, and publishes nothing, if and only if
      it succeeded, or failed for a reason that says nothing about the device, or the device is
      already out of the pool: a script's own failure does not cost the phone its place. */
  lemma UnblamedIsLeftAlone(p: Policy, trace: seq<Kernel>, steps: seq<Step>, n: nat, w: nat, o: Outcome)
    requires IsRun(p, trace, steps) && n < |steps| && steps[n] == ExecutionEnd(w, o) && Enabled(p, trace[n], steps[n])
    ensures DeviceOf(trace[n], w) in trace[n].fleet.reg.devices
    ensures trace[n + 1].fleet == trace[n].fleet
            <==> o.Success? || o.Fatal? || (o.Retryable? && !o.blamesDevice)
                 || StateOf(trace[n].fleet, DeviceOf(trace[n], w)) != Online
  {
    RunValid(p, trace, steps, n);
    ExecutesOnLeased(p, trace[n], w);
    BlamedOrNot(trace[n], DeviceOf(trace[n], w), o);
    assert trace[n + 1].fleet == Blamed(trace[n], DeviceOf(trace[n], w), o);
  }
}
