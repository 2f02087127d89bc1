/** A worker's turn from the queue to a lease: who gets which device, who waits and until when,
    and who goes away without one. */
module AcquireTheorems {
  import opened Tasks
  import opened Devices
  import opened Scheduler
  import opened RegistryEffects
  import opened Books
  import opened Kernel
  import opened KernelProofs

  // ---------- what a selector asks for ----------

  /** The device the selector pins, if it pins one; one of its transports, if it names any; and all
      of its tags. */
  ghost predicate Serves(dev: Device, sel: DeviceSelector) {
    && (sel.deviceId.None? || sel.deviceId.value.serial == "" || sel.deviceId.value == dev.id)
    && (sel.transports == [] || exists i :: 0 <= i < |sel.transports| && sel.transports[i] == dev.transport)
    && forall i | 0 <= i < |sel.tags| :: sel.tags[i] in dev.tags
  }

  lemma ServesIsMatches(dev: Device, sel: DeviceSelector)
    ensures Serves(dev, sel) <==> Matches(dev, sel)
  {
  }

  /** A device the task could have now. */
  ghost predicate Candidate(r: Registry, sel: DeviceSelector, d: DeviceId) {
    d in r.devices && r.devices[d].state == Online && d !in r.leases && Serves(r.devices[d], sel)
  }

  /** The first candidate in the order of discovery. */
  ghost predicate FirstCandidate(r: Registry, sel: DeviceSelector, j: nat) {
    j < |r.order| && Candidate(r, sel, r.order[j]) && forall i | 0 <= i < j :: !Candidate(r, sel, r.order[i])
  }

  lemma FreeIsCandidate(r: Registry, sel: DeviceSelector, d: DeviceId)
    ensures Free(r, d, sel) <==> Candidate(r, sel, d)
  {
    if d in r.devices {
      ServesIsMatches(r.devices[d], sel);
    }
  }

  lemma FoundIsFirst(r: Registry, sel: DeviceSelector) returns (j: nat)
    ensures FindFree(r, sel).Some? ==> FirstCandidate(r, sel, j) && r.order[j] == FindFree(r, sel).value
    ensures FindFree(r, sel).None? ==> forall i | 0 <= i < |r.order| :: !Candidate(r, sel, r.order[i])
  {
    j := 0;
    forall i | 0 <= i < |r.order|
      ensures Free(r, r.order[i], sel) <==> Candidate(r, sel, r.order[i])
    {
      FreeIsCandidate(r, sel, r.order[i]);
    }
    if FindFree(r, sel).Some? {
      var i: nat :| i < |r.order| && r.order[i] == FindFree(r, sel).value;
      j := FirstFreeIsFirst(r, r.order, sel, i);
    }
  }

  // ---------- the three ends of a turn ----------

  ghost predicate NoCandidate(r: Registry, sel: DeviceSelector) {
    forall i | 0 <= i < |r.order| :: !Candidate(r, sel, r.order[i])
  }

  /** The worker has the device leased, and the attempt is recorded. */
  ghost predicate GotLease(k: Kernel, k': Kernel, w: nat, id: TaskId, d: DeviceId, token: nat) {
    var (r, r', h) := (k.fleet.reg, k'.fleet.reg, |k.fleet.reg.issued|);
    && r'.leases == r.leases[d := h] && r'.issued == r.issued + [Lease(d, token, false)] && r'.devices == r.devices
    && w < |k'.sched.workers| && k'.sched.workers[w] == Executing(id, h)
    && id in k.sched.records && id in k'.sched.records
    && var (was, rec) := (k.sched.records[id], k'.sched.records[id]);
    rec == was.(state := Running, attempts := was.attempts + [Attempt(|was.attempts| + 1, d, false, None)])
  }

  /** The worker goes away empty-handed: its task has no attempts left, or is tried again later. */
  ghost predicate WentAway(k: Kernel, k': Kernel, w: nat, id: TaskId) {
    && k'.fleet.reg.leases == k.fleet.reg.leases && k'.fleet.reg.issued == k.fleet.reg.issued
    && w < |k'.sched.workers| && k'.sched.workers[w] == Tail(id)
    && id in k.sched.records && id in k'.sched.records
    && var (was, rec) := (k.sched.records[id], k'.sched.records[id]);
    && (if |was.attempts| >= was.spec.maxAttempts then
          rec == was.(state := Failed, result := None, error := Some("no device available"))
          && k'.sched.retries == k.sched.retries
        else rec == was.(state := Pending) && |k'.sched.retries| == |k.sched.retries| + 1
             && k'.sched.retries[|k.sched.retries|].task == id)
  }

  /** The worker is parked. */
  ghost predicate Waits(k: Kernel, k': Kernel, w: nat, id: TaskId, deadline: Option<real>) {
    && w < |k'.sched.workers| && k'.sched.workers[w] == Acquiring(id)
    && k'.fleet.reg.leases == k.fleet.reg.leases && k'.fleet.reg.issued == k.fleet.reg.issued
    && k'.sched.records == k.sched.records && id in k.sched.records
    && w in k'.fleet.reg.waiters
    && k'.fleet.reg.waiters[w] == Waiter(k.sched.records[id].spec.selector, deadline, false)
  }

  /** First come, first served by a device if there is one; if not, the worker gives up if its
      deadline has passed, and waits if it has not. */
  ghost predicate Decided(k: Kernel, k': Kernel, w: nat, id: TaskId, deadline: Option<real>, token: nat) {
    id in k.sched.records &&
    var (r, sel) := (k.fleet.reg, k.sched.records[id].spec.selector);
    && (!NoCandidate(r, sel)
        <==> exists j: nat :: FirstCandidate(r, sel, j) && GotLease(k, k', w, id, r.order[j], token))
    && (NoCandidate(r, sel) ==> if deadline.Some? && k.now >= deadline.value then WentAway(k, k', w, id)
                                else Waits(k, k', w, id, deadline))
  }

  lemma AcquireDecides(p: Policy, k: Kernel, w: nat, id: TaskId, deadline: Option<real>, token: nat, draw: real)
    requires w < |k.sched.workers| && k.sched.workers[w] == Acquiring(id) && id in k.sched.records
    ensures Decided(k, AcquireFor(p, k, w, id, deadline, token, draw), w, id, deadline, token)
  {
    var (r, sel) := (k.fleet.reg, k.sched.records[id].spec.selector);
    var k' := AcquireFor(p, k, w, id, deadline, token, draw);
    var j := FoundIsFirst(r, sel);
    if FindFree(r, sel).Some? {
      assert GotLease(k, k', w, id, r.order[j], token);
    }
  }

  // ---------- a worker takes a task ----------

  /** No device that is not retired could ever serve it. */
  ghost predicate Unschedulable(r: Registry, sel: DeviceSelector) {
    forall d | d in r.devices && Serves(r.devices[d], sel) :: r.devices[d].state == Retired
  }

  ghost predicate GivenUpOn(k: Kernel, k': Kernel, w: nat, id: TaskId) {
    && k'.fleet == k.fleet && w < |k'.sched.workers| && k'.sched.workers[w] == Tail(id)
    && id in k'.sched.records && k'.sched.records[id].state == Abandoned && k'.sched.records[id].result == None
    && k'.sched.records[id].error == Some("no device in the fleet matches this selector")
    && k'.sched.retries == k.sched.retries
  }

  /** The task at the head of the queue is taken off it. A task that could never be served is
      abandoned on the spot, and no other one is. */
  ghost predicate Taken(p: SchedulerPolicy, k: Kernel, k': Kernel, w: nat, id: TaskId, token: nat) {
    && k.sched.queue != [] && k'.sched.queue == k.sched.queue[1..] && k'.sched.inflight == k.sched.inflight + 1
    && id in k.sched.records && id in k'.sched.records
    && var (r, sel) := (k.fleet.reg, k.sched.records[id].spec.selector);
    && (Unschedulable(r, sel) <==> k'.sched.records[id].state == Abandoned)
    && (if Unschedulable(r, sel) then GivenUpOn(k, k', w, id)
        else Decided(k, k', w, id, if p.leaseTimeout.None? then None else Some(k.now + p.leaseTimeout.value), token))
  }

  lemma CouldIsNot(r: Registry, sel: DeviceSelector)
    ensures CouldEverMatch(r, sel) <==> !Unschedulable(r, sel)
  {
    forall d | d in r.devices
      ensures Serves(r.devices[d], sel) <==> Matches(r.devices[d], sel)
    {
      ServesIsMatches(r.devices[d], sel);
    }
  }

  lemma HeadTaken(p: Policy, k: Kernel, w: nat, id: TaskId, token: nat, draw: real)
    requires Enabled(p, k, Take(w, token, draw)) && k.sched.queue[0] == Some(id) && InState(k.sched, id, Pending)
    ensures Taken(p.sched, k, TakeNext(p, k, w, token, draw), w, id, token)
  {
    var taken := k.(sched := Dequeued(k.sched, w));
    CouldIsNot(k.fleet.reg, k.sched.records[id].spec.selector);
    if CouldEverMatch(k.fleet.reg, k.sched.records[id].spec.selector) {
      AcquireDecides(p, taken, w, id, Deadline(p, k.now), token, draw);
      var k' := AcquireFor(p, taken, w, id, Deadline(p, k.now), token, draw);
      AcquireOnly(p, taken, w, id, Deadline(p, k.now), token, draw);
      assert Decided(taken, k', w, id, Deadline(p, k.now), token);
      SameDecision(taken, k, k', w, id, Deadline(p, k.now), token);
    }
  }

  lemma AcquireOnly(p: Policy, k: Kernel, w: nat, id: TaskId, deadline: Option<real>, token: nat, draw: real)
    requires w < |k.sched.workers| && id in k.sched.records
    ensures
      var s' := AcquireFor(p, k, w, id, deadline, token, draw).sched;
      s'.queue == k.sched.queue && s'.inflight == k.sched.inflight
      && id in s'.records && s'.records[id].state in {k.sched.records[id].state, Running, Failed, Pending}
  {
  }

  /** The decision is the same seen from a state with the same fleet, records and retries. */
  lemma SameDecision(k: Kernel, l: Kernel, k': Kernel, w: nat, id: TaskId, deadline: Option<real>, token: nat)
    requires Decided(k, k', w, id, deadline, token) && l.fleet == k.fleet && l.now == k.now
    requires l.sched.records == k.sched.records && l.sched.retries == k.sched.retries
    ensures Decided(l, k', w, id, deadline, token)
  {
    assert forall d :: GotLease(k, k', w, id, d, token) <==> GotLease(l, k', w, id, d, token);
    assert WentAway(k, k', w, id) <==> WentAway(l, k', w, id);
  }

  /** In every run a worker that takes a task abandons it if and only if every device that serves
      it is retired; otherwise it leases the first candidate in the order of discovery, if there is
      one, and else waits until the configured time from now is over. */
  lemma TakeDecides(p: Policy, trace: seq<Kernel>, steps: seq<Step>, n: nat, w: nat, id: TaskId)
    requires IsRun(p, trace, steps) && n < |steps| && steps[n].Take? && steps[n].w == w
    requires trace[n].sched.queue != [] && trace[n].sched.queue[0] == Some(id)
    ensures Taken(p.sched, trace[n], trace[n + 1], w, id, steps[n].token)
  {
    RunValid(p, trace, steps, n);
    var k := trace[n];
    assert Enabled(p, k, Take(w, steps[n].token, steps[n].draw));
    assert InState(k.sched, k.sched.queue[0].value, Pending);
    HeadTaken(p, k, w, id, steps[n].token, steps[n].draw);
  }

  // ---------- a worker that waited ----------

  /** Its place on the condition is given up before it looks. */
  function WithoutWaiter(k: Kernel, w: nat): Kernel {
    k.(fleet := k.fleet.(reg := k.fleet.reg.(waiters := k.fleet.reg.waiters - {w})))
  }

  /** A worker that is woken decides by the deadline it has had from the start, and one whose
      deadline runs out goes away. */
  lemma WaiterDecides(p: Policy, trace: seq<Kernel>, steps: seq<Step>, n: nat, w: nat)
    requires IsRun(p, trace, steps) && n < |steps| && (steps[n].WaiterWake? || steps[n].WaiterTimeout?)
    requires steps[n].w == w
    ensures
      var k := trace[n];
      && w < |k.sched.workers| && k.sched.workers[w].Acquiring? && w in k.fleet.reg.waiters
      && var (id, deadline) := (k.sched.workers[w].task, k.fleet.reg.waiters[w].deadline);
      if steps[n].WaiterWake? then Decided(WithoutWaiter(k, w), trace[n + 1], w, id, deadline, steps[n].token)
      else deadline.Some? && k.now >= deadline.value && WentAway(k, trace[n + 1], w, id)
  {
    var k := trace[n];
    assert Enabled(p, k, steps[n]);
    if steps[n].WaiterWake? {
      AcquireDecides(p, WithoutWaiter(k, w), w, k.sched.workers[w].task, k.fleet.reg.waiters[w].deadline,
                     steps[n].token, steps[n].draw);
    }
  }

  // ---------- until when ----------

  /** Worker w is parked with this deadline. */
  ghost predicate ParkedUntil(k: Kernel, w: nat, deadline: Option<real>) {
    && w < |k.sched.workers| && k.sched.workers[w].Acquiring?
    && w in k.fleet.reg.waiters && k.fleet.reg.waiters[w].deadline == deadline
  }

  lemma OthersParked(p: Policy, k: Kernel, v: nat, id: TaskId, until: Option<real>, token: nat, draw: real, w: nat)
    requires v < |k.sched.workers| && id in k.sched.records && v != w
    ensures
      var r' := AcquireFor(p, k, v, id, until, token, draw).fleet.reg;
      (w in r'.waiters <==> w in k.fleet.reg.waiters)
      && (w in r'.waiters ==> r'.waiters[w].deadline == k.fleet.reg.waiters[w].deadline)
  {
  }

  lemma FleetParked(p: Policy, k: Kernel, step: Step, w: nat)
    requires Enabled(p, k, step) && (MonitorStep(step) || step.ExecutionEnd? || step.LeaseReturn?)
    ensures
      var r' := Apply(p, k, step).fleet.reg;
      (w in r'.waiters <==> w in k.fleet.reg.waiters)
      && (w in r'.waiters ==> r'.waiters[w].deadline == k.fleet.reg.waiters[w].deadline)
  {
    var f := k.fleet;
    match step
    case CheckEnd(d, result) => CheckDoneKept(p.health, f, d, result, k.now);
    case RecoveryStart(d) => RecoveryBegunKept(p.health, f, d, k.now);
    case ReconnectEnd(d, result) => ReconnectDoneKept(p.health, f, d, f.mon.recoveries[d].attempt, result, k.now);
    case RecoveryProbeEnd(d, result) =>
      ReconnectDoneKept(p.health, f, d, f.mon.recoveries[d].attempt, result, k.now);
    case RecoveryWake(d) => AttemptKept(p.health, f, d, f.mon.recoveries[d].attempt + 1, k.now);
    case ExecutionEnd(v, o) => QuarantineKept(f, f.reg.issued[k.sched.workers[v].lease].device, k.now);
    case _ =>
  }

  lemma StepParked(p: Policy, k: Kernel, step: Step, w: nat, deadline: Option<real>)
    requires Enabled(p, k, step) && ParkedUntil(k, w, deadline)
    requires var k' := Apply(p, k, step); w < |k'.sched.workers| && k'.sched.workers[w].Acquiring?
    requires BooksAgree(Apply(p, k, step).fleet.reg, Apply(p, k, step).sched)
    ensures ParkedUntil(Apply(p, k, step), w, deadline)
  {
    var k' := Apply(p, k, step);
    assert Parks(k'.fleet.reg, k'.sched, w);
    if MonitorStep(step) || step.ExecutionEnd? || step.LeaseReturn? {
      FleetParked(p, k, step, w);
    } else if step.Take? {
      TakeParked(p, k, step.w, step.token, step.draw, w);
    } else if step.WaiterWake? {
      WakeParked(p, k, step.w, step.token, step.draw, w);
    }
  }

  lemma TakeParked(p: Policy, k: Kernel, v: nat, token: nat, draw: real, w: nat)
    requires Enabled(p, k, Take(v, token, draw)) && v != w
    ensures
      var r' := TakeNext(p, k, v, token, draw).fleet.reg;
      (w in r'.waiters <==> w in k.fleet.reg.waiters)
      && (w in r'.waiters ==> r'.waiters[w].deadline == k.fleet.reg.waiters[w].deadline)
  {
    if k.sched.queue[0].Some? {
      var taken := k.(sched := Dequeued(k.sched, v));
      var id := k.sched.queue[0].value;
      if !Skippable(taken.sched, id) {
        OthersParked(p, taken, v, id, Deadline(p, k.now), token, draw, w);
      }
    }
  }

  lemma WakeParked(p: Policy, k: Kernel, v: nat, token: nat, draw: real, w: nat)
    requires Enabled(p, k, WaiterWake(v, token, draw)) && w in k.fleet.reg.waiters
    ensures
      var r' := Apply(p, k, WaiterWake(v, token, draw)).fleet.reg;
      w in r'.waiters ==> r'.waiters[w].deadline == k.fleet.reg.waiters[w].deadline
  {
    if v != w {
      OthersParked(p, WithoutWaiter(k, v), v, k.sched.workers[v].task, k.fleet.reg.waiters[v].deadline, token, draw, w);
    }
  }

  ghost predicate AcquiresThrough(trace: seq<Kernel>, m: nat, n: nat, w: nat) {
    forall i | m <= i <= n && i < |trace| ::
      w < |trace[i].sched.workers| && trace[i].sched.workers[w].Acquiring?
  }

  lemma RunStepParked(p: Policy, trace: seq<Kernel>, steps: seq<Step>, n: nat, w: nat, deadline: Option<real>)
    requires IsRun(p, trace, steps) && n < |steps| && ParkedUntil(trace[n], w, deadline)
    requires w < |trace[n + 1].sched.workers| && trace[n + 1].sched.workers[w].Acquiring?
    ensures ParkedUntil(trace[n + 1], w, deadline)
  {
    RunValid(p, trace, steps, n + 1);
    StepParked(p, trace[n], steps[n], w, deadline);
  }

  lemma {:induction false} StaysParked(p: Policy, trace: seq<Kernel>, steps: seq<Step>, m: nat, n: nat, w: nat,
      deadline: Option<real>)
    requires IsRun(p, trace, steps) && m <= n < |trace| && ParkedUntil(trace[m], w, deadline)
    requires AcquiresThrough(trace, m, n, w)
    ensures ParkedUntil(trace[n], w, deadline)
  {
    if m < n {
      StaysParked(p, trace, steps, m, n - 1, w, deadline);
      RunStepParked(p, trace, steps, n - 1, w, deadline);
    }
  }

  /** However often it is woken for nothing, a worker that took a task at step m waits until
      exactly the configured time after that, and for ever if none is configured. */
  lemma DeadlineStands(p: Policy, trace: seq<Kernel>, steps: seq<Step>, m: nat, n: nat, w: nat)
    requires IsRun(p, trace, steps) && m < n < |trace| && steps[m].Take? && steps[m].w == w
    requires AcquiresThrough(trace, m + 1, n, w)
    ensures w in trace[n].fleet.reg.waiters
    ensures
      var deadline := trace[n].fleet.reg.waiters[w].deadline;
      if p.sched.leaseTimeout.None? then deadline.None?
      else deadline.Some? && deadline.value == trace[m].now + p.sched.leaseTimeout.value
  {
    var k := trace[m];
    assert Enabled(p, k, steps[m]);
    assert w < |trace[m + 1].sched.workers| && trace[m + 1].sched.workers[w].Acquiring?;
    assert k.sched.queue[0].Some?;
    TakeDecides(p, trace, steps, m, w, k.sched.queue[0].value);
    var deadline := if p.sched.leaseTimeout.None? then None else Some(k.now + p.sched.leaseTimeout.value);
    assert ParkedUntil(trace[m + 1], w, deadline);
    StaysParked(p, trace, steps, m + 1, n, w, deadline);
  }
}
