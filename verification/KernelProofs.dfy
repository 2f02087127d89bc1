/** Every step of the kernel keeps every invariant. */
module KernelProofs {
  import opened Tasks
  import opened Devices
  import opened Health
  import opened Scheduler
  import opened SchedulerProofs
  import opened FleetProofs
  import opened RegistryEffects
  import opened Books
  import opened Kernel

  ghost predicate KernelValid(p: Policy, k: Kernel) {
    && Devices.Valid(k.fleet.reg)
    && FleetValid(p.health, k.fleet, k.now)
    && Scheduler.Valid(k.sched)
    && BooksAgree(k.fleet.reg, k.sched)
  }

  lemma InitValid(p: Policy, now: real)
    requires PolicyValid(p.health) && now >= 0.0
    ensures KernelValid(p, Init(now))
  {
    var k := Init(now);
    assert Conserved(k.sched);
    assert forall w: nat :: Parks(k.fleet.reg, k.sched, w) && Attempts(k.fleet.reg, k.sched, w);
  }

  // ---------- steps of the monitor ----------

  lemma FleetStep(p: Policy, k: Kernel, g: Fleet)
    requires KernelValid(p, k) && Kept(k.fleet.reg, g.reg) && FleetValid(p.health, g, k.now)
    ensures KernelValid(p, k.(fleet := g))
  {
    BooksFleet(k.fleet.reg, g.reg, k.sched);
  }

  lemma SweepStepsValid(p: Policy, k: Kernel, step: Step)
    requires KernelValid(p, k) && Enabled(p, k, step) && (step.SweepStart? || step.CheckStart? || step.CheckEnd?)
    ensures KernelValid(p, Apply(p, k, step))
  {
    var g := Apply(p, k, step).fleet;
    match step {
      case SweepStart =>
        SweepBegunValid(p.health, k.fleet, k.now);
        KeptSelf(k.fleet.reg);
      case CheckStart(d) =>
        CheckBegunValid(p.health, k.fleet, d, k.now);
        KeptSelf(k.fleet.reg);
      case CheckEnd(d, result) =>
        CheckDoneValid(p.health, k.fleet, d, result, k.now);
        CheckDoneKept(p.health, k.fleet, d, result, k.now);
    }
    FleetStep(p, k, g);
  }

  lemma RecoveryStartValid(p: Policy, k: Kernel, d: DeviceId)
    requires KernelValid(p, k) && Enabled(p, k, RecoveryStart(d))
    ensures KernelValid(p, Apply(p, k, RecoveryStart(d)))
  {
    RecoveryBegunValid(p.health, k.fleet, d, k.now);
    RecoveryBegunKept(p.health, k.fleet, d, k.now);
    FleetStep(p, k, RecoveryBegun(p.health, k.fleet, d, k.now));
  }

  lemma ReconnectEndValid(p: Policy, k: Kernel, d: DeviceId, result: Probe)
    requires KernelValid(p, k) && Enabled(p, k, ReconnectEnd(d, result))
    ensures KernelValid(p, Apply(p, k, ReconnectEnd(d, result)))
  {
    var attempt := k.fleet.mon.recoveries[d].attempt;
    ReconnectDoneValid(p.health, k.fleet, d, attempt, result, k.now);
    ReconnectDoneKept(p.health, k.fleet, d, attempt, result, k.now);
    KeptSelf(k.fleet.reg);
    FleetStep(p, k, ReconnectDone(p.health, k.fleet, d, attempt, result, k.now));
  }

  lemma RecoveryProbeEndValid(p: Policy, k: Kernel, d: DeviceId, result: Probe)
    requires KernelValid(p, k) && Enabled(p, k, RecoveryProbeEnd(d, result))
    ensures KernelValid(p, Apply(p, k, RecoveryProbeEnd(d, result)))
  {
    var attempt := k.fleet.mon.recoveries[d].attempt;
    RecoveryProbedValid(p.health, k.fleet, d, attempt, result, k.now);
    ReconnectDoneKept(p.health, k.fleet, d, attempt, result, k.now);
    FleetStep(p, k, RecoveryProbed(p.health, k.fleet, d, attempt, result, k.now));
  }

  lemma RecoveryWakeValid(p: Policy, k: Kernel, d: DeviceId)
    requires KernelValid(p, k) && Enabled(p, k, RecoveryWake(d))
    ensures KernelValid(p, Apply(p, k, RecoveryWake(d)))
  {
    var attempt := k.fleet.mon.recoveries[d].attempt + 1;
    PastFirstCheck(p.health, k.fleet, d, k.now);
    AttemptBegunValid(p.health, k.fleet, d, attempt, k.now);
    AttemptKept(p.health, k.fleet, d, attempt, k.now);
    KeptSelf(k.fleet.reg);
    FleetStep(p, k, AttemptBegun(p.health, k.fleet, d, attempt, k.now));
  }

  lemma RefreshValid(p: Policy, k: Kernel, keys: seq<DeviceId>, found: map<DeviceId, Device>)
    requires KernelValid(p, k) && Enabled(p, k, Refresh(keys, found))
    ensures KernelValid(p, Apply(p, k, Refresh(keys, found)))
  {
    Devices.ReconciledValid(k.fleet.reg, keys, found);
    FleetProofs.ReconciledValid(p.health, k.fleet, keys, found, k.now);
    BooksFleet(k.fleet.reg, Reconciled(k.fleet.reg, keys, found), k.sched);
  }

  // ---------- steps of the scheduler that leave the books alone ----------

  lemma SchedStep(p: Policy, k: Kernel, s: Sched)
    requires KernelValid(p, k) && Scheduler.Valid(s)
    requires s.workers == k.sched.workers
    requires forall id | id in k.sched.records :: id in s.records && s.records[id] == k.sched.records[id]
    ensures KernelValid(p, k.(sched := s))
  {
    var r := k.fleet.reg;
    assert forall w: nat, h: nat :: Holds(s, w, h) <==> Holds(k.sched, w, h);
    assert forall w: nat | Parks(r, k.sched, w) :: Parks(r, s, w);
    assert forall w: nat | Attempts(r, k.sched, w) :: Attempts(r, s, w);
  }

  lemma SubmitValid(p: Policy, k: Kernel, spec: TaskSpec)
    requires KernelValid(p, k) && spec.id !in k.sched.records
    ensures KernelValid(p, k.(sched := Submitted(p.sched, k.sched, spec)))
  {
    SubmittedValid(p.sched, k.sched, spec);
    SchedStep(p, k, Submitted(p.sched, k.sched, spec));
  }

  lemma ClientStepsValid(p: Policy, k: Kernel, step: Step)
    requires KernelValid(p, k) && Enabled(p, k, step)
    requires step.Stop? || step.DrainCall? || step.DrainReturn? || step.RetryFire?
    ensures KernelValid(p, Apply(p, k, step))
  {
    var s := Apply(p, k, step).sched;
    assert Scheduler.Valid(s) by {
      match step {
        case Stop => StopAskedValid(k.sched);
        case DrainCall(n) => DrainBegunValid(k.sched, n);
        case DrainReturn(n, _) => DrainOverValid(k.sched, n);
        case RetryFire(i) => RetryFiredValid(k.sched, i);
      }
    }
    SchedStep(p, k, s);
  }

  lemma StartValid(p: Policy, k: Kernel)
    requires KernelValid(p, k) && Enabled(p, k, Start)
    ensures KernelValid(p, Apply(p, k, Start))
  {
    StartedValid(p.sched, k.sched);
    var r, s := k.fleet.reg, Started(p.sched, k.sched);
    assert forall w: nat, h: nat :: Holds(s, w, h) <==> Holds(k.sched, w, h);
    assert forall w: nat | Parks(r, k.sched, w) :: Parks(r, s, w);
    assert forall w: nat | Attempts(r, k.sched, w) :: Attempts(r, s, w);
  }

  // ---------- a worker between `queue.get` and the end of `acquire` ----------

  /** All is valid, but worker `w` has a task and is neither parked nor executing. */
  ghost predicate Undecided(p: Policy, k: Kernel, w: nat, id: TaskId) {
    && Devices.Valid(k.fleet.reg)
    && FleetValid(p.health, k.fleet, k.now)
    && Scheduler.Valid(k.sched)
    && LeasesHeld(k.fleet.reg, k.sched) && AttemptsRecorded(k.fleet.reg, k.sched)
    && (forall v: nat | v != w :: Parks(k.fleet.reg, k.sched, v))
    && w < |k.sched.workers| && k.sched.workers[w] == Worker.Acquiring(id)
    && w !in k.fleet.reg.waiters
    && id in k.sched.records
  }

  /** Records other than this one are as they were, and specs always are. */
  ghost predicate OnlyRecord(s: Sched, s': Sched, id: TaskId) {
    && id in s.records && id in s'.records && s'.records[id].spec == s.records[id].spec
    && s'.records == s.records[id := s'.records[id]]
  }

  lemma OthersUntouched(s: Sched, s': Sched, w: nat, id: TaskId)
    requires Conserved(s) && w < |s.workers| && Owns(s.workers[w], id) && OnlyRecord(s, s', id)
    ensures forall v: nat | v < |s.workers| && v != w && Owning(s.workers[v]) && s.workers[v].task in s.records ::
              s.workers[v].task in s'.records && s'.records[s.workers[v].task] == s.records[s.workers[v].task]
  {
    SoleCarrier(s, w, id);
    forall v: nat | v < |s.workers| && v != w && Owning(s.workers[v]) && s.workers[v].task in s.records
      ensures s'.records[s.workers[v].task] == s.records[s.workers[v].task]
    {
      assert !Owns(s.workers[v], id);
    }
  }

  /** The worker gives its task up without having had a lease. */
  lemma LeftBooks(p: Policy, k: Kernel, s': Sched, w: nat, id: TaskId)
    requires Undecided(p, k, w, id) && OnlyWorker(k.sched, s', w) && OnlyRecord(k.sched, s', id)
    requires s'.workers[w].Tail?
    ensures BooksAgree(k.fleet.reg, s')
  {
    var r := k.fleet.reg;
    OthersUntouched(k.sched, s', w, id);
    LeasesUntouched(r, k.sched, s', w);
    WaitersMoved(r, r, k.sched, s', w);
    AttemptsMoved(r, r, k.sched, s', w);
  }

  lemma AbandonValid(p: Policy, k: Kernel, w: nat, id: TaskId)
    requires Undecided(p, k, w, id)
    ensures KernelValid(p, k.(sched := AbandonedAt(k.sched, w, id)))
  {
    OwnerReady(k.sched, w, id);
    AbandonedAtMove(k.sched, w, id);
    MoveValid(k.sched, AbandonedAt(k.sched, w, id), w, id);
    LeftBooks(p, k, AbandonedAt(k.sched, w, id), w, id);
  }

  lemma GaveUpValid(p: Policy, k: Kernel, w: nat, id: TaskId, draw: real)
    requires Undecided(p, k, w, id)
    ensures KernelValid(p, AfterAcquire(p, k, w, id, GaveUp, draw))
  {
    OwnerReady(k.sched, w, id);
    RequeuedMove(p.sched, k.sched, w, id, NO_LEASE, k.now, draw, Tail(id));
    var s' := LeaseTimedOut(p.sched, k.sched, w, id, k.now, draw);
    MoveValid(k.sched, s', w, id);
    LeftBooks(p, k, s', w, id);
  }

  lemma ParkedValid(p: Policy, k: Kernel, w: nat, id: TaskId, r': Registry)
    requires Undecided(p, k, w, id) && Devices.Valid(r')
    requires exists deadline ::
               r' == k.fleet.reg.(waiters := k.fleet.reg.waiters[w :=
                                  Waiter(k.sched.records[id].spec.selector, deadline, false)])
    ensures KernelValid(p, WithReg(k, r'))
  {
    var r := k.fleet.reg;
    BooksIrrelevant(p.health, k.fleet, r', k.now);
    LeasesUntouched(r, k.sched, k.sched, w);
    WaitersMoved(r, r', k.sched, k.sched, w);
    AttemptsMoved(r, r', k.sched, k.sched, w);
  }

  lemma GrantedBooks(p: Policy, k: Kernel, w: nat, id: TaskId, d: DeviceId, token: nat)
    requires Undecided(p, k, w, id)
    ensures BooksAgree(Grant(k.fleet.reg, d, token), AttemptStarted(k.sched, w, id, |k.fleet.reg.issued|, d))
  {
    var r, s := k.fleet.reg, k.sched;
    var r', s' := Grant(r, d, token), AttemptStarted(s, w, id, |r.issued|, d);
    OthersUntouched(s, s', w, id);
    LeaseGranted(r, r', s, s', w);
    WaitersMoved(r, r', s, s', w);
    AttemptsMoved(r, r', s, s', w);
  }

  lemma GrantedSched(p: Policy, k: Kernel, w: nat, id: TaskId, d: DeviceId, handle: nat)
    requires Undecided(p, k, w, id)
    ensures Scheduler.Valid(AttemptStarted(k.sched, w, id, handle, d))
  {
    OwnerReady(k.sched, w, id);
    AttemptStartedMove(k.sched, w, id, handle, d);
    MoveValid(k.sched, AttemptStarted(k.sched, w, id, handle, d), w, id);
  }

  lemma GrantedValid(p: Policy, k: Kernel, w: nat, id: TaskId, d: DeviceId, token: nat, draw: real)
    requires Undecided(p, k, w, id) && d in k.fleet.reg.devices && d !in k.fleet.reg.leases
    ensures
      var r := k.fleet.reg;
      KernelValid(p, AfterAcquire(p, WithReg(k, Grant(r, d, token)), w, id, Granted(|r.issued|), draw))
  {
    var r := k.fleet.reg;
    GrantValid(r, d, token);
    BooksIrrelevant(p.health, k.fleet, Grant(r, d, token), k.now);
    GrantedSched(p, k, w, id, d, |r.issued|);
    GrantedBooks(p, k, w, id, d, token);
  }

  lemma AcquiringValid(p: Policy, k: Kernel, w: nat, id: TaskId, deadline: Option<real>, token: nat, draw: real)
    requires Undecided(p, k, w, id)
    ensures KernelValid(p, AcquireFor(p, k, w, id, deadline, token, draw))
  {
    var r, sel := k.fleet.reg, k.sched.records[id].spec.selector;
    var (r', result) := TryAcquire(r, w, sel, deadline, k.now, token);
    match FindFree(r, sel)
    case Some(d) =>
      assert d in r.order;
      GrantedValid(p, k, w, id, d, token, draw);
    case None =>
      if result.GaveUp? {
        assert WithReg(k, r') == k;
        GaveUpValid(p, k, w, id, draw);
      } else {
        TryAcquireValid(r, w, sel, deadline, k.now, token);
        ParkedValid(p, k, w, id, r');
      }
  }

  lemma DequeuedBooks(r: Registry, s: Sched, w: nat)
    requires BooksAgree(r, s) && w < |s.workers| && s.workers[w].Idle? && s.queue != []
    ensures
      var s' := Dequeued(s, w);
      && LeasesHeld(r, s') && AttemptsRecorded(r, s')
      && (forall v: nat | v != w :: Parks(r, s', v))
      && w !in r.waiters
  {
    var s' := Dequeued(s, w);
    assert Parks(r, s, w);
    LeasesUntouched(r, s, s', w);
    AttemptsMoved(r, r, s, s', w);
    assert forall v: nat | v != w && Parks(r, s, v) :: Parks(r, s', v);
  }

  lemma TakeNextValid(p: Policy, k: Kernel, w: nat, token: nat, draw: real)
    requires KernelValid(p, k) && WorkerAt(k, w) && k.sched.workers[w].Idle? && k.sched.queue != []
    ensures KernelValid(p, TakeNext(p, k, w, token, draw))
  {
    var taken := k.(sched := Dequeued(k.sched, w));
    DequeuedValid(k.sched, w);
    DequeuedBooks(k.fleet.reg, k.sched, w);
    match k.sched.queue[0]
    case None => assert Parks(k.fleet.reg, taken.sched, w);
    case Some(id) =>
      AbandonValid(p, taken, w, id);
      AcquiringValid(p, taken, w, id, Deadline(p, k.now), token, draw);
  }

  lemma UnparkedUndecided(p: Policy, k: Kernel, w: nat)
    requires KernelValid(p, k) && w in k.fleet.reg.waiters
    ensures w < |k.sched.workers| && k.sched.workers[w].Acquiring?
    ensures Undecided(p, WithReg(k, Unparked(k.fleet.reg, w)), w, k.sched.workers[w].task)
  {
    var r, s := k.fleet.reg, k.sched;
    var r' := Unparked(r, w);
    assert Parks(r, s, w);
    UnparkedValid(r, w);
    BooksIrrelevant(p.health, k.fleet, r', k.now);
    assert LeasesHeld(r', s);
    assert forall v: nat | Attempts(r, s, v) :: Attempts(r', s, v);
    assert forall v: nat | v != w && Parks(r, s, v) :: Parks(r', s, v);
  }

  // ---------- a worker that has a lease ----------

  /** `w` goes on, with the same lease or still without one. */
  lemma WorkerStep(p: Policy, k: Kernel, s': Sched, w: nat)
    requires KernelValid(p, k) && Scheduler.Valid(s') && OnlyWorker(k.sched, s', w)
    requires HasLease(k.sched.workers[w]) <==> HasLease(s'.workers[w])
    requires HasLease(s'.workers[w]) ==> s'.workers[w].lease == k.sched.workers[w].lease
    requires !k.sched.workers[w].Acquiring? && !s'.workers[w].Acquiring?
    requires s'.records == k.sched.records
             || (Owning(k.sched.workers[w]) && OnlyRecord(k.sched, s', k.sched.workers[w].task))
    requires Attempts(k.fleet.reg, s', w)
    ensures KernelValid(p, k.(sched := s'))
  {
    var r, s := k.fleet.reg, k.sched;
    if Owning(s.workers[w]) && s'.records != s.records {
      OthersUntouched(s, s', w, s.workers[w].task);
    }
    assert Parks(r, s, w);
    LeasesUntouched(r, s, s', w);
    WaitersMoved(r, r, s, s', w);
    AttemptsMoved(r, r, s, s', w);
  }

  lemma ExecutionDoneValid(s: Sched, w: nat, o: Outcome)
    requires Scheduler.Valid(s) && w < |s.workers| && s.workers[w].Executing? && s.workers[w].task in s.records
    ensures Scheduler.Valid(ExecutionDone(s, w, s.workers[w].task, s.workers[w].lease, o))
  {
    var ph := s.workers[w];
    OwnerReady(s, w, ph.task);
    ExecutionDoneMove(s, w, ph.task, ph.lease, o);
    MoveValid(s, ExecutionDone(s, w, ph.task, ph.lease, o), w, ph.task);
  }

  lemma ExecutionDoneEffect(r: Registry, s: Sched, w: nat, o: Outcome)
    requires w < |s.workers| && s.workers[w].Executing? && s.workers[w].task in s.records
    requires Attempts(r, s, w)
    ensures
      var s' := ExecutionDone(s, w, s.workers[w].task, s.workers[w].lease, o);
      && OnlyWorker(s, s', w) && OnlyRecord(s, s', s.workers[w].task) && Attempts(r, s', w)
      && HasLease(s'.workers[w]) && s'.workers[w].lease == s.workers[w].lease
  {
  }

  lemma ExecutionEndValid(p: Policy, k: Kernel, w: nat, o: Outcome)
    requires KernelValid(p, k) && WorkerAt(k, w)
    requires k.sched.workers[w].Executing? && k.sched.workers[w].task in k.sched.records
    ensures KernelValid(p, k.(sched := ExecutionDone(k.sched, w, k.sched.workers[w].task, k.sched.workers[w].lease, o)))
  {
    var s, ph := k.sched, k.sched.workers[w];
    ExecutionDoneValid(s, w, o);
    assert Attempts(k.fleet.reg, s, w);
    ExecutionDoneEffect(k.fleet.reg, s, w, o);
    WorkerStep(p, k, ExecutionDone(s, w, ph.task, ph.lease, o), w);
  }

  lemma BlamedValid(p: Policy, k: Kernel, d: DeviceId, o: Outcome)
    requires KernelValid(p, k)
    ensures Kept(k.fleet.reg, Blamed(k, d, o).reg) && FleetValid(p.health, Blamed(k, d, o), k.now)
  {
    if Blamed(k, d, o) == k.fleet {
      KeptSelf(k.fleet.reg);
    } else {
      QuarantineKept(k.fleet, d, k.now);
      QuarantineValid(p.health, k.fleet, d, k.now);
    }
  }

  lemma FailureRequeuedEffect(p: SchedulerPolicy, s: Sched, w: nat, now: real, draw: real)
    requires w < |s.workers| && s.workers[w].Failing? && s.workers[w].task in s.records
    ensures
      var s' := FailureRequeued(p, s, w, now, draw);
      && OnlyWorker(s, s', w) && s'.workers[w] == Releasing(s.workers[w].task, s.workers[w].lease)
      && OnlyRecord(s, s', s.workers[w].task)
  {
  }

  lemma FailureRequeuedValid(p: SchedulerPolicy, s: Sched, w: nat, now: real, draw: real)
    requires Scheduler.Valid(s) && w < |s.workers| && s.workers[w].Failing? && s.workers[w].task in s.records
    ensures Scheduler.Valid(FailureRequeued(p, s, w, now, draw))
  {
    var ph := s.workers[w];
    OwnerReady(s, w, ph.task);
    RequeuedMove(p, s, w, ph.task, ph.reason, now, draw, Releasing(ph.task, ph.lease));
    MoveValid(s, FailureRequeued(p, s, w, now, draw), w, ph.task);
  }

  lemma FailureRequeueValid(p: Policy, k: Kernel, w: nat, draw: real)
    requires KernelValid(p, k) && WorkerAt(k, w)
    requires k.sched.workers[w].Failing? && k.sched.workers[w].task in k.sched.records
    ensures KernelValid(p, k.(sched := FailureRequeued(p.sched, k.sched, w, k.now, draw)))
  {
    FailureRequeuedValid(p.sched, k.sched, w, k.now, draw);
    FailureRequeuedEffect(p.sched, k.sched, w, k.now, draw);
    WorkerStep(p, k, FailureRequeued(p.sched, k.sched, w, k.now, draw), w);
  }

  lemma LeaseReturnBooks(r: Registry, s: Sched, w: nat)
    requires LeasesValid(r) && BooksAgree(r, s) && w < |s.workers| && s.workers[w].Releasing?
    ensures s.workers[w].lease < |r.issued| && !r.issued[s.workers[w].lease].released
    ensures BooksAgree(Released(r, s.workers[w].lease), LeaseReturned(s, w))
  {
    var h := s.workers[w].lease;
    assert Holds(s, w, h);
    var r', s' := Released(r, h), LeaseReturned(s, w);
    assert Parks(r, s, w);
    LeaseGone(r, r', s, s', w, h);
    WaitersMoved(r, r', s, s', w);
    AttemptsMoved(r, r', s, s', w);
  }

  lemma LeaseReturnValid(p: Policy, k: Kernel, w: nat)
    requires KernelValid(p, k) && Enabled(p, k, LeaseReturn(w))
    ensures KernelValid(p, Apply(p, k, LeaseReturn(w)))
  {
    var r, h := k.fleet.reg, k.sched.workers[w].lease;
    LeaseReturnBooks(r, k.sched, w);
    ReleasedValid(r, h);
    LeaseReturnedValid(k.sched, w);
    BooksIrrelevant(p.health, k.fleet, Released(r, h), k.now);
  }

  lemma WorkerTailValid(p: Policy, k: Kernel, w: nat)
    requires KernelValid(p, k) && Enabled(p, k, WorkerTail(w))
    ensures KernelValid(p, Apply(p, k, WorkerTail(w)))
  {
    TailDoneValid(k.sched, w);
    WorkerStep(p, k, TailDone(k.sched, w), w);
  }

  lemma WorkerStepsValid(p: Policy, k: Kernel, step: Step)
    requires KernelValid(p, k) && Enabled(p, k, step)
    requires step.Take? || step.WaiterWake? || step.WaiterTimeout? || step.ExecutionEnd?
             || step.FailureRequeue? || step.LeaseReturn? || step.WorkerTail?
    ensures KernelValid(p, Apply(p, k, step))
  {
    match step
    case Take(w, token, draw) => TakeNextValid(p, k, w, token, draw);
    case WaiterWake(w, token, draw) =>
      UnparkedUndecided(p, k, w);
      AcquiringValid(p, WithReg(k, Unparked(k.fleet.reg, w)), w, k.sched.workers[w].task,
                     k.fleet.reg.waiters[w].deadline, token, draw);
    case WaiterTimeout(w, draw) =>
      UnparkedUndecided(p, k, w);
      GaveUpValid(p, WithReg(k, Unparked(k.fleet.reg, w)), w, k.sched.workers[w].task, draw);
    case ExecutionEnd(w, o) =>
      var d := k.fleet.reg.issued[k.sched.workers[w].lease].device;
      ExecutionEndValid(p, k, w, o);
      BlamedValid(p, k, d, o);
      FleetStep(p, k.(sched := ExecutionDone(k.sched, w, k.sched.workers[w].task, k.sched.workers[w].lease, o)),
                Blamed(k, d, o));
    case FailureRequeue(w, draw) => FailureRequeueValid(p, k, w, draw);
    case LeaseReturn(w) => LeaseReturnValid(p, k, w);
    case WorkerTail(w) => WorkerTailValid(p, k, w);
  }

  /** The inductive step of every safety claim. */
  lemma ApplyValid(p: Policy, k: Kernel, step: Step)
    requires KernelValid(p, k) && Enabled(p, k, step)
    ensures KernelValid(p, Apply(p, k, step))
  {
    if step.Tick? {
      TickValid(p.health, k.fleet, k.now, step.to);
    } else if step.Refresh? {
      RefreshValid(p, k, step.keys, step.found);
    } else if step.SweepStart? || step.CheckStart? || step.CheckEnd? {
      SweepStepsValid(p, k, step);
    } else if step.RecoveryStart? {
      RecoveryStartValid(p, k, step.d);
    } else if step.ReconnectEnd? {
      ReconnectEndValid(p, k, step.d, step.result);
    } else if step.RecoveryProbeEnd? {
      RecoveryProbeEndValid(p, k, step.d, step.result);
    } else if step.RecoveryWake? {
      RecoveryWakeValid(p, k, step.d);
    } else if step.Submit? {
      SubmitValid(p, k, step.spec);
    } else if step.Stop? || step.DrainCall? || step.DrainReturn? || step.RetryFire? {
      ClientStepsValid(p, k, step);
    } else if step.Start? {
      StartValid(p, k);
    } else {
      WorkerStepsValid(p, k, step);
    }
  }

  /** Every state of every run satisfies every invariant. */
  lemma {:induction false} RunValid(p: Policy, trace: seq<Kernel>, steps: seq<Step>, n: nat)
    requires IsRun(p, trace, steps) && n < |trace|
    ensures KernelValid(p, trace[n])
  {
    if n == 0 {
      InitValid(p, trace[0].now);
    } else {
      RunValid(p, trace, steps, n - 1);
      ApplyValid(p, trace[n - 1], steps[n - 1]);
    }
  }

  /** A run followed by an enabled step is a run. */
  lemma RunGrows(p: Policy, trace: seq<Kernel>, steps: seq<Step>, step: Step, next: Kernel)
    requires IsRun(p, trace, steps) && Enabled(p, trace[|steps|], step) && next == Apply(p, trace[|steps|], step)
    ensures IsRun(p, trace + [next], steps + [step])
  {
    var longer, more := trace + [next], steps + [step];
    forall i | 0 <= i < |more|
      ensures Enabled(p, longer[i], more[i]) && longer[i + 1] == Apply(p, longer[i], more[i])
    {
      if i < |steps| {
        assert longer[i] == trace[i] && longer[i + 1] == trace[i + 1] && more[i] == steps[i];
      }
    }
  }
}
