/** What every run promises about leases and those who wait for them. */
module LeaseTheorems {
  import opened Tasks
  import opened Devices
  import opened Scheduler
  import opened Books
  import opened Kernel
  import opened KernelProofs
  import opened TaskTheorems
  import opened DeviceTheorems

  // ---------- exclusivity ----------

  /** In every state of every run: two workers that hold leases are on different devices,
      every unreleased lease is the one in the table and has a worker that will return it,
      and the table holds nothing else. */
  lemma LeasesAreExclusive(p: Policy, trace: seq<Kernel>, steps: seq<Step>, n: nat)
    requires IsRun(p, trace, steps) && n < |trace|
    ensures
      var r, s := trace[n].fleet.reg, trace[n].sched;
      && (forall v: nat, w: nat, g: nat, h: nat | Holds(s, v, g) && Holds(s, w, h) && v != w ::
            g < |r.issued| && h < |r.issued| && r.issued[g].device != r.issued[h].device)
      && (forall h: nat | h < |r.issued| && !r.issued[h].released ::
            && r.issued[h].device in r.leases && r.leases[r.issued[h].device] == h
            && exists w: nat :: Holds(s, w, h))
      && (forall d | d in r.leases :: r.leases[d] < |r.issued| && !r.issued[r.leases[d]].released)
  {
    RunValid(p, trace, steps, n);
    var r, s := trace[n].fleet.reg, trace[n].sched;
    forall v: nat, w: nat, g: nat, h: nat | Holds(s, v, g) && Holds(s, w, h) && v != w
      ensures g < |r.issued| && h < |r.issued| && r.issued[g].device != r.issued[h].device
    {
      HoldersApart(r, s, v, w, g, h);
    }
  }

  /** Whatever the tokens, a worker's release finds its own lease in the table, frees that
      device and no other, wakes every waiter, and does nothing the second time. */
  lemma ReleaseIsExact(p: Policy, trace: seq<Kernel>, steps: seq<Step>, n: nat, w: nat)
    requires IsRun(p, trace, steps) && n < |steps| && steps[n] == LeaseReturn(w)
    ensures
      var r, r' := trace[n].fleet.reg, trace[n + 1].fleet.reg;
      w < |trace[n].sched.workers| && trace[n].sched.workers[w].Releasing?
      && var h := trace[n].sched.workers[w].lease;
      && h < |r.issued| && !r.issued[h].released && r.issued[h].device in r.leases
      && r'.leases == r.leases - {r.issued[h].device}
      && r'.issued == r.issued[h := r.issued[h].(released := true)]
      && (forall v | v in r'.waiters :: r'.waiters[v].notified)
      && Released(r', h) == r'
  {
    RunValid(p, trace, steps, n);
    var k := trace[n];
    assert Enabled(p, k, LeaseReturn(w));
    LeaseReturnBooks(k.fleet.reg, k.sched, w);
    ReleaseFindsItsOwnLease(k.fleet.reg, k.sched.workers[w].lease);
    ReleasedValid(k.fleet.reg, k.sched.workers[w].lease);
  }

  // ---------- wakeups ----------

  /** In every state of every run a worker that sleeps on the condition and has not been
      notified has nothing to take; and who waits for a device is parked, with the selector
      of its task. */
  lemma NoWakeupIsLost(p: Policy, trace: seq<Kernel>, steps: seq<Step>, n: nat, w: nat, d: DeviceId)
    requires IsRun(p, trace, steps) && n < |trace|
    requires w < |trace[n].sched.workers| && trace[n].sched.workers[w].Acquiring?
    ensures
      var r, s := trace[n].fleet.reg, trace[n].sched;
      w in r.waiters && s.workers[w].task in s.records
      && r.waiters[w].selector == s.records[s.workers[w].task].spec.selector
      && (!r.waiters[w].notified ==> FindFree(r, r.waiters[w].selector) == None && !Free(r, d, r.waiters[w].selector))
  {
    RunValid(p, trace, steps, n);
    var r := trace[n].fleet.reg;
    assert Parks(r, trace[n].sched, w);
    if !r.waiters[w].notified && d in r.devices {
      assert d in r.order;
    }
  }

  // ---------- abandonment ----------

  ghost predicate Hopeless(r: Registry, sel: DeviceSelector) {
    forall d | d in r.devices && Matches(r.devices[d], sel) :: r.devices[d].state == Retired
  }

  lemma NotAbandonedByAcquire(p: Policy, k: Kernel, w: nat, id: TaskId, deadline: Option<real>, token: nat,
      draw: real, x: TaskId)
    requires w < |k.sched.workers| && id in k.sched.records && x in k.sched.records
    requires k.sched.records[x].state != Abandoned
    ensures
      var s' := AcquireFor(p, k, w, id, deadline, token, draw).sched;
      x in s'.records && s'.records[x].state != Abandoned
  {
  }

  lemma OnlyTakeAbandons(p: Policy, k: Kernel, step: Step, id: TaskId)
    requires Enabled(p, k, step) && !step.Take? && id in k.sched.records && k.sched.records[id].state != Abandoned
    ensures id in Apply(p, k, step).sched.records ==> Apply(p, k, step).sched.records[id].state != Abandoned
  {
    if MonitorStep(step) {
      MonitorStepSched(p, k, step);
    } else if step.WaiterWake? {
      NotAbandonedByAcquire(p, WithReg(k, Unparked(k.fleet.reg, step.w)), step.w, k.sched.workers[step.w].task,
                            k.fleet.reg.waiters[step.w].deadline, step.token, step.draw, id);
    }
  }

  /** A task is abandoned only if every device that matches it is retired. */
  lemma AbandonedOnlyIfHopeless(p: Policy, k: Kernel, step: Step, id: TaskId)
    requires Enabled(p, k, step) && id in k.sched.records && k.sched.records[id].state != Abandoned
    requires id in Apply(p, k, step).sched.records && Apply(p, k, step).sched.records[id].state == Abandoned
    ensures Hopeless(k.fleet.reg, k.sched.records[id].spec.selector)
  {
    if !step.Take? {
      OnlyTakeAbandons(p, k, step, id);
    } else if k.sched.queue[0].Some? {
      var head := k.sched.queue[0].value;
      var taken := k.(sched := Dequeued(k.sched, step.w));
      if !Skippable(taken.sched, head) && CouldEverMatch(k.fleet.reg, k.sched.records[head].spec.selector) {
        NotAbandonedByAcquire(p, taken, step.w, head, Deadline(p, k.now), step.token, step.draw, id);
      }
    }
  }

  lemma HopelessStays(p: Policy, k: Kernel, step: Step, sel: DeviceSelector)
    requires KernelValid(p, k) && Enabled(p, k, step) && !step.Refresh? && Hopeless(k.fleet.reg, sel)
    ensures Hopeless(Apply(p, k, step).fleet.reg, sel)
  {
    var r, r' := k.fleet.reg, Apply(p, k, step).fleet.reg;
    InventoryKept(p, k, step);
    forall d | d in r'.devices && Matches(r'.devices[d], sel) ensures r'.devices[d].state == Retired {
      assert r'.devices[d].(state := Online, recoveries := 0) == r.devices[d].(state := Online, recoveries := 0);
      assert Matches(r.devices[d], sel);
      RetiredStays(p, k, step, d);
    }
  }

  lemma {:induction false} RunStaysHopeless(p: Policy, trace: seq<Kernel>, steps: seq<Step>, m: nat, n: nat,
      sel: DeviceSelector)
    requires IsRun(p, trace, steps) && m <= n < |trace| && Hopeless(trace[m].fleet.reg, sel)
    requires forall i | m <= i < n :: !steps[i].Refresh?
    ensures Hopeless(trace[n].fleet.reg, sel)
  {
    if m < n {
      RunStaysHopeless(p, trace, steps, m, n - 1, sel);
      RunValid(p, trace, steps, n - 1);
      HopelessStays(p, trace[n - 1], steps[n - 1], sel);
    }
  }

  /** Abandoning is sound: the step that abandons a task finds it unschedulable, and as long
      as no poll brings news no later step could have leased a device that matches it. */
  lemma AbandonmentIsSound(p: Policy, trace: seq<Kernel>, steps: seq<Step>, m: nat, n: nat, id: TaskId, d: DeviceId)
    requires IsRun(p, trace, steps) && m <= n < |steps| && id in trace[m].sched.records
    requires trace[m].sched.records[id].state != Abandoned
    requires id in trace[m + 1].sched.records && trace[m + 1].sched.records[id].state == Abandoned
    requires forall i | m <= i < n :: !steps[i].Refresh?
    requires Grants(trace[n], trace[n + 1], d)
    ensures d in trace[n].fleet.reg.devices
    ensures !Matches(trace[n].fleet.reg.devices[d], trace[m].sched.records[id].spec.selector)
  {
    RunValid(p, trace, steps, m);
    AbandonedOnlyIfHopeless(p, trace[m], steps[m], id);
    RunStaysHopeless(p, trace, steps, m, n, trace[m].sched.records[id].spec.selector);
    GrantsOnlyOnline(p, trace[n], steps[n], d);
  }
}
