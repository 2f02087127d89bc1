/** Runs that show what the code does not promise: one worker, one device, a few steps each. */
module Scenarios {
  import opened Tasks
  import opened Devices
  import opened Health
  import opened Scheduler
  import opened Kernel
  import opened KernelProofs
  import opened DeviceTheorems

  // ---------- the cast ----------

  const FIRST := TaskId("first")
  const SECOND := TaskId("second")
  const ANY := DeviceSelector([], [], None)

  function Job(id: TaskId, kind: string): TaskSpec {
    TaskSpec(id, kind, ANY, 1)
  }

  /** A fleet of one device, in this state, nobody using it. */
  function Alone(dev: Device, state: DeviceState): Registry {
    EMPTY_REGISTRY.(devices := map[dev.id := dev.(state := state)], order := [dev.id], born := map[dev.id := dev])
  }

  /** The same with a lease on it. */
  function Leased(dev: Device, state: DeviceState): Registry {
    Alone(dev, state).(leases := map[dev.id := 0], issued := [Lease(dev.id, 0, false)])
  }

  /** One worker, nothing queued and no retry. */
  function Crew(records: map<TaskId, TaskRecord>, worker: Worker, inflight: int): Sched {
    EMPTY_SCHED.(records := records, workers := [worker], inflight := inflight, idle := false, running := true)
  }

  function Running(dev: Device, spec: TaskSpec): TaskRecord {
    TaskRecord(spec, TaskState.Running, [Attempt(1, dev.id, false, None)], None, None)
  }

  ghost predicate Leads(p: Policy, k: Kernel, step: Step, next: Kernel) {
    Enabled(p, k, step) && next == Apply(p, k, step)
  }

  /** The second run is the first one and n more steps, and has come to this state. */
  ghost predicate Prolongs(p: Policy, trace: seq<Kernel>, steps: seq<Step>, trace': seq<Kernel>, steps': seq<Step>,
                          n: nat, at: Kernel)
  {
    IsRun(p, trace', steps') && trace <= trace' && steps <= steps' && |steps'| == |steps| + n
    && trace'[|steps'|] == at
  }

  /** The run goes on. */
  lemma Then(p: Policy, trace: seq<Kernel>, steps: seq<Step>, step: Step, next: Kernel)
    returns (trace': seq<Kernel>, steps': seq<Step>)
    requires IsRun(p, trace, steps) && Leads(p, trace[|steps|], step, next)
    ensures Prolongs(p, trace, steps, trace', steps', 1, next) && steps'[|steps|] == step
  {
    RunGrows(p, trace, steps, step, next);
    trace', steps' := trace + [next], steps + [step];
  }

  // ---------- up to the first attempt ----------

  lemma FirstKey(d: DeviceId)
    ensures NewKeys([d], {}) == [d]
  {
    assert [d][..0] == [];
  }

  lemma Discovered(dev: Device)
    requires dev.state == Online
    ensures IsPoll([dev.id], map[dev.id := dev])
    ensures Reconciled(EMPTY_REGISTRY, [dev.id], map[dev.id := dev]) == Alone(dev, Online)
  {
    var r := Reconciled(EMPTY_REGISTRY, [dev.id], map[dev.id := dev]);
    FirstKey(dev.id);
    assert EMPTY_REGISTRY.devices.Keys == {};
    assert r.order == [dev.id];
    assert r.devices == map[dev.id := dev];
    assert r.born == map[dev.id := dev];
    assert r.waiters == map[];
    assert dev.(state := Online) == dev;
  }

  ghost predicate Staffed(p: Policy, kind: string) {
    PolicyValid(p.health) && p.sched.workers == 1 && kind in p.sched.kinds
  }

  function Idling(reg: Registry): Kernel {
    Kernel(Fleet(reg, EMPTY_MONITOR), EMPTY_SCHED.(workers := [Worker.Idle], running := true), 0.0)
  }

  lemma Opened(p: Policy, dev: Device, kind: string) returns (trace: seq<Kernel>, steps: seq<Step>)
    requires Staffed(p, kind) && dev.state == Online
    ensures IsRun(p, trace, steps) && |steps| == 2 && trace[2] == Idling(Alone(dev, Online))
  {
    var k1 := Init(0.0).(fleet := Fleet(Alone(dev, Online), EMPTY_MONITOR));
    Discovered(dev);
    trace, steps := Then(p, [Init(0.0)], [], Refresh([dev.id], map[dev.id := dev]), k1);
    assert Started(p.sched, EMPTY_SCHED).workers == [Worker.Idle];
    trace, steps := Then(p, trace, steps, Start, Idling(Alone(dev, Online)));
  }

  function Pending(spec: TaskSpec): TaskRecord {
    TaskRecord(spec, TaskState.Pending, [], None, None)
  }

  /** The crew has nothing to do, and the fleet is one device that nobody has. */
  ghost predicate AtRest(k: Kernel, dev: Device) {
    && k.sched.workers == [Worker.Idle] && k.sched.queue == []
    && k.fleet.reg.order == [dev.id] && k.fleet.reg.leases == map[]
    && k.fleet.reg.devices == map[dev.id := dev] && dev.state == Online
  }

  function Queued(s: Sched, spec: TaskSpec): Sched {
    s.(records := s.records[spec.id := Pending(spec)], queue := [Some(spec.id)], idle := false)
  }

  function Employed(s: Sched, dev: Device, spec: TaskSpec, h: nat): Sched {
    s.(records := s.records[spec.id := Running(dev, spec)], workers := [Executing(spec.id, h)],
    inflight := s.inflight + 1, idle := false)
  }

  /** The idle worker takes the task and gets the free device for it. */
  lemma Taken(p: Policy, dev: Device, spec: TaskSpec, k: Kernel)
    requires AtRest(k, dev) && spec.selector == ANY
    ensures Leads(p, k.(sched := Queued(k.sched, spec)), Take(0, 0, 0.0),
                  Kernel(k.fleet.(reg := Grant(k.fleet.reg, dev.id, 0)),
                         Employed(k.sched, dev, spec, |k.fleet.reg.issued|), k.now))
  {
    var queued := k.(sched := Queued(k.sched, spec));
    var r := queued.fleet.reg;
    assert Free(r, dev.id, ANY);
    assert FindFree(r, ANY) == Some(dev.id);
    assert CouldEverMatch(r, ANY);
    var running := Apply(p, queued, Take(0, 0, 0.0));
    assert [] + [Attempt(1, dev.id, false, None)] == [Attempt(1, dev.id, false, None)];
    assert running.sched.records == k.sched.records[spec.id := Running(dev, spec)];
    assert running.sched.workers == [Executing(spec.id, |k.fleet.reg.issued|)];
  }

  lemma Granted(p: Policy, trace: seq<Kernel>, steps: seq<Step>, dev: Device, spec: TaskSpec)
    returns (trace': seq<Kernel>, steps': seq<Step>)
    requires IsRun(p, trace, steps) && AtRest(trace[|steps|], dev)
    requires spec.selector == ANY && spec.kind in p.sched.kinds && spec.id !in trace[|steps|].sched.records
    ensures
      var k := trace[|steps|];
      Prolongs(p, trace, steps, trace', steps', 2,
              Kernel(k.fleet.(reg := Grant(k.fleet.reg, dev.id, 0)),
                     Employed(k.sched, dev, spec, |k.fleet.reg.issued|), k.now))
      && trace'[|steps| + 1].fleet == k.fleet
  {
    var k := trace[|steps|];
    assert [] + [Some(spec.id)] == [Some(spec.id)];
    trace', steps' := Then(p, trace, steps, Submit(spec), k.(sched := Queued(k.sched, spec)));
    Taken(p, dev, spec, k);
    trace', steps' := Then(p, trace', steps', Take(0, 0, 0.0),
                           Kernel(k.fleet.(reg := Grant(k.fleet.reg, dev.id, 0)),
                                  Employed(k.sched, dev, spec, |k.fleet.reg.issued|), k.now));
  }

  /** The worker executes the first task on the device. */
  function Busy(dev: Device, state: DeviceState, kind: string, mon: Monitor): Kernel {
    Kernel(Fleet(Leased(dev, state), mon), Crew(map[FIRST := Running(dev, Job(FIRST, kind))], Executing(FIRST, 0), 1),
           0.0)
  }

  lemma Begun(p: Policy, dev: Device, kind: string) returns (trace: seq<Kernel>, steps: seq<Step>)
    requires Staffed(p, kind) && dev.state == Online
    ensures IsRun(p, trace, steps) && |steps| == 4 && trace[4] == Busy(dev, Online, kind, EMPTY_MONITOR)
  {
    trace, steps := Opened(p, dev, kind);
    assert dev.(state := Online) == dev;
    trace, steps := Granted(p, trace, steps, dev, Job(FIRST, kind));
  }

  // ---------- a failed attempt ----------

  const CRASHED := Outcome.Crashed("crashed")

  /** The record of the first task when its only attempt has failed. */
  function Spent(dev: Device, kind: string, state: TaskState, error: Option<string>): TaskRecord {
    TaskRecord(Job(FIRST, kind), state, [Attempt(1, dev.id, true, Some("crashed"))], None, error)
  }

  /** The worker on its way out of the failed attempt, whatever became of the device. */
  function Out(dev: Device, kind: string, fleet: Fleet, worker: Worker): Kernel {
    var rec := if worker.Failing? then Spent(dev, kind, TaskState.Running, None)
               else Spent(dev, kind, TaskState.Failed, Some("crashed"));
    Kernel(fleet, Crew(map[FIRST := rec], worker, 1), 0.0)
  }

  lemma Failed(p: Policy, dev: Device, state: DeviceState, kind: string, mon: Monitor)
    ensures
      var k := Busy(dev, state, kind, mon);
      Leads(p, k, ExecutionEnd(0, CRASHED), Out(dev, kind, Blamed(k, dev.id, CRASHED), Failing(FIRST, 0, "crashed")))
  {
    var next := Apply(p, Busy(dev, state, kind, mon), ExecutionEnd(0, CRASHED));
    assert next.sched.workers == [Failing(FIRST, 0, "crashed")];
    assert next.sched.records[FIRST].attempts == [Attempt(1, dev.id, true, Some("crashed"))];
    assert next.sched.records == map[FIRST := Spent(dev, kind, TaskState.Running, None)];
  }

  lemma GivenUp(p: Policy, dev: Device, kind: string, fleet: Fleet)
    ensures Leads(p, Out(dev, kind, fleet, Failing(FIRST, 0, "crashed")), FailureRequeue(0, 0.0),
                  Out(dev, kind, fleet, Releasing(FIRST, 0)))
  {
    var next := Apply(p, Out(dev, kind, fleet, Failing(FIRST, 0, "crashed")), FailureRequeue(0, 0.0));
    assert next.sched.workers == [Releasing(FIRST, 0)];
    assert next.sched.records == map[FIRST := Spent(dev, kind, TaskState.Failed, Some("crashed"))];
  }

  /** The target fails, the device is blamed, and the task is given up. */
  lemma Crash(p: Policy, trace: seq<Kernel>, steps: seq<Step>, dev: Device, state: DeviceState, kind: string,
      mon: Monitor, fleet: Fleet)
    returns (trace': seq<Kernel>, steps': seq<Step>)
    requires IsRun(p, trace, steps) && trace[|steps|] == Busy(dev, state, kind, mon)
    requires fleet == Blamed(Busy(dev, state, kind, mon), dev.id, CRASHED)
    ensures Prolongs(p, trace, steps, trace', steps', 2, Out(dev, kind, fleet, Releasing(FIRST, 0)))
    ensures steps'[|steps|] == ExecutionEnd(0, CRASHED)
  {
    Failed(p, dev, state, kind, mon);
    trace', steps' := Then(p, trace, steps, ExecutionEnd(0, CRASHED),
                           Out(dev, kind, fleet, Failing(FIRST, 0, "crashed")));
    GivenUp(p, dev, kind, fleet);
    trace', steps' := Then(p, trace', steps', FailureRequeue(0, 0.0), Out(dev, kind, fleet, Releasing(FIRST, 0)));
  }

  /** The lease that was given back. */
  function Returned(dev: Device, state: DeviceState): Registry {
    Alone(dev, state).(issued := [Lease(dev.id, 0, true)])
  }

  lemma GivenBack(p: Policy, trace: seq<Kernel>, steps: seq<Step>, dev: Device, kind: string, state: DeviceState,
      mon: Monitor)
    returns (trace': seq<Kernel>, steps': seq<Step>)
    requires IsRun(p, trace, steps)
    requires trace[|steps|] == Out(dev, kind, Fleet(Leased(dev, state), mon), Releasing(FIRST, 0))
    ensures Prolongs(p, trace, steps, trace', steps', 1, Out(dev, kind, Fleet(Returned(dev, state), mon), Tail(FIRST)))
  {
    var next := Apply(p, trace[|steps|], LeaseReturn(0));
    assert next.sched.workers == [Tail(FIRST)];
    assert next.fleet.reg.leases == map[];
    assert next.fleet.reg.issued == [Lease(dev.id, 0, true)];
    assert next.fleet.reg.waiters == map[];
    trace', steps' := Then(p, trace, steps, LeaseReturn(0), next);
  }

  lemma Rested(p: Policy, trace: seq<Kernel>, steps: seq<Step>, dev: Device, kind: string, fleet: Fleet)
    returns (trace': seq<Kernel>, steps': seq<Step>, at: Kernel)
    requires IsRun(p, trace, steps) && trace[|steps|] == Out(dev, kind, fleet, Tail(FIRST))
    ensures Prolongs(p, trace, steps, trace', steps', 1, at) && at.fleet == fleet
    ensures at.sched.workers == [Worker.Idle] && at.sched.queue == [] && at.sched.records.Keys == {FIRST}
  {
    at := Apply(p, trace[|steps|], WorkerTail(0));
    assert at.sched.workers == [Worker.Idle];
    trace', steps' := Then(p, trace, steps, WorkerTail(0), at);
  }

  // ---------- a device that escapes its blame ----------

  lemma Polled(p: Policy, trace: seq<Kernel>, steps: seq<Step>, dev: Device, state: DeviceState, found: DeviceState,
      mon: Monitor)
    returns (trace': seq<Kernel>, steps': seq<Step>)
    requires IsRun(p, trace, steps) && trace[|steps|].fleet == Fleet(Leased(dev, state), mon)
    requires !Pulled(state) && !Pulled(found)
    ensures Prolongs(p, trace, steps, trace', steps', 1, trace[|steps|].(fleet := Fleet(Leased(dev, found), mon)))
  {
    var k, poll := trace[|steps|], map[dev.id := dev.(state := found)];
    var r := Reconciled(k.fleet.reg, [dev.id], poll);
    assert [dev.id][..0] == [];
    assert k.fleet.reg.devices.Keys == {dev.id} && NewKeys([dev.id], {dev.id}) == [];
    assert r.order == [dev.id];
    assert r.devices == map[dev.id := dev.(state := found)];
    assert r.born == map[dev.id := dev];
    assert r.waiters == map[];
    trace', steps' := Then(p, trace, steps, Refresh([dev.id], poll), k.(fleet := Fleet(Leased(dev, found), mon)));
  }

  /** Up to a blamed failure on a device that a poll has found offline, and the next poll. */
  lemma BlamedOffline(p: Policy, dev: Device, kind: string) returns (trace: seq<Kernel>, steps: seq<Step>)
    requires Staffed(p, kind) && dev.state == Online
    ensures IsRun(p, trace, steps) && |steps| == 8
    ensures steps[5] == ExecutionEnd(0, CRASHED) && trace[5] == Busy(dev, Offline, kind, EMPTY_MONITOR)
    ensures trace[8] == Out(dev, kind, Fleet(Leased(dev, Online), EMPTY_MONITOR), Releasing(FIRST, 0))
  {
    trace, steps := Begun(p, dev, kind);
    trace, steps := Polled(p, trace, steps, dev, Online, Offline, EMPTY_MONITOR);
    trace, steps := Crash(p, trace, steps, dev, Offline, kind, EMPTY_MONITOR,
                          Fleet(Leased(dev, Offline), EMPTY_MONITOR));
    trace, steps := Polled(p, trace, steps, dev, Offline, Online, EMPTY_MONITOR);
  }

  /** A blamed device that a poll had found offline while the task ran is not quarantined: the
      next poll finds it well and it is leased again, with nothing at all published of it. */
  lemma OfflineEscapesBlame(p: Policy, dev: Device, kind: string) returns (trace: seq<Kernel>, steps: seq<Step>)
    requires Staffed(p, kind) && dev.state == Online
    ensures IsRun(p, trace, steps) && |steps| == 12
    ensures steps[5] == ExecutionEnd(0, CRASHED) && IsFailure(CRASHED) && Blames(CRASHED)
    ensures Enabled(p, trace[5], steps[5]) && DeviceOf(trace[5], 0) == dev.id
    ensures dev.id in trace[5].fleet.reg.devices && StateOf(trace[5].fleet, dev.id) == Offline
    ensures Grants(trace[11], trace[12], dev.id) && trace[12].fleet.mon.log == []
  {
    trace, steps := BlamedOffline(p, dev, kind);
    trace, steps := GivenBack(p, trace, steps, dev, kind, Online, EMPTY_MONITOR);
    var rest: Kernel;
    trace, steps, rest := Rested(p, trace, steps, dev, kind, Fleet(Returned(dev, Online), EMPTY_MONITOR));
    assert dev.(state := Online) == dev;
    trace, steps := Granted(p, trace, steps, dev, Job(SECOND, kind));
  }

  // ---------- a recovery that speaks unasked ----------

  /** The monitor after a sweep has begun and the device has been quarantined for the crash. */
  function Alerted(d: DeviceId, sweep: map<DeviceId, Check>): Monitor {
    Monitor(map[], map[d := Spawned], sweep, [Event(0.0, d, DeviceQuarantined)])
  }

  /** The monitor after the device has answered the probe of that sweep. */
  function Answered(d: DeviceId): Monitor {
    Monitor(map[d := HEALTHY], map[d := Spawned], map[],
            [Event(0.0, d, DeviceQuarantined), Event(0.0, d, DeviceRestored(ProbeRecovered))])
  }

  lemma Swept(p: Policy, trace: seq<Kernel>, steps: seq<Step>, dev: Device, kind: string)
    returns (trace': seq<Kernel>, steps': seq<Step>)
    requires IsRun(p, trace, steps) && trace[|steps|] == Busy(dev, Online, kind, EMPTY_MONITOR)
    ensures Prolongs(p, trace, steps, trace', steps', 1,
                    Busy(dev, Online, kind, EMPTY_MONITOR.(sweep := map[dev.id := Due])))
  {
    var next := Apply(p, trace[|steps|], SweepStart);
    assert next.fleet.mon.sweep == map[dev.id := Due];
    trace', steps' := Then(p, trace, steps, SweepStart, next);
  }

  lemma CrashPulls(dev: Device, kind: string, sweep: map<DeviceId, Check>)
    ensures Blamed(Busy(dev, Online, kind, EMPTY_MONITOR.(sweep := sweep)), dev.id, CRASHED)
            == Fleet(Leased(dev, Quarantined), Alerted(dev.id, sweep))
  {
    var fleet := Fleet(Leased(dev, Online), EMPTY_MONITOR.(sweep := sweep));
    var r := StateForced(fleet.reg, dev.id, Quarantined);
    assert r.devices == map[dev.id := dev.(state := Quarantined)];
    assert r.waiters == map[];
    assert Quarantine(fleet, dev.id, 0.0).mon.log == [Event(0.0, dev.id, DeviceQuarantined)];
  }

  lemma Probed(p: Policy, trace: seq<Kernel>, steps: seq<Step>, dev: Device, kind: string)
    returns (trace': seq<Kernel>, steps': seq<Step>)
    requires IsRun(p, trace, steps)
    requires trace[|steps|] == Out(dev, kind, Fleet(Returned(dev, Quarantined), Alerted(dev.id, map[dev.id := Due])),
                                   Tail(FIRST))
    ensures Prolongs(p, trace, steps, trace', steps', 1,
                    Out(dev, kind, Fleet(Returned(dev, Quarantined), Alerted(dev.id, map[dev.id := CheckProbing])),
                        Tail(FIRST)))
  {
    var next := Apply(p, trace[|steps|], CheckStart(dev.id));
    assert next.fleet.mon.sweep == map[dev.id := CheckProbing];
    trace', steps' := Then(p, trace, steps, CheckStart(dev.id), next);
  }

  lemma Recognised(p: Policy, trace: seq<Kernel>, steps: seq<Step>, dev: Device, kind: string)
    returns (trace': seq<Kernel>, steps': seq<Step>)
    requires IsRun(p, trace, steps)
    requires trace[|steps|] == Out(dev, kind, Fleet(Returned(dev, Quarantined),
                                                    Alerted(dev.id, map[dev.id := CheckProbing])), Tail(FIRST))
    ensures Prolongs(p, trace, steps, trace', steps', 1,
                    Out(dev, kind, Fleet(Returned(dev, Online), Answered(dev.id)), Tail(FIRST)))
  {
    var next := Apply(p, trace[|steps|], CheckEnd(dev.id, Alive));
    assert next.fleet.reg.devices == map[dev.id := dev.(state := Online)];
    assert next.fleet.reg.waiters == map[];
    assert next.fleet.mon.sweep == map[];
    assert next.fleet.mon.health == map[dev.id := HEALTHY];
    assert next.fleet.mon.log == Answered(dev.id).log;
    trace', steps' := Then(p, trace, steps, CheckEnd(dev.id, Alive), next);
  }

  /** While the sweep waits for its turn a worker quarantines the device and gives it back. The
      check, which comes before the recovery just spawned, finds the device well and restores it. */
  lemma AnsweredFirst(p: Policy, dev: Device, kind: string) returns (trace: seq<Kernel>, steps: seq<Step>)
    requires Staffed(p, kind) && dev.state == Online
    ensures IsRun(p, trace, steps) && |steps| == 10
    ensures trace[10] == Out(dev, kind, Fleet(Returned(dev, Online), Answered(dev.id)), Tail(FIRST))
  {
    var sweep := map[dev.id := Due];
    trace, steps := Begun(p, dev, kind);
    trace, steps := Swept(p, trace, steps, dev, kind);
    CrashPulls(dev, kind, sweep);
    trace, steps := Crash(p, trace, steps, dev, Online, kind, EMPTY_MONITOR.(sweep := sweep),
                          Fleet(Leased(dev, Quarantined), Alerted(dev.id, sweep)));
    trace, steps := GivenBack(p, trace, steps, dev, kind, Quarantined, Alerted(dev.id, sweep));
    trace, steps := Probed(p, trace, steps, dev, kind);
    trace, steps := Recognised(p, trace, steps, dev, kind);
  }

  /** A virtual slot that is back ONLINE is published as restored a second time by the recovery
      that was spawned before. */
  lemma LateRecoverySpeaks(p: Policy, dev: Device, kind: string) returns (trace: seq<Kernel>, steps: seq<Step>)
    requires Staffed(p, kind) && dev.state == Online && dev.transport !in ADB_TRANSPORTS && p.health.retireAfter >= 1
    ensures IsRun(p, trace, steps) && |steps| == 11 && steps[10] == RecoveryStart(dev.id)
    ensures dev.id in trace[10].fleet.reg.devices && StateOf(trace[10].fleet, dev.id) == Online
    ensures trace[11].fleet.mon.log == trace[10].fleet.mon.log + [Event(0.0, dev.id, DeviceRestored(VirtualSlot))]
  {
    trace, steps := AnsweredFirst(p, dev, kind);
    var next := Apply(p, trace[10], RecoveryStart(dev.id));
    trace, steps := Then(p, trace, steps, RecoveryStart(dev.id), next);
  }

  // ---------- a flag that stays down ----------

  /** A fleet without devices, the worker idle or at its tail. */
  function Deserted(record: TaskRecord, queue: seq<Option<TaskId>>, worker: Worker): Kernel {
    Kernel(Fleet(EMPTY_REGISTRY, EMPTY_MONITOR),
           Crew(map[FIRST := record], worker, if worker.Tail? then 1 else 0).(queue := queue, running := false), 0.0)
  }

  lemma StoppedEarly(p: Policy, kind: string) returns (trace: seq<Kernel>, steps: seq<Step>)
    requires Staffed(p, kind)
    ensures IsRun(p, trace, steps) && |steps| == 3 && steps[2] == Stop
    ensures trace[3] == Deserted(Pending(Job(FIRST, kind)), [Some(FIRST), None], Worker.Idle)
  {
    trace, steps := Then(p, [Init(0.0)], [], Start, Apply(p, Init(0.0), Start));
    assert Started(p.sched, EMPTY_SCHED).workers == [Worker.Idle];
    trace, steps := Then(p, trace, steps, Submit(Job(FIRST, kind)), Apply(p, trace[1], Submit(Job(FIRST, kind))));
    assert trace[2].sched.queue == [Some(FIRST)];
    var stopped := Apply(p, trace[2], Stop);
    assert stopped.sched.queue == [Some(FIRST), None];
    trace, steps := Then(p, trace, steps, Stop, stopped);
  }

  lemma AbandonedFirst(p: Policy, kind: string) returns (trace: seq<Kernel>, steps: seq<Step>)
    requires Staffed(p, kind)
    ensures IsRun(p, trace, steps) && |steps| == 5 && steps[2] == Stop
    ensures trace[5].sched.queue == [None] && trace[5].sched.workers == [Worker.Idle] && !trace[5].sched.idle
    ensures trace[5].sched.inflight == 0 && trace[5].sched.pendingRetries == 0
  {
    trace, steps := StoppedEarly(p, kind);
    var record := Pending(Job(FIRST, kind));
    var abandoned := Deserted(record.(state := Abandoned, error := Some(NO_DEVICE)), [None], Tail(FIRST));
    var taken := Apply(p, trace[3], Take(0, 0, 0.0));
    assert taken.sched.workers == [Tail(FIRST)];
    assert taken.sched.records == abandoned.sched.records;
    trace, steps := Then(p, trace, steps, Take(0, 0, 0.0), abandoned);
    var tail := Apply(p, abandoned, WorkerTail(0));
    assert tail.sched.workers == [Worker.Idle];
    trace, steps := Then(p, trace, steps, WorkerTail(0), tail);
  }

  /** With `stop` called before the worker has taken its task, the pill is taken last: nothing is
      queued, running or waiting to retry, and the flag is down. */
  lemma StopCanSilenceIdle(p: Policy, kind: string) returns (trace: seq<Kernel>, steps: seq<Step>)
    requires Staffed(p, kind)
    ensures IsRun(p, trace, steps) && |steps| == 6 && steps[2] == Stop
    ensures Quiet(trace[6].sched) && !trace[6].sched.idle
  {
    trace, steps := AbandonedFirst(p, kind);
    var pill := Take(0, 0, 0.0);
    trace, steps := Then(p, trace, steps, pill, Apply(p, trace[5], pill));
  }
}
