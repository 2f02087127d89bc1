/** Queue in, leases out, retries in the middle: the scheduler's own state. */
module Scheduler {
  import opened Counting
  import opened Tasks

  datatype SchedulerPolicy = SchedulerPolicy(
    workers: nat,
    leaseTimeout: Option<real>,
    retryBase: real,
    retryMax: real,
    retryJitter: real,
    kinds: set<string>)

  /** Where a worker coroutine is suspended, with the locals it still needs. `lease` is a
      lease handle. A worker owns its task up to `_finish` or the requeue, so in
      `Releasing` and `Tail`, its `finally` blocks, it owns nothing. */
  datatype Worker =
    | Idle
    | Acquiring(task: TaskId)
    | Executing(task: TaskId, lease: nat)
    | Failing(task: TaskId, lease: nat, reason: string)
    | Releasing(task: TaskId, lease: nat)
    | Tail(task: TaskId)
    | Stopped

  datatype Retry = Retry(task: TaskId, due: real)

  /** A caller suspended in `drain`, and the records that existed when it called. */
  datatype Drain = Drain(asked: set<TaskId>, woken: bool)

  /** A queue entry is a task id, or None, the poison pill. */
  datatype Sched = Sched(
    records: map<TaskId, TaskRecord>,
    queue: seq<Option<TaskId>>,
    workers: seq<Worker>,
    retries: seq<Retry>,
    inflight: int,
    pendingRetries: int,
    idle: bool,
    running: bool,
    drains: map<nat, Drain>)

  const EMPTY_SCHED := Sched(map[], [], [], [], 0, 0, true, false, map[])

  const NO_DEVICE := "no device in the fleet matches this selector"
  const NO_LEASE := "no device available"

  predicate HasLease(w: Worker) {
    w.Executing? || w.Failing? || w.Releasing?
  }

  function Settled(s: Sched): Sched {
    if s.queue == [] && s.inflight == 0 && s.pendingRetries == 0 && !s.idle then
      s.(idle := true, drains := map k | k in s.drains :: s.drains[k].(woken := true))
    else s
  }

  function Submitted(p: SchedulerPolicy, s: Sched, spec: TaskSpec): Sched {
    if spec.kind !in p.kinds then
      s.(records := s.records[spec.id :=
           TaskRecord(spec, Rejected, [], None, Some("no target registered for kind=" + spec.kind))])
    else
      s.(records := s.records[spec.id := TaskRecord(spec, Pending, [], None, None)],
      idle := false,
      queue := s.queue + [Some(spec.id)])
  }

  function Started(p: SchedulerPolicy, s: Sched): Sched {
    if s.running then s
    else s.(running := true, workers := s.workers + seq(p.workers, _ => Idle))
  }

  /** One pill per worker; the workers are awaited, which is not a step of this coroutine. */
  function StopAsked(s: Sched): Sched {
    if !s.running then s
    else s.(running := false, queue := s.queue + seq(|s.workers|, _ => None))
  }

  function DrainBegun(s: Sched, k: nat): Sched {
    s.(drains := s.drains[k := Drain(s.records.Keys, s.idle)])
  }

  function DrainOver(s: Sched, k: nat): Sched {
    s.(drains := s.drains - {k})
  }

  function At(s: Sched, w: nat, phase: Worker): Sched
    requires w < |s.workers|
  {
    s.(workers := s.workers[w := phase])
  }

  function Dequeued(s: Sched, w: nat): Sched
    requires w < |s.workers| && s.queue != []
  {
    match s.queue[0]
    case None => At(s, w, Stopped).(queue := s.queue[1..])
    case Some(id) => At(s, w, Acquiring(id)).(queue := s.queue[1..], inflight := s.inflight + 1)
  }

  /** The worker's guard, which looks only for these two states. */
  predicate Skippable(s: Sched, id: TaskId) {
    id !in s.records || s.records[id].state in {Succeeded, Rejected}
  }

  function Skipped(s: Sched, w: nat, id: TaskId): Sched
    requires w < |s.workers|
  {
    At(s, w, Tail(id))
  }

  function Finished(s: Sched, id: TaskId, state: TaskState, result: Option<string>, error: Option<string>): Sched
    requires id in s.records
  {
    s.(records := s.records[id := s.records[id].(state := state, result := result, error := error)])
  }

  function AbandonedAt(s: Sched, w: nat, id: TaskId): Sched
    requires w < |s.workers| && id in s.records
  {
    At(Finished(s, id, Abandoned, None, Some(NO_DEVICE)), w, Tail(id))
  }

  /** A lease was granted: the attempt is recorded and the target starts. */
  function AttemptStarted(s: Sched, w: nat, id: TaskId, handle: nat, device: DeviceId): Sched
    requires w < |s.workers| && id in s.records
  {
    var rec := s.records[id];
    var attempt := Attempt(|rec.attempts| + 1, device, false, None);
    At(s, w, Executing(id, handle)).(
    records := s.records[id := rec.(state := Running, attempts := rec.attempts + [attempt])])
  }

  function BackoffRaw(p: SchedulerPolicy, attempt: nat): real {
    var grown := Doubled(p.retryBase, attempt);
    if grown < p.retryMax then grown else p.retryMax
  }

  function JitterRange(raw: real, jitter: real): real {
    raw * jitter
  }

  /** `draw` is the jitter drawn from +/- raw * retryJitter. */
  function Backoff(p: SchedulerPolicy, attempt: nat, draw: real): real {
    var jittered := BackoffRaw(p, attempt) + draw;
    if jittered < 0.1 then 0.1 else jittered
  }

  /** The failed task either spends its last attempt or goes to sleep until its retry. */
  function Requeued(p: SchedulerPolicy, s: Sched, id: TaskId, reason: string, now: real, draw: real): Sched
    requires id in s.records
  {
    var rec := s.records[id];
    if |rec.attempts| >= rec.spec.maxAttempts then Finished(s, id, Failed, None, Some(reason))
    else
      s.(records := s.records[id := rec.(state := Pending)],
      pendingRetries := s.pendingRetries + 1,
      idle := false,
      retries := s.retries + [Retry(id, now + Backoff(p, |rec.attempts|, draw))])
  }

  /** `acquire` returned None. */
  function LeaseTimedOut(p: SchedulerPolicy, s: Sched, w: nat, id: TaskId, now: real, draw: real): Sched
    requires w < |s.workers| && id in s.records
  {
    At(Requeued(p, s, id, NO_LEASE, now, draw), w, Tail(id))
  }

  function OutcomeError(o: Outcome): Option<string> {
    if o.Success? then None else Some(o.reason)
  }

  function AttemptEnded(rec: TaskRecord, o: Outcome): TaskRecord {
    if rec.attempts == [] then rec
    else
      var n := |rec.attempts| - 1;
      rec.(attempts := rec.attempts[n := rec.attempts[n].(ended := true, error := OutcomeError(o))])
  }

  /** The target returned or raised. */
  function ExecutionDone(s: Sched, w: nat, id: TaskId, handle: nat, o: Outcome): Sched
    requires w < |s.workers| && id in s.records
  {
    var ended := s.(records := s.records[id := AttemptEnded(s.records[id], o)]);
    match o
    case Success(result) => At(Finished(ended, id, Succeeded, Some(result), None), w, Releasing(id, handle))
    case Fatal(reason) => At(Finished(ended, id, Rejected, None, Some(reason)), w, Releasing(id, handle))
    case _ => At(ended, w, Failing(id, handle, o.reason))
  }

  function FailureRequeued(p: SchedulerPolicy, s: Sched, w: nat, now: real, draw: real): Sched
    requires w < |s.workers| && s.workers[w].Failing? && s.workers[w].task in s.records
  {
    var ph := s.workers[w];
    At(Requeued(p, s, ph.task, ph.reason, now, draw), w, Releasing(ph.task, ph.lease))
  }

  function LeaseReturned(s: Sched, w: nat): Sched
    requires w < |s.workers| && s.workers[w].Releasing?
  {
    At(s, w, Tail(s.workers[w].task))
  }

  function TailDone(s: Sched, w: nat): Sched
    requires w < |s.workers|
  {
    Settled(At(s, w, Idle).(inflight := s.inflight - 1))
  }

  function RetryFired(s: Sched, i: nat): Sched
    requires i < |s.retries|
  {
    Settled(s.(
            queue := s.queue + [Some(s.retries[i].task)],
            retries := s.retries[..i] + s.retries[i + 1..],
            pendingRetries := s.pendingRetries - 1))
  }

  // ---------- ownership ----------

  predicate Owning(w: Worker) {
    w.Acquiring? || w.Executing? || w.Failing?
  }

  predicate Owns(w: Worker, id: TaskId) {
    Owning(w) && w.task == id
  }

  function OwnerOf(id: TaskId): Worker -> bool {
    (w: Worker) => Owns(w, id)
  }

  function EntryOf(id: TaskId): Option<TaskId> -> bool {
    e => e == Some(id)
  }

  function RetryOf(id: TaskId): Retry -> bool {
    (r: Retry) => r.task == id
  }

  const BUSY: Worker -> bool := (w: Worker) => !w.Idle? && !w.Stopped?

  /** How many queue entries, owning workers and sleeping retries carry this task. */
  function Carriers(s: Sched, id: TaskId): nat {
    Count(s.queue, EntryOf(id)) + Count(s.workers, OwnerOf(id)) + Count(s.retries, RetryOf(id))
  }

  predicate Live(s: Sched, id: TaskId) {
    id in s.records && !Terminal(s.records[id].state)
  }

  // ---------- invariants ----------

  /** No work is lost or duplicated. */
  ghost predicate Conserved(s: Sched) {
    forall id :: Carriers(s, id) == if Live(s, id) then 1 else 0
  }

  ghost predicate RecordValid(rec: TaskRecord) {
    && |rec.attempts| <= AttemptLimit(rec.spec)
    && (rec.state == Pending ==> |rec.attempts| < AttemptLimit(rec.spec))
    && (rec.state == Running ==> rec.attempts != [])
    && rec.state != Assigned
    && (rec.state == Succeeded <==> rec.result.Some?)
    && (forall i | 0 <= i < |rec.attempts| :: rec.attempts[i].number == i + 1)
  }

  ghost predicate RecordsValid(s: Sched) {
    forall id | id in s.records :: s.records[id].spec.id == id && RecordValid(s.records[id])
  }

  ghost predicate InState(s: Sched, id: TaskId, state: TaskState) {
    id in s.records && s.records[id].state == state
  }

  /** A carried task is in the state its carrier says. */
  ghost predicate PhasesValid(s: Sched) {
    && (forall w | 0 <= w < |s.workers| && Owning(s.workers[w]) ::
          InState(s, s.workers[w].task, if s.workers[w].Acquiring? then Pending else Running))
    && (forall i | 0 <= i < |s.queue| && s.queue[i].Some? :: InState(s, s.queue[i].value, Pending))
    && (forall i | 0 <= i < |s.retries| :: InState(s, s.retries[i].task, Pending))
  }

  ghost predicate CountersValid(s: Sched) {
    s.inflight == Count(s.workers, BUSY) && s.pendingRetries == |s.retries|
  }

  /** No entry is a task id. */
  ghost predicate OnlyPills(queue: seq<Option<TaskId>>) {
    forall i | 0 <= i < |queue| :: queue[i].None?
  }

  /** `stop` has put no pill in the queue that is still there or was taken. */
  ghost predicate NoStop(s: Sched) {
    && (forall i | 0 <= i < |s.queue| :: s.queue[i].Some?)
    && forall w | 0 <= w < |s.workers| :: !s.workers[w].Stopped?
  }

  ghost predicate Quiet(s: Sched) {
    s.queue == [] && s.inflight == 0 && s.pendingRetries == 0
  }

  /** The idle flag never lies, and before `stop` it is also never late. */
  ghost predicate IdleValid(s: Sched) {
    && (s.idle ==> OnlyPills(s.queue) && s.inflight == 0 && s.pendingRetries == 0)
    && (NoStop(s) && Quiet(s) ==> s.idle)
  }

  ghost predicate AllTerminal(s: Sched, ids: set<TaskId>) {
    forall id | id in ids :: id in s.records && Terminal(s.records[id].state)
  }

  /** A drain that has been woken will not lie to its caller. */
  ghost predicate DrainsValid(s: Sched) {
    forall k | k in s.drains ::
      s.drains[k].asked <= s.records.Keys && (s.drains[k].woken ==> AllTerminal(s, s.drains[k].asked))
  }

  /** All the invariants but the promise that idleness is announced. */
  ghost predicate Unsettled(s: Sched) {
    && Conserved(s)
    && RecordsValid(s)
    && PhasesValid(s)
    && CountersValid(s)
    && (s.idle ==> OnlyPills(s.queue) && s.inflight == 0 && s.pendingRetries == 0)
    && DrainsValid(s)
  }

  ghost predicate Valid(s: Sched) {
    Unsettled(s) && IdleValid(s)
  }
}
