/** Long-lived sessions, one per (device, kind), rebuilt on demand behind one lock per key.
    `invalidate` does not take the lock, so it can fall between any two steps of a rebuild. */
module Sessions {
  import opened Tasks

  datatype Key = Key(device: DeviceId, kind: string)

  /** What the target opened; the manager never looks inside. */
  datatype Driver = Driver(tag: nat)

  /** `serial` stands for the random id of the handle: its place among all sessions opened. */
  datatype Handle = Handle(key: Key, driver: Driver, generation: nat, openedAt: real, serial: nat)

  datatype SessionPolicy = SessionPolicy(maxOpenAttempts: int, baseBackoff: real, maxBackoff: real,
      maxAge: Option<real>)

  /** Attempts are numbered from 1. */
  type Attempt = n: nat | n >= 1 witness 1

  datatype Phase =
    | Waiting
    | Checking(handle: Handle)
    | Closing(handle: Handle)
    | Opening(attempt: Attempt)
    | Sleeping(attempt: Attempt, until: real)
    | Returned(handle: Handle)
    | Raised

  /** A call of `ensure`; `tries` counts the sessions it has tried to open. */
  datatype Call = Call(key: Key, phase: Phase, tries: nat)

  /** `holder` is the call inside each key's lock. `made` is history: every handle ever
      made, in order. */
  datatype Manager = Manager(
    sessions: map<Key, Handle>,
    generations: map<Key, nat>,
    holder: map<Key, nat>,
    calls: seq<Call>,
    made: seq<Handle>)

  predicate Inside(phase: Phase) {
    phase.Checking? || phase.Closing? || phase.Opening? || phase.Sleeping?
  }

  function Generation(m: Manager, key: Key): nat {
    if key in m.generations then m.generations[key] else 0
  }

  predicate TooOld(p: SessionPolicy, h: Handle, now: real) {
    p.maxAge.Some? && now - h.openedAt > p.maxAge.value
  }

  /** The pause after the k-th failed try of a call that has `left` seconds to live. */
  function Pause(p: SessionPolicy, k: Attempt, left: real): real
  {
    Min(Min(p.maxBackoff, Doubled(p.baseBackoff, k - 1)), left)
  }

  // ---------- the steps of a call ----------

  /** `now` is the clock and `left` what remains of the task's deadline, as that step reads
      them; outcomes of the target's own calls come with the step. */
  datatype Step =
    | Ensure(key: Key)
    | Enter(call: nat, now: real, left: real)
    | CheckDone(call: nat, alive: bool)
    | CloseDone(call: nat, left: real)
    | OpenDone(call: nat, driver: Driver, now: real)
    | OpenFailed(call: nat, now: real, left: real)
    | Wake(call: nat, now: real, left: real)
    | Invalidate(device: DeviceId, kind: Option<string>)
    | CloseAll

  predicate In(m: Manager, c: nat) {
    c < |m.calls|
  }

  predicate Enabled(m: Manager, step: Step) {
    match step
    case Ensure(_) => true
    case Enter(c, _, _) => In(m, c) && m.calls[c].phase == Waiting && m.calls[c].key !in m.holder
    case CheckDone(c, _) => In(m, c) && m.calls[c].phase.Checking?
    case CloseDone(c, _) => In(m, c) && m.calls[c].phase.Closing?
    case OpenDone(c, _, _) => In(m, c) && m.calls[c].phase.Opening?
    case OpenFailed(c, _, _) => In(m, c) && m.calls[c].phase.Opening?
    case Wake(c, now, _) => In(m, c) && m.calls[c].phase.Sleeping? && now >= m.calls[c].phase.until
    case Invalidate(_, _) => true
    case CloseAll => true
  }

  /** The call goes on inside the lock. */
  function Holding(m: Manager, c: nat, phase: Phase): Manager
    requires In(m, c)
  {
    m.(holder := m.holder[m.calls[c].key := c], calls := m.calls[c := m.calls[c].(phase := phase)])
  }

  /** The call ends, and leaves the lock. */
  function Ended(m: Manager, c: nat, phase: Phase): Manager
    requires In(m, c)
  {
    m.(holder := m.holder - {m.calls[c].key}, calls := m.calls[c := m.calls[c].(phase := phase)])
  }

  function TryOpen(p: SessionPolicy, m: Manager, c: nat, k: Attempt, left: real): Manager
    requires In(m, c)
  {
    if k > p.maxOpenAttempts || left <= 0.0 then Ended(m, c, Raised)
    else
      var call := m.calls[c];
      m.(holder := m.holder[call.key := c], calls := m.calls[c := Call(call.key, Opening(k), call.tries + 1)])
  }

  function Dropped(m: Manager, key: Key): Manager {
    m.(sessions := m.sessions - {key})
  }

  function Entered(p: SessionPolicy, m: Manager, c: nat, now: real, left: real): Manager
    requires In(m, c)
  {
    var key := m.calls[c].key;
    if key !in m.sessions then TryOpen(p, m, c, 1, left)
    else if TooOld(p, m.sessions[key], now) then Holding(Dropped(m, key), c, Closing(m.sessions[key]))
    else Holding(m, c, Checking(m.sessions[key]))
  }

  function Checked(m: Manager, c: nat, alive: bool): Manager
    requires In(m, c) && m.calls[c].phase.Checking?
  {
    var handle := m.calls[c].phase.handle;
    if alive then Ended(m, c, Returned(handle))
    else Holding(Dropped(m, m.calls[c].key), c, Closing(handle))
  }

  function Opened(m: Manager, c: nat, driver: Driver, now: real): Manager
    requires In(m, c)
  {
    var key := m.calls[c].key;
    var handle := Handle(key, driver, Generation(m, key) + 1, now, |m.made|);
    Ended(m.(generations := m.generations[key := handle.generation], sessions := m.sessions[key := handle],
        made := m.made + [handle]),
          c, Returned(handle))
  }

  function TriedInVain(p: SessionPolicy, m: Manager, c: nat, now: real, left: real): Manager
    requires In(m, c) && m.calls[c].phase.Opening?
  {
    var k := m.calls[c].phase.attempt;
    if k == p.maxOpenAttempts then Ended(m, c, Raised)
    else Holding(m, c, Sleeping(k, now + Pause(p, k, left)))
  }

  predicate Hits(key: Key, device: DeviceId, kind: Option<string>) {
    key.device == device && (kind.None? || kind.value == key.kind)
  }

  function Invalidated(m: Manager, device: DeviceId, kind: Option<string>): Manager {
    m.(sessions := map key | key in m.sessions && !Hits(key, device, kind) :: m.sessions[key])
  }

  function Apply(p: SessionPolicy, m: Manager, step: Step): Manager
    requires Enabled(m, step)
  {
    match step
    case Ensure(key) => m.(calls := m.calls + [Call(key, Waiting, 0)])
    case Enter(c, now, left) => Entered(p, m, c, now, left)
    case CheckDone(c, alive) => Checked(m, c, alive)
    case CloseDone(c, left) => TryOpen(p, m, c, 1, left)
    case OpenDone(c, driver, now) => Opened(m, c, driver, now)
    case OpenFailed(c, now, left) => TriedInVain(p, m, c, now, left)
    case Wake(c, _, left) => TryOpen(p, m, c, m.calls[c].phase.attempt + 1, left)
    case Invalidate(device, kind) => Invalidated(m, device, kind)
    case CloseAll => m.(sessions := map[])
  }

  ghost predicate IsRun(p: SessionPolicy, trace: seq<Manager>, steps: seq<Step>) {
    && |trace| == |steps| + 1
    && trace[0] == Manager(map[], map[], map[], [], [])
    && forall k | 0 <= k < |steps| :: Enabled(trace[k], steps[k]) && trace[k + 1] == Apply(p, trace[k], steps[k])
  }

  // ---------- what holds in every state ----------

  /** A key is locked exactly when one call is at work on it, and by that call. */
  ghost predicate LocksValid(m: Manager) {
    && (forall key | key in m.holder ::
          In(m, m.holder[key]) && m.calls[m.holder[key]].key == key && Inside(m.calls[m.holder[key]].phase))
    && forall c | 0 <= c < |m.calls| && Inside(m.calls[c].phase) ::
      m.calls[c].key in m.holder && m.holder[m.calls[c].key] == c
  }

  /** How many of these handles belong to the key. */
  function Opens(handles: seq<Handle>, key: Key): nat {
    if handles == [] then 0
    else
      var n := |handles| - 1;
      Opens(handles[..n], key) + if handles[n].key == key then 1 else 0
  }

  predicate Known(made: seq<Handle>, h: Handle) {
    h.serial < |made| && made[h.serial] == h
  }

  /** Generations number the sessions opened for a key. */
  ghost predicate Numbered(m: Manager) {
    && (forall key: Key :: Generation(m, key) == Opens(m.made, key))
    && forall i | 0 <= i < |m.made| ::
      m.made[i].serial == i && m.made[i].generation == Opens(m.made[..i + 1], m.made[i].key)
  }

  /** What is cached for a key is the latest session opened for it. */
  ghost predicate CacheValid(m: Manager) {
    forall key | key in m.sessions ::
      Known(m.made, m.sessions[key]) && m.sessions[key].key == key && m.sessions[key].generation == Generation(m, key)
  }

  /** A handle in a call's hands is a real one of its own key, and nothing newer has been
      opened for that key while it is checked or closed. Tries are counted from 1. */
  predicate CallValid(p: SessionPolicy, made: seq<Handle>, generation: nat, call: Call) {
    && (call.phase.Checking? || call.phase.Closing? || call.phase.Returned? ==>
          Known(made, call.phase.handle) && call.phase.handle.key == call.key)
    && (call.phase.Checking? || call.phase.Closing? ==> call.phase.handle.generation == generation)
    && (call.phase.Waiting? || call.phase.Checking? || call.phase.Closing? ==> call.tries == 0)
    && (call.phase.Opening? || call.phase.Sleeping? ==> call.tries == call.phase.attempt)
    && (call.phase.Sleeping? ==> call.tries < p.maxOpenAttempts)
    && (call.tries > 0 ==> call.tries <= p.maxOpenAttempts)
  }

  ghost predicate CallsValid(p: SessionPolicy, m: Manager) {
    forall c | 0 <= c < |m.calls| :: CallValid(p, m.made, Generation(m, m.calls[c].key), m.calls[c])
  }

  ghost predicate Valid(p: SessionPolicy, m: Manager) {
    LocksValid(m) && Numbered(m) && CacheValid(m) && CallsValid(p, m)
  }

  // ---------- locks ----------

  /** Call c, which has the lock of its key or finds it free, goes on inside it or leaves. */
  ghost predicate OneMoved(m: Manager, n: Manager, c: nat) {
    && In(m, c) && (Inside(m.calls[c].phase) || m.calls[c].key !in m.holder)
    && |n.calls| == |m.calls| && n.calls[c].key == m.calls[c].key
    && (forall d | 0 <= d < |m.calls| && d != c :: n.calls[d] == m.calls[d])
    && n.holder == if Inside(n.calls[c].phase) then m.holder[m.calls[c].key := c] else m.holder - {m.calls[c].key}
  }

  predicate Moves(step: Step) {
    !step.Ensure? && !step.Invalidate? && !step.CloseAll?
  }

  lemma EnterMoves(p: SessionPolicy, m: Manager, c: nat, now: real, left: real)
    requires Enabled(m, Enter(c, now, left))
    ensures OneMoved(m, Entered(p, m, c, now, left), c)
  {
  }

  lemma StepMoves(p: SessionPolicy, m: Manager, step: Step)
    requires Enabled(m, step) && Moves(step)
    ensures OneMoved(m, Apply(p, m, step), step.call)
  {
    if step.Enter? {
      EnterMoves(p, m, step.call, step.now, step.left);
    }
  }

  lemma StepLocks(p: SessionPolicy, m: Manager, step: Step)
    requires LocksValid(m) && Enabled(m, step)
    ensures LocksValid(Apply(p, m, step))
  {
    if Moves(step) {
      StepMoves(p, m, step);
    }
  }

  // ---------- generations ----------

  lemma OpenedNumbered(m: Manager, c: nat, driver: Driver, now: real)
    requires Numbered(m) && In(m, c)
    ensures Numbered(Opened(m, c, driver, now))
  {
    var n := Opened(m, c, driver, now);
    assert n.made[..|m.made|] == m.made;
    forall i | 0 <= i < |n.made|
      ensures n.made[i].serial == i && n.made[i].generation == Opens(n.made[..i + 1], n.made[i].key)
    {
      if i < |m.made| {
        assert n.made[i] == m.made[i] && n.made[..i + 1] == m.made[..i + 1];
      } else {
        assert n.made[..i + 1] == n.made;
      }
    }
  }

  /** A step that opens nothing leaves the numbering alone and at most takes handles out of
      the cache. */
  lemma StepKeeps(p: SessionPolicy, m: Manager, step: Step)
    requires Enabled(m, step) && !step.OpenDone?
    ensures Apply(p, m, step).made == m.made && Apply(p, m, step).generations == m.generations
    ensures Apply(p, m, step).sessions.Keys <= m.sessions.Keys
    ensures forall key | key in Apply(p, m, step).sessions :: Apply(p, m, step).sessions[key] == m.sessions[key]
  {
  }

  lemma StepNumbered(p: SessionPolicy, m: Manager, step: Step)
    requires Numbered(m) && Enabled(m, step)
    ensures Numbered(Apply(p, m, step))
  {
    if step.OpenDone? {
      OpenedNumbered(m, step.call, step.driver, step.now);
    } else {
      StepKeeps(p, m, step);
    }
  }

  lemma StepCache(p: SessionPolicy, m: Manager, step: Step)
    requires CacheValid(m) && Enabled(m, step)
    ensures CacheValid(Apply(p, m, step))
  {
    if !step.OpenDone? {
      StepKeeps(p, m, step);
    }
  }

  // ---------- calls ----------

  /** What the call at work becomes. */
  ghost predicate MoverValid(p: SessionPolicy, m: Manager, n: Manager, c: nat) {
    In(m, c) && In(n, c) && CallValid(p, m.made, Generation(m, m.calls[c].key), n.calls[c])
  }

  lemma TryOpenValid(p: SessionPolicy, m: Manager, c: nat, k: Attempt, left: real)
    requires In(m, c) && m.calls[c].tries == k - 1 && (k == 1 || k <= p.maxOpenAttempts)
    ensures MoverValid(p, m, TryOpen(p, m, c, k, left), c)
  {
  }

  lemma EnterValid(p: SessionPolicy, m: Manager, c: nat, now: real, left: real)
    requires CacheValid(m) && CallsValid(p, m) && Enabled(m, Enter(c, now, left))
    ensures MoverValid(p, m, Entered(p, m, c, now, left), c)
  {
    assert CallValid(p, m.made, Generation(m, m.calls[c].key), m.calls[c]);
    if m.calls[c].key !in m.sessions {
      TryOpenValid(p, m, c, 1, left);
    }
  }

  lemma StepMover(p: SessionPolicy, m: Manager, step: Step)
    requires CacheValid(m) && CallsValid(p, m) && Enabled(m, step) && Moves(step) && !step.OpenDone?
    ensures MoverValid(p, m, Apply(p, m, step), step.call)
  {
    assert CallValid(p, m.made, Generation(m, m.calls[step.call].key), m.calls[step.call]);
    match step
    case Enter(c, now, left) => EnterValid(p, m, c, now, left);
    case CloseDone(c, left) => TryOpenValid(p, m, c, 1, left);
    case Wake(c, _, left) => TryOpenValid(p, m, c, m.calls[c].phase.attempt + 1, left);
    case _ =>
  }

  lemma OpenedCalls(p: SessionPolicy, m: Manager, c: nat, driver: Driver, now: real)
    requires LocksValid(m) && CallsValid(p, m) && Enabled(m, OpenDone(c, driver, now))
    ensures CallsValid(p, Opened(m, c, driver, now))
  {
  }

  lemma OthersCalls(p: SessionPolicy, m: Manager, step: Step)
    requires CacheValid(m) && CallsValid(p, m) && Enabled(m, step) && !step.OpenDone?
    ensures CallsValid(p, Apply(p, m, step))
  {
    StepKeeps(p, m, step);
    if Moves(step) {
      StepMoves(p, m, step);
      StepMover(p, m, step);
    }
  }

  lemma StepCalls(p: SessionPolicy, m: Manager, step: Step)
    requires Valid(p, m) && Enabled(m, step)
    ensures CallsValid(p, Apply(p, m, step))
  {
    if step.OpenDone? {
      OpenedCalls(p, m, step.call, step.driver, step.now);
    } else {
      OthersCalls(p, m, step);
    }
  }

  lemma {:induction false} RunValid(p: SessionPolicy, trace: seq<Manager>, steps: seq<Step>, k: nat)
    requires IsRun(p, trace, steps) && k < |trace|
    ensures Valid(p, trace[k])
    decreases k
  {
    if k > 0 {
      RunValid(p, trace, steps, k - 1);
      StepLocks(p, trace[k - 1], steps[k - 1]);
      StepNumbered(p, trace[k - 1], steps[k - 1]);
      StepCache(p, trace[k - 1], steps[k - 1]);
      StepCalls(p, trace[k - 1], steps[k - 1]);
    }
  }

  // ---------- the object ----------

  /** `calls` stands for the suspended coroutines; each method is what one of them does
      between two suspensions. */
  class SessionManager {
    const policy: SessionPolicy
    var sessions: map<Key, Handle>
    var generations: map<Key, nat>
    var holder: map<Key, nat>
    var calls: seq<Call>
    ghost var made: seq<Handle>
    var count: nat

    ghost function View(): Manager
      reads this
    {
      Manager(sessions, generations, holder, calls, made)
    }

    /** The next serial is the number of handles made. */
    ghost predicate Serials()
      reads this
    {
      count == |made|
    }

    constructor (policy: SessionPolicy)
      ensures this.policy == policy && Serials() && View() == Manager(map[], map[], map[], [], [])
    {
      this.policy := policy;
      sessions, generations, holder, calls, made, count := map[], map[], map[], [], [], 0;
    }

    method Ensure(key: Key) returns (call: nat)
      modifies this`calls
      ensures call == old(|calls|) && View() == Apply(policy, old(View()), Step.Ensure(key))
    {
      call := |calls|;
      calls := calls + [Call(key, Waiting, 0)];
    }

    method Become(call: nat, phase: Phase)
      requires call < |calls|
      modifies this`calls, this`holder
      ensures View() == if Inside(phase) then Holding(old(View()), call, phase) else Ended(old(View()), call, phase)
    {
      var key := calls[call].key;
      calls := calls[call := calls[call].(phase := phase)];
      if Inside(phase) {
        holder := holder[key := call];
      } else {
        holder := holder - {key};
      }
    }

    /** The head of the retry loop: another round, or the call's end. */
    method Try(call: nat, k: Attempt, left: real)
      requires call < |calls|
      modifies this`calls, this`holder
      ensures View() == TryOpen(policy, old(View()), call, k, left)
    {
      if k > policy.maxOpenAttempts || left <= 0.0 {
        Become(call, Raised);
      } else {
        Become(call, Opening(k));
        calls := calls[call := calls[call].(tries := calls[call].tries + 1)];
      }
    }

    method Discard(call: nat, handle: Handle)
      requires call < |calls|
      modifies this`calls, this`holder, this`sessions
      ensures View() == Holding(Dropped(old(View()), old(calls[call].key)), call, Closing(handle))
    {
      sessions := sessions - {calls[call].key};
      Become(call, Closing(handle));
    }

    method Enter(call: nat, now: real, left: real)
      requires Enabled(View(), Step.Enter(call, now, left))
      modifies this`calls, this`holder, this`sessions
      ensures View() == Entered(policy, old(View()), call, now, left)
    {
      var key := calls[call].key;
      if key !in sessions {
        Try(call, 1, left);
      } else {
        var handle := sessions[key];
        if TooOld(policy, handle, now) {
          Discard(call, handle);
        } else {
          Become(call, Checking(handle));
        }
      }
    }

    method CheckDone(call: nat, alive: bool)
      requires Enabled(View(), Step.CheckDone(call, alive))
      modifies this`calls, this`holder, this`sessions
      ensures View() == Checked(old(View()), call, alive)
    {
      var handle := calls[call].phase.handle;
      if alive {
        Become(call, Returned(handle));
      } else {
        Discard(call, handle);
      }
    }

    method CloseDone(call: nat, left: real)
      requires Enabled(View(), Step.CloseDone(call, left))
      modifies this`calls, this`holder
      ensures View() == TryOpen(policy, old(View()), call, 1, left)
    {
      Try(call, 1, left);
    }

    method OpenDone(call: nat, driver: Driver, now: real)
      requires Serials() && Enabled(View(), Step.OpenDone(call, driver, now))
      modifies this
      ensures Serials() && View() == Opened(old(View()), call, driver, now)
    {
      var key := calls[call].key;
      var generation := if key in generations then generations[key] + 1 else 1;
      generations := generations[key := generation];
      var handle := Handle(key, driver, generation, now, count);
      count := count + 1;
      made := made + [handle];
      sessions := sessions[key := handle];
      Become(call, Returned(handle));
    }

    method OpenFailed(call: nat, now: real, left: real)
      requires Enabled(View(), Step.OpenFailed(call, now, left))
      modifies this`calls, this`holder
      ensures View() == TriedInVain(policy, old(View()), call, now, left)
    {
      var k := calls[call].phase.attempt;
      if k == policy.maxOpenAttempts {
        Become(call, Raised);
      } else {
        Become(call, Sleeping(k, now + Pause(policy, k, left)));
      }
    }

    method Wake(call: nat, now: real, left: real)
      requires Enabled(View(), Step.Wake(call, now, left))
      modifies this`calls, this`holder
      ensures View() == Apply(policy, old(View()), Step.Wake(call, now, left))
    {
      Try(call, calls[call].phase.attempt + 1, left);
    }

    /** Takes no lock. */
    method Invalidate(device: DeviceId, kind: Option<string>)
      modifies this`sessions
      ensures View() == Invalidated(old(View()), device, kind)
    {
      var keys := set key | key in sessions && Hits(key, device, kind);
      while keys != {}
        invariant keys <= sessions.Keys && forall key | key in keys :: Hits(key, device, kind)
        invariant forall key | key in sessions :: key in old(sessions) && sessions[key] == old(sessions)[key]
        invariant forall key | key in old(sessions) && key !in sessions :: Hits(key, device, kind)
        invariant forall key | key in sessions && Hits(key, device, kind) :: key in keys
        decreases keys
      {
        var key :| key in keys;
        sessions := sessions - {key};
        keys := keys - {key};
      }
      assert sessions == Invalidated(old(View()), device, kind).sessions;
    }

    method CloseAll()
      modifies this`sessions
      ensures View() == old(View()).(sessions := map[])
    {
      sessions := map[];
    }
  }
}
