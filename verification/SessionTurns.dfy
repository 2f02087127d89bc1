/** What each turn of a call of `ensure` decides, and by what. */
module SessionTurns {
  import opened Tasks
  import opened Sessions

  /** Call c goes to this phase; no other call moves, and of the cache nothing but its own key. */
  ghost predicate GoesTo(m: Manager, n: Manager, c: nat, phase: Phase) {
    && c < |m.calls| == |n.calls| && n.calls[c].phase == phase && n.calls[c].key == m.calls[c].key
    && (forall d | 0 <= d < |m.calls| && d != c :: n.calls[d] == m.calls[d])
    && forall key | key != m.calls[c].key ::
      (key in n.sessions <==> key in m.sessions) && (key in m.sessions ==> n.sessions[key] == m.sessions[key])
  }

  /** Round k of opening begins, unless the rounds or the task's time are used up. */
  ghost predicate Tries(p: SessionPolicy, m: Manager, n: Manager, c: nat, k: Sessions.Attempt, left: real) {
    && n.sessions == m.sessions
    && GoesTo(m, n, c, if k <= p.maxOpenAttempts && left > 0.0 then Opening(k) else Raised)
  }

  /** The session is out of the cache before it is closed. */
  ghost predicate Discards(m: Manager, n: Manager, c: nat, h: Handle) {
    GoesTo(m, n, c, Closing(h)) && n.calls[c].key !in n.sessions
  }

  /** A cached session that is older than the policy allows is discarded unchecked; a younger one
      is checked; and without one a session is opened. */
  ghost predicate EntersTo(p: SessionPolicy, m: Manager, n: Manager, c: nat, now: real, left: real) {
    c < |m.calls| &&
    var key := m.calls[c].key;
    if key !in m.sessions then Tries(p, m, n, c, 1, left)
    else
      var h := m.sessions[key];
      if p.maxAge.Some? && now > h.openedAt + p.maxAge.value then Discards(m, n, c, h)
      else GoesTo(m, n, c, Checking(h)) && n.sessions == m.sessions
  }

  /** What a failed try leads to: the end after the last one, and a pause after any other. */
  ghost predicate FailsTo(p: SessionPolicy, m: Manager, n: Manager, c: nat, now: real, left: real) {
    c < |m.calls| && m.calls[c].phase.Opening? && n.sessions == m.sessions &&
    var k := m.calls[c].phase.attempt;
    var delay := Min(Min(p.maxBackoff, Scaled(p.baseBackoff, k - 1)), left);
    GoesTo(m, n, c, if k == p.maxOpenAttempts then Raised else Sleeping(k, now + delay))
  }

  ghost predicate ChecksTo(m: Manager, n: Manager, c: nat, alive: bool) {
    c < |m.calls| && m.calls[c].phase.Checking? &&
    var h := m.calls[c].phase.handle;
    if alive then GoesTo(m, n, c, Returned(h)) && n.sessions == m.sessions else Discards(m, n, c, h)
  }

  ghost predicate OpensTo(m: Manager, n: Manager, c: nat, driver: Driver, now: real) {
    c < |m.calls| &&
    var key := m.calls[c].key;
    key in n.sessions &&
    var h := n.sessions[key];
    && GoesTo(m, n, c, Returned(h)) && n.made == m.made + [h]
    && h.key == key && h.driver == driver && h.openedAt == now && h.generation == Generation(m, key) + 1
  }

  /** The sessions of the device, of one kind or of all, are gone, and no others. */
  ghost predicate Invalidates(m: Manager, n: Manager, device: DeviceId, kind: Option<string>) {
    && n.calls == m.calls
    && forall key: Key ::
      && (key in n.sessions <==> key in m.sessions && !(key.device == device && (kind.None? || kind.value == key.kind)))
      && (key in n.sessions ==> n.sessions[key] == m.sessions[key])
  }

  ghost predicate Turn(p: SessionPolicy, m: Manager, n: Manager, step: Step) {
    match step
    case Ensure(key) => n == m.(calls := m.calls + [Call(key, Waiting, 0)])
    case Enter(c, now, left) => EntersTo(p, m, n, c, now, left)
    case CheckDone(c, alive) => ChecksTo(m, n, c, alive)
    case CloseDone(c, left) => Tries(p, m, n, c, 1, left)
    case OpenDone(c, driver, now) => OpensTo(m, n, c, driver, now)
    case OpenFailed(c, now, left) => FailsTo(p, m, n, c, now, left)
    case Wake(c, now, left) =>
      c < |m.calls| && m.calls[c].phase.Sleeping? && m.calls[c].phase.until <= now
      && Tries(p, m, n, c, m.calls[c].phase.attempt + 1, left)
    case Invalidate(device, kind) => Invalidates(m, n, device, kind)
    case CloseAll => n == m.(sessions := map[])
  }

  lemma EnterTurn(p: SessionPolicy, m: Manager, c: nat, now: real, left: real)
    requires Enabled(m, Enter(c, now, left))
    ensures EntersTo(p, m, Entered(p, m, c, now, left), c, now, left)
  {
  }

  lemma FailTurn(p: SessionPolicy, m: Manager, c: nat, now: real, left: real)
    requires Enabled(m, OpenFailed(c, now, left))
    ensures FailsTo(p, m, TriedInVain(p, m, c, now, left), c, now, left)
  {
    DoubledIsScaled(p.baseBackoff, m.calls[c].phase.attempt - 1);
  }

  lemma StepTurn(p: SessionPolicy, m: Manager, step: Step)
    requires Enabled(m, step)
    ensures Turn(p, m, Apply(p, m, step), step)
  {
    match step
    case Enter(c, now, left) => EnterTurn(p, m, c, now, left);
    case OpenFailed(c, now, left) => FailTurn(p, m, c, now, left);
    case _ =>
  }

  /** In every run every turn of a call is the one its state calls for: age, liveness, the rounds
      left and the task's time decide it; pauses double up to a limit and never outlast the task;
      and an invalidation takes just the sessions it names. */
  lemma TurnsAreDecided(p: SessionPolicy, trace: seq<Manager>, steps: seq<Step>, k: nat)
    requires IsRun(p, trace, steps) && k < |steps|
    ensures Turn(p, trace[k], trace[k + 1], steps[k])
  {
    StepTurn(p, trace[k], steps[k]);
  }
}
