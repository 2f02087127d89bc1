/** What the session manager promises its callers, over every run. */
module SessionTheorems {
  import opened Tasks
  import opened Sessions

  // ---------- the lock ----------

  /** Per key at most one call checks, closes or opens a session, and while one does no other
      call of the key can begin to. */
  lemma OneRebuildPerKey(p: SessionPolicy, trace: seq<Manager>, steps: seq<Step>, k: nat, c: nat, d: nat, now: real,
      left: real)
    requires IsRun(p, trace, steps) && k < |trace|
    requires In(trace[k], c) && In(trace[k], d) && c != d && trace[k].calls[c].key == trace[k].calls[d].key
    requires Inside(trace[k].calls[c].phase)
    ensures !Inside(trace[k].calls[d].phase) && !Enabled(trace[k], Enter(d, now, left))
  {
    RunValid(p, trace, steps, k);
  }

  /** A waiting call is kept out only by a call at work on its own key. */
  lemma LockIsPerKey(p: SessionPolicy, trace: seq<Manager>, steps: seq<Step>, k: nat, c: nat, now: real, left: real)
    requires IsRun(p, trace, steps) && k < |trace|
    requires In(trace[k], c) && trace[k].calls[c].phase == Waiting
    ensures Enabled(trace[k], Enter(c, now, left)) <==>
            forall d | 0 <= d < |trace[k].calls| ::
              trace[k].calls[d].key == trace[k].calls[c].key ==> !Inside(trace[k].calls[d].phase)
  {
    RunValid(p, trace, steps, k);
  }

  // ---------- generations ----------

  lemma {:induction false} OpensGrow(made: seq<Handle>, key: Key, a: nat, b: nat)
    requires a <= b <= |made|
    ensures Opens(made[..a], key) <= Opens(made[..b], key)
    decreases b
  {
    if a < b {
      OpensGrow(made, key, a, b - 1);
      assert made[..b][..b - 1] == made[..b - 1];
    }
  }

  /** Of two sessions opened for one key the later one has the greater generation, so equal
      generations mean the same handle. */
  lemma GenerationsIdentify(p: SessionPolicy, trace: seq<Manager>, steps: seq<Step>, k: nat, i: nat, j: nat)
    requires IsRun(p, trace, steps) && k < |trace|
    requires i < |trace[k].made| && j < |trace[k].made| && trace[k].made[i].key == trace[k].made[j].key
    ensures trace[k].made[i].generation < trace[k].made[j].generation <==> i < j
  {
    RunValid(p, trace, steps, k);
    if i < j {
      LaterIsGreater(trace[k], i, j);
    } else if j < i {
      LaterIsGreater(trace[k], j, i);
    }
  }

  lemma LaterIsGreater(m: Manager, i: nat, j: nat)
    requires Numbered(m) && i < j < |m.made| && m.made[i].key == m.made[j].key
    ensures m.made[i].generation < m.made[j].generation
  {
    OpensGrow(m.made, m.made[i].key, i + 1, j);
    assert m.made[..j + 1][..j] == m.made[..j];
  }

  lemma {:induction false} GenerationGrows(p: SessionPolicy, trace: seq<Manager>, steps: seq<Step>, key: Key, i: nat,
      j: nat)
    requires IsRun(p, trace, steps) && i <= j < |trace|
    ensures Generation(trace[i], key) <= Generation(trace[j], key)
    ensures trace[i].made <= trace[j].made
    decreases j
  {
    if i < j {
      GenerationGrows(p, trace, steps, key, i, j - 1);
      if !steps[j - 1].OpenDone? {
        StepKeeps(p, trace[j - 1], steps[j - 1]);
      }
    }
  }

  /** Step k is where call c returns h. */
  ghost predicate Returns(trace: seq<Manager>, k: nat, c: nat, h: Handle) {
    && k + 1 < |trace| && In(trace[k], c) && In(trace[k + 1], c)
    && !trace[k].calls[c].phase.Returned? && trace[k + 1].calls[c].phase == Returned(h)
  }

  /** A handle is returned only by its own call's check succeeding or its own call's open
      succeeding in that very step, and it is the latest session opened for its key. */
  lemma ReturnIsFresh(p: SessionPolicy, trace: seq<Manager>, steps: seq<Step>, k: nat, c: nat, h: Handle)
    requires IsRun(p, trace, steps) && Returns(trace, k, c, h)
    ensures h.key == trace[k].calls[c].key
    ensures h.generation == Generation(trace[k + 1], h.key)
    ensures Known(trace[k + 1].made, h)
    ensures
      || (steps[k] == CheckDone(c, true) && trace[k].calls[c].phase == Checking(h))
      || (steps[k] == OpenDone(c, h.driver, h.openedAt) && trace[k + 1].made == trace[k].made + [h])
  {
    RunValid(p, trace, steps, k);
    RunValid(p, trace, steps, k + 1);
    assert trace[k + 1] == Apply(p, trace[k], steps[k]);
    if Moves(steps[k]) {
      StepMoves(p, trace[k], steps[k]);
      assert steps[k].call == c;
    }
    ReturnStep(p, trace[k], steps[k], c, h);
  }

  lemma ReturnStep(p: SessionPolicy, m: Manager, step: Step, c: nat, h: Handle)
    requires Enabled(m, step) && In(m, c) && (Moves(step) ==> step.call == c)
    requires var n := Apply(p, m, step); In(n, c) && !m.calls[c].phase.Returned? && n.calls[c].phase == Returned(h)
    ensures
      || (step == CheckDone(c, true) && m.calls[c].phase == Checking(h)
          && Apply(p, m, step).generations == m.generations)
      || (step == OpenDone(c, h.driver, h.openedAt) && Apply(p, m, step).made == m.made + [h]
          && Generation(Apply(p, m, step), m.calls[c].key) == h.generation)
  {
  }

  lemma {:induction false} KeyStays(p: SessionPolicy, trace: seq<Manager>, steps: seq<Step>, c: nat, i: nat, j: nat)
    requires IsRun(p, trace, steps) && i <= j < |trace| && In(trace[i], c)
    ensures In(trace[j], c) && trace[j].calls[c].key == trace[i].calls[c].key
    ensures trace[i].calls[c].phase.Returned? ==> trace[j].calls[c] == trace[i].calls[c]
    decreases j
  {
    if i < j {
      KeyStays(p, trace, steps, c, i, j - 1);
      if Moves(steps[j - 1]) {
        StepMoves(p, trace[j - 1], steps[j - 1]);
      }
    }
  }

  /** Every handle a call has returned was opened by that call or passed a check made by it,
      whatever was invalidated meanwhile. */
  lemma {:induction false} EnsureVerifies(p: SessionPolicy, trace: seq<Manager>, steps: seq<Step>, c: nat,
      j: nat) returns (k: nat)
    requires IsRun(p, trace, steps) && j < |trace| && In(trace[j], c) && trace[j].calls[c].phase.Returned?
    ensures k < j && Returns(trace, k, c, trace[j].calls[c].phase.handle)
    ensures
      var h := trace[j].calls[c].phase.handle;
      || (steps[k] == CheckDone(c, true) && trace[k].calls[c].phase == Checking(h))
      || (steps[k] == OpenDone(c, h.driver, h.openedAt) && trace[k + 1].made == trace[k].made + [h])
    decreases j
  {
    assert j > 0;
    assert trace[j] == Apply(p, trace[j - 1], steps[j - 1]);
    if In(trace[j - 1], c) && trace[j - 1].calls[c].phase.Returned? {
      k := EnsureVerifies(p, trace, steps, c, j - 1);
      KeyStays(p, trace, steps, c, j - 1, j);
    } else {
      k := j - 1;
      ReturnIsFresh(p, trace, steps, k, c, trace[j].calls[c].phase.handle);
    }
  }

  /** For one key, callers see generations that never go back, and the same generation only
      with the same handle. */
  lemma ReturnsMoveForward(p: SessionPolicy, trace: seq<Manager>, steps: seq<Step>, i: nat, c: nat, g: Handle,
      j: nat, d: nat, h: Handle)
    requires IsRun(p, trace, steps) && i <= j && Returns(trace, i, c, g) && Returns(trace, j, d, h) && g.key == h.key
    ensures g.generation <= h.generation && (g.generation == h.generation <==> g == h)
  {
    ReturnIsFresh(p, trace, steps, i, c, g);
    ReturnIsFresh(p, trace, steps, j, d, h);
    GenerationGrows(p, trace, steps, g.key, i + 1, j + 1);
    assert trace[j + 1].made[g.serial] == g;
    GenerationsIdentify(p, trace, steps, j + 1, g.serial, h.serial);
    GenerationsIdentify(p, trace, steps, j + 1, h.serial, g.serial);
  }

  /** The cached session is always the latest opened for its key. */
  lemma CachedIsLatest(p: SessionPolicy, trace: seq<Manager>, steps: seq<Step>, k: nat, key: Key, i: nat)
    requires IsRun(p, trace, steps) && k < |trace| && key in trace[k].sessions
    requires i < |trace[k].made| && trace[k].made[i].key == key
    ensures trace[k].made[i].generation <= trace[k].sessions[key].generation
    ensures trace[k].made[i].generation == trace[k].sessions[key].generation
            <==> trace[k].made[i] == trace[k].sessions[key]
  {
    RunValid(p, trace, steps, k);
    var h := trace[k].sessions[key];
    OpensGrow(trace[k].made, key, i + 1, |trace[k].made|);
    assert trace[k].made[..|trace[k].made|] == trace[k].made;
    GenerationsIdentify(p, trace, steps, k, i, h.serial);
    GenerationsIdentify(p, trace, steps, k, h.serial, i);
  }

  // ---------- invalidation ----------

  predicate Drops(step: Step, key: Key) {
    step.CloseAll? || (step.Invalidate? && Hits(key, step.device, step.kind))
  }

  ghost predicate Undropped(steps: seq<Step>, key: Key, i: nat, j: nat) {
    forall k | i <= k < j && k < |steps| :: !Drops(steps[k], key)
  }

  lemma UndroppedLast(steps: seq<Step>, key: Key, i: nat, j: nat)
    requires i <= j < |steps|
    ensures Undropped(steps, key, i, j + 1) <==> Undropped(steps, key, i, j) && !Drops(steps[j], key)
  {
  }

  /** A check of h goes on from i to j. */
  ghost predicate ChecksThrough(trace: seq<Manager>, c: nat, h: Handle, i: nat, j: nat) {
    i <= j < |trace| && forall k | i <= k <= j :: In(trace[k], c) && trace[k].calls[c].phase == Checking(h)
  }

  predicate Cached(m: Manager, h: Handle) {
    h.key in m.sessions && m.sessions[h.key] == h
  }

  lemma CheckStep(p: SessionPolicy, m: Manager, step: Step, c: nat, h: Handle)
    requires Valid(p, m) && Enabled(m, step) && In(m, c) && m.calls[c].phase == Checking(h) && m.calls[c].key == h.key
    requires var n := Apply(p, m, step); In(n, c) && n.calls[c].phase == Checking(h)
    ensures Cached(Apply(p, m, step), h) <==> Cached(m, h) && !Drops(step, h.key)
  {
    if Moves(step) {
      assert step.call != c;
      OtherKeys(p, m, step, h.key);
    }
  }

  /** A call at work touches the cache only under its own key. */
  lemma OtherKeys(p: SessionPolicy, m: Manager, step: Step, key: Key)
    requires Enabled(m, step) && Moves(step) && m.calls[step.call].key != key
    ensures key in Apply(p, m, step).sessions <==> key in m.sessions
    ensures key in m.sessions ==> Apply(p, m, step).sessions[key] == m.sessions[key]
  {
  }

  lemma {:induction false} CheckedStaysCached(p: SessionPolicy, trace: seq<Manager>, steps: seq<Step>, c: nat,
      h: Handle, i: nat, j: nat)
    requires IsRun(p, trace, steps) && ChecksThrough(trace, c, h, i, j) && Cached(trace[i], h)
    ensures Cached(trace[j], h) <==> Undropped(steps, h.key, i, j)
    decreases j
  {
    if i < j {
      var k := j - 1;
      CheckedStaysCached(p, trace, steps, c, h, i, k);
      RunValid(p, trace, steps, k);
      assert trace[j] == Apply(p, trace[k], steps[k]);
      CheckStep(p, trace[k], steps[k], c, h);
      UndroppedLast(steps, h.key, i, k);
    }
  }

  /** The handle a check returns is still the cached one exactly when nothing invalidated its
      key while the check was under way; one that was dropped meanwhile is returned all the
      same. */
  lemma ReturnedIsCached(p: SessionPolicy, trace: seq<Manager>, steps: seq<Step>, c: nat, h: Handle, i: nat, j: nat)
    requires IsRun(p, trace, steps) && i < j < |steps|
    requires steps[i].Enter? && steps[i].call == c && ChecksThrough(trace, c, h, i + 1, j)
    requires steps[j] == CheckDone(c, true)
    ensures Returns(trace, j, c, h)
    ensures Cached(trace[j + 1], h) <==> Undropped(steps, h.key, i + 1, j)
  {
    RunValid(p, trace, steps, i);
    RunValid(p, trace, steps, j);
    assert trace[i + 1] == Apply(p, trace[i], steps[i]);
    assert Cached(trace[i + 1], h);
    CheckedStaysCached(p, trace, steps, c, h, i + 1, j);
    assert trace[j + 1] == Apply(p, trace[j], steps[j]);
  }

  /** The first session of a key, opened by call 0. */
  lemma FirstSession(p: SessionPolicy, key: Key, driver: Driver) returns (trace: seq<Manager>, steps: seq<Step>)
    requires p.maxOpenAttempts >= 1
    ensures IsRun(p, trace, steps)
    ensures var h := Handle(key, driver, 1, 0.0, 0);
            trace[|steps|] == Manager(map[key := h], map[key := 1], map[], [Call(key, Returned(h), 1)], [h])
  {
    var m0 := Manager(map[], map[], map[], [], []);
    var m1 := m0.(calls := [Call(key, Waiting, 0)]);
    var m2 := m0.(calls := [Call(key, Opening(1), 1)], holder := map[key := 0]);
    trace, steps := [m0] + [m1] + [m2], [] + [Ensure(key)] + [Enter(0, 0.0, 1.0)];
    var m3 := Apply(p, m2, OpenDone(0, driver, 0.0));
    trace, steps := trace + [m3], steps + [OpenDone(0, driver, 0.0)];
    assert m3.holder == map[];
  }

  /** So the cache and the caller can part: an invalidation in the middle of a check. */
  lemma DroppedYetReturned(p: SessionPolicy, key: Key, driver: Driver) returns (trace: seq<Manager>,
      steps: seq<Step>, h: Handle)
    requires p.maxOpenAttempts >= 1 && p.maxAge.None?
    ensures IsRun(p, trace, steps) && |steps| > 0
    ensures Returns(trace, |steps| - 1, 1, h) && !Cached(trace[|steps|], h)
  {
    trace, steps := FirstSession(p, key, driver);
    h := Handle(key, driver, 1, 0.0, 0);
    var n := |steps|;
    var m := trace[n];
    var m1 := m.(calls := m.calls + [Call(key, Waiting, 0)]);
    trace, steps := trace + [m1], steps + [Ensure(key)];
    var m2 := Holding(m1, 1, Checking(h));
    trace, steps := trace + [m2], steps + [Enter(1, 0.0, 1.0)];
    var m3 := Invalidated(m2, key.device, None);
    trace, steps := trace + [m3], steps + [Invalidate(key.device, None)];
    var m4 := Checked(m3, 1, true);
    trace, steps := trace + [m4], steps + [CheckDone(1, true)];
  }

  /** Whatever the call has in hand is newer than g. */
  predicate HandIsNewer(call: Call, g: nat) {
    call.phase.Checking? || call.phase.Closing? || call.phase.Returned? ==> call.phase.handle.generation > g
  }

  /** Once a key was dropped with generation g, all that is cached for it, or in the hands of
      call c, which had not yet entered then, is newer. */
  ghost predicate Renewed(m: Manager, key: Key, c: nat, g: nat) {
    && Generation(m, key) >= g
    && (key in m.sessions ==> m.sessions[key].generation > g)
    && (In(m, c) && m.calls[c].key == key ==> HandIsNewer(m.calls[c], g))
  }

  lemma RenewedMove(p: SessionPolicy, m: Manager, step: Step, key: Key, c: nat, g: nat)
    requires Enabled(m, step) && Moves(step) && m.calls[step.call].key != key && Renewed(m, key, c, g)
    ensures Renewed(Apply(p, m, step), key, c, g)
  {
    StepMoves(p, m, step);
    OtherKeys(p, m, step, key);
  }

  lemma RenewedOwn(p: SessionPolicy, m: Manager, step: Step, key: Key, c: nat, g: nat)
    requires Enabled(m, step) && Moves(step) && !step.Enter? && !step.OpenDone?
    requires m.calls[step.call].key == key && Renewed(m, key, c, g)
    ensures Renewed(Apply(p, m, step), key, c, g)
  {
    StepKeeps(p, m, step);
    StepMoves(p, m, step);
  }

  lemma RenewedOpened(p: SessionPolicy, m: Manager, e: nat, driver: Driver, now: real, key: Key, c: nat, g: nat)
    requires Enabled(m, OpenDone(e, driver, now)) && m.calls[e].key == key && Renewed(m, key, c, g)
    ensures Renewed(Opened(m, e, driver, now), key, c, g)
  {
    var n := Opened(m, e, driver, now);
    assert Generation(n, key) == Generation(m, key) + 1;
  }

  lemma RenewedEnter(p: SessionPolicy, m: Manager, e: nat, now: real, left: real, key: Key, c: nat, g: nat)
    requires Enabled(m, Enter(e, now, left)) && m.calls[e].key == key && Renewed(m, key, c, g)
    ensures Renewed(Entered(p, m, e, now, left), key, c, g)
  {
    var n := Entered(p, m, e, now, left);
    assert Generation(n, key) == Generation(m, key);
  }

  lemma RenewedStep(p: SessionPolicy, m: Manager, step: Step, key: Key, c: nat, g: nat)
    requires Enabled(m, step) && Renewed(m, key, c, g)
    ensures Renewed(Apply(p, m, step), key, c, g)
  {
    if Moves(step) {
      if m.calls[step.call].key == key {
        match step
        case Enter(e, now, left) => RenewedEnter(p, m, e, now, left, key, c, g);
        case OpenDone(e, driver, now) => RenewedOpened(p, m, e, driver, now, key, c, g);
        case _ => RenewedOwn(p, m, step, key, c, g);
      } else {
        RenewedMove(p, m, step, key, c, g);
      }
    }
  }

  lemma {:induction false} StaysRenewed(p: SessionPolicy, trace: seq<Manager>, steps: seq<Step>, key: Key, c: nat,
      g: nat, i: nat, j: nat)
    requires IsRun(p, trace, steps) && i <= j < |trace| && Renewed(trace[i], key, c, g)
    ensures Renewed(trace[j], key, c, g)
    decreases j
  {
    if i < j {
      StaysRenewed(p, trace, steps, key, c, g, i, j - 1);
      RenewedStep(p, trace[j - 1], steps[j - 1], key, c, g);
    }
  }

  /** Invalidation is final: a call that had not entered the lock when its key was dropped
      never returns a session opened before that. */
  lemma InvalidationIsFinal(p: SessionPolicy, trace: seq<Manager>, steps: seq<Step>, i: nat, j: nat, c: nat)
    requires IsRun(p, trace, steps) && i < |steps| && i < j < |trace|
    requires In(trace[j], c) && trace[j].calls[c].phase.Returned?
    requires Drops(steps[i], trace[j].calls[c].key)
    requires In(trace[i], c) ==> trace[i].calls[c].phase == Waiting
    ensures trace[j].calls[c].phase.handle.generation > Generation(trace[i], trace[j].calls[c].key)
  {
    var key := trace[j].calls[c].key;
    assert trace[i + 1] == Apply(p, trace[i], steps[i]);
    StaysRenewed(p, trace, steps, key, c, Generation(trace[i], key), i + 1, j);
  }

  // ---------- tries ----------

  /** The step reads the task's deadline and finds it passed. */
  predicate Expired(step: Step) {
    (step.Enter? || step.CloseDone? || step.Wake?) && step.left <= 0.0
  }

  lemma TriesStep(p: SessionPolicy, m: Manager, step: Step, c: nat)
    requires CallsValid(p, m) && Enabled(m, step) && Moves(step) && step.call == c && In(Apply(p, m, step), c)
    requires m.calls[c].phase != Raised && Apply(p, m, step).calls[c].phase == Raised
    ensures m.calls[c].tries >= p.maxOpenAttempts || Expired(step)
  {
    assert CallValid(p, m.made, Generation(m, m.calls[c].key), m.calls[c]);
  }

  /** A call tries to open at most `maxOpenAttempts` sessions, and raises only when it has
      tried them all or its task's deadline has passed. */
  lemma TriesAreSpent(p: SessionPolicy, trace: seq<Manager>, steps: seq<Step>, k: nat, c: nat)
    requires IsRun(p, trace, steps) && k < |steps| && In(trace[k], c)
    ensures In(trace[k + 1], c)
    ensures trace[k + 1].calls[c].tries <= (if p.maxOpenAttempts < 0 then 0 else p.maxOpenAttempts)
    ensures trace[k].calls[c].phase != Raised && trace[k + 1].calls[c].phase == Raised ==>
              trace[k].calls[c].tries >= p.maxOpenAttempts || Expired(steps[k])
  {
    RunValid(p, trace, steps, k);
    RunValid(p, trace, steps, k + 1);
    KeyStays(p, trace, steps, c, k, k + 1);
    var m, n := trace[k], trace[k + 1];
    assert CallValid(p, n.made, Generation(n, n.calls[c].key), n.calls[c]);
    if m.calls[c].phase != Raised && n.calls[c].phase == Raised {
      assert n == Apply(p, m, steps[k]);
      if Moves(steps[k]) && steps[k].call != c {
        StepMoves(p, m, steps[k]);
      } else {
        TriesStep(p, m, steps[k], c);
      }
    }
  }
}
