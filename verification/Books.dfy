/** The lease table, the parked waiters and the workers tell the same story. */
module Books {
  import opened Devices
  import opened Scheduler

  ghost predicate Holds(s: Sched, w: nat, h: nat) {
    w < |s.workers| && HasLease(s.workers[w]) && s.workers[w].lease == h
  }

  /** Every unreleased lease has one worker that holds it. */
  ghost predicate LeasesHeld(r: Registry, s: Sched) {
    && (forall w: nat, h: nat | Holds(s, w, h) :: h < |r.issued| && !r.issued[h].released)
    && (forall v: nat, w: nat, h: nat | Holds(s, v, h) && Holds(s, w, h) :: v == w)
    && (forall h | 0 <= h < |r.issued| && !r.issued[h].released :: exists w: nat :: Holds(s, w, h))
  }

  ghost predicate Parks(r: Registry, s: Sched, w: nat) {
    && (w in r.waiters ==> w < |s.workers| && s.workers[w].Acquiring?)
    && (w < |s.workers| && s.workers[w].Acquiring? ==>
          && w in r.waiters && s.workers[w].task in s.records
          && r.waiters[w].selector == s.records[s.workers[w].task].spec.selector)
  }

  /** A worker that waits for a device is parked with its task's selector. */
  ghost predicate WaitersParked(r: Registry, s: Sched) {
    forall w: nat :: Parks(r, s, w)
  }

  ghost predicate Attempts(r: Registry, s: Sched, w: nat) {
    w < |s.workers| && (s.workers[w].Executing? || s.workers[w].Failing?) ==>
      && s.workers[w].task in s.records
      && var attempts := s.records[s.workers[w].task].attempts;
      attempts != [] && s.workers[w].lease < |r.issued|
      && attempts[|attempts| - 1].deviceId == r.issued[s.workers[w].lease].device
  }

  /** A task that runs on a device has recorded that device. */
  ghost predicate AttemptsRecorded(r: Registry, s: Sched) {
    forall w: nat :: Attempts(r, s, w)
  }

  ghost predicate BooksAgree(r: Registry, s: Sched) {
    LeasesHeld(r, s) && WaitersParked(r, s) && AttemptsRecorded(r, s)
  }

  /** No two workers are on one device. */
  lemma HoldersApart(r: Registry, s: Sched, v: nat, w: nat, g: nat, h: nat)
    requires LeasesValid(r) && LeasesHeld(r, s) && Holds(s, v, g) && Holds(s, w, h) && v != w
    ensures r.issued[g].device != r.issued[h].device
  {
  }

  // ---------- what keeps the books in agreement ----------

  ghost predicate OnlyWorker(s: Sched, s': Sched, w: nat) {
    && w < |s.workers| && |s'.workers| == |s.workers|
    && forall v | 0 <= v < |s.workers| && v != w :: s'.workers[v] == s.workers[v]
  }

  lemma LeasesUntouched(r: Registry, s: Sched, s': Sched, w: nat)
    requires LeasesHeld(r, s) && OnlyWorker(s, s', w)
    requires HasLease(s.workers[w]) <==> HasLease(s'.workers[w])
    requires HasLease(s.workers[w]) ==> s'.workers[w].lease == s.workers[w].lease
    ensures LeasesHeld(r, s')
  {
    assert forall v: nat, h: nat :: Holds(s', v, h) <==> Holds(s, v, h);
  }

  lemma LeaseGranted(r: Registry, r': Registry, s: Sched, s': Sched, w: nat)
    requires LeasesHeld(r, s) && OnlyWorker(s, s', w) && !HasLease(s.workers[w])
    requires |r'.issued| == |r.issued| + 1 && r'.issued[..|r.issued|] == r.issued && !r'.issued[|r.issued|].released
    requires Holds(s', w, |r.issued|)
    ensures LeasesHeld(r', s')
  {
    assert forall v: nat, h: nat | v != w :: Holds(s', v, h) <==> Holds(s, v, h);
    assert forall h | 0 <= h < |r.issued| :: r'.issued[h] == r.issued[h];
    assert forall v: nat, h: nat | Holds(s, v, h) :: v != w && Holds(s', v, h);
  }

  lemma LeaseGone(r: Registry, r': Registry, s: Sched, s': Sched, w: nat, h: nat)
    requires LeasesHeld(r, s) && OnlyWorker(s, s', w) && Holds(s, w, h) && !HasLease(s'.workers[w])
    requires |r'.issued| == |r.issued| && h < |r.issued| && r'.issued[h].released
    requires forall i | 0 <= i < |r.issued| && i != h :: r'.issued[i] == r.issued[i]
    ensures LeasesHeld(r', s')
  {
    assert forall v: nat, g: nat | v != w :: Holds(s', v, g) <==> Holds(s, v, g);
    forall g | 0 <= g < |r'.issued| && !r'.issued[g].released ensures exists v: nat :: Holds(s', v, g) {
      var v: nat :| Holds(s, v, g);
      assert Holds(s', v, g);
    }
  }

  /** Only `w` came, went or changed what it waits for. */
  lemma WaitersMoved(r: Registry, r': Registry, s: Sched, s': Sched, w: nat)
    requires OnlyWorker(s, s', w)
    requires forall v: nat | v != w :: Parks(r, s, v)
    requires forall v: nat | v != w :: v in r'.waiters <==> v in r.waiters
    requires forall v: nat | v != w && v in r.waiters :: r'.waiters[v].selector == r.waiters[v].selector
    requires forall id | id in s.records :: id in s'.records && s'.records[id].spec == s.records[id].spec
    requires Parks(r', s', w)
    ensures WaitersParked(r', s')
  {
    forall v: nat ensures Parks(r', s', v) {
      if v != w {
        assert Parks(r, s, v);
      }
    }
  }

  /** Nobody but `w` had its task's record or its lease changed. */
  lemma AttemptsMoved(r: Registry, r': Registry, s: Sched, s': Sched, w: nat)
    requires OnlyWorker(s, s', w) && AttemptsRecorded(r, s)
    requires |r.issued| <= |r'.issued|
    requires forall h | 0 <= h < |r.issued| :: r'.issued[h].device == r.issued[h].device
    requires forall v: nat | v < |s.workers| && v != w && Owning(s.workers[v]) && s.workers[v].task in s.records ::
               s.workers[v].task in s'.records && s'.records[s.workers[v].task] == s.records[s.workers[v].task]
    requires Attempts(r', s', w)
    ensures AttemptsRecorded(r', s')
  {
    forall v: nat ensures Attempts(r', s', v) {
      if v != w {
        assert Attempts(r, s, v);
      }
    }
  }

  lemma BooksFleet(r: Registry, r': Registry, s: Sched)
    requires BooksAgree(r, s) && r'.issued == r.issued && r'.waiters.Keys == r.waiters.Keys
    requires forall w | w in r.waiters :: r'.waiters[w].selector == r.waiters[w].selector
    ensures BooksAgree(r', s)
  {
    assert forall w: nat | Parks(r, s, w) :: Parks(r', s, w);
    assert forall w: nat | Attempts(r, s, w) :: Attempts(r', s, w);
  }
}
