/** Every transition of the scheduler keeps its invariants. */
module SchedulerProofs {
  import opened Counting
  import opened Tasks
  import opened Scheduler

  /** The owner of a live task is its only carrier. */
  lemma SoleCarrier(s: Sched, w: nat, id: TaskId)
    requires Conserved(s) && w < |s.workers| && Owns(s.workers[w], id)
    ensures Live(s, id)
    ensures Some(id) !in s.queue
    ensures forall i | 0 <= i < |s.retries| :: s.retries[i].task != id
    ensures forall v | 0 <= v < |s.workers| && v != w :: !Owns(s.workers[v], id)
  {
    assert OwnerOf(id)(s.workers[w]);
    CountZero(s.workers, OwnerOf(id));
    assert Carriers(s, id) == 1;
    CountZero(s.queue, EntryOf(id));
    CountZero(s.retries, RetryOf(id));
    forall v | 0 <= v < |s.workers| && v != w ensures !Owns(s.workers[v], id) {
      if Owns(s.workers[v], id) {
        CountTwo(s.workers, if v < w then v else w, if v < w then w else v, OwnerOf(id));
      }
    }
    forall i | 0 <= i < |s.retries| ensures s.retries[i].task != id {
      assert !RetryOf(id)(s.retries[i]);
    }
    forall i | 0 <= i < |s.queue| ensures s.queue[i] != Some(id) {
      assert !EntryOf(id)(s.queue[i]);
    }
  }

  lemma QuietMeansTerminal(s: Sched)
    requires Conserved(s) && CountersValid(s)
    requires OnlyPills(s.queue) && s.inflight == 0 && s.pendingRetries == 0
    ensures AllTerminal(s, s.records.Keys)
  {
    CountZero(s.workers, BUSY);
    forall id | id in s.records ensures Terminal(s.records[id].state) {
      CountZero(s.queue, EntryOf(id));
      assert forall w | 0 <= w < |s.workers| :: !BUSY(s.workers[w]) && !OwnerOf(id)(s.workers[w]);
      CountZero(s.workers, OwnerOf(id));
      assert Carriers(s, id) == 0;
    }
  }

  lemma SettledValid(s: Sched)
    requires Unsettled(s)
    ensures Valid(Settled(s))
  {
    var s' := Settled(s);
    if s' != s {
      QuietMeansTerminal(s);
    }
    assert forall id :: Carriers(s', id) == Carriers(s, id);
  }

  // ---------- a worker moves on, and its task with it ----------

  /** `s'` is `s` after worker `w`, which owned `id`, changed phase, updated that record
      and perhaps scheduled its retry. */
  ghost predicate Move(s: Sched, s': Sched, w: nat, id: TaskId) {
    && w < |s.workers| && |s'.workers| == |s.workers|
    && s'.workers == s.workers[w := s'.workers[w]]
    && Owns(s.workers[w], id) && BUSY(s'.workers[w])
    && s'.queue == s.queue && s'.drains == s.drains && s'.inflight == s.inflight
    && id in s.records && id in s'.records && s'.records == s.records[id := s'.records[id]]
    && s'.records[id].spec == s.records[id].spec && RecordValid(s'.records[id])
    && (Owns(s'.workers[w], id) ==>
          s'.records[id].state == Running && (s'.workers[w].Executing? || s'.workers[w].Failing?))
    && ((s'.retries == s.retries && s'.pendingRetries == s.pendingRetries && s'.idle == s.idle
         && (Owns(s'.workers[w], id) <==> Live(s', id)))
        || (exists due :: s'.retries == s.retries + [Retry(id, due)] && s'.pendingRetries == s.pendingRetries + 1
                          && !s'.idle && !Owns(s'.workers[w], id) && s'.records[id].state == Pending))
    && (Owning(s'.workers[w]) ==> s'.workers[w].task == id)
  }

  lemma MoveConserved(s: Sched, s': Sched, w: nat, id: TaskId)
    requires Valid(s) && Move(s, s', w, id)
    ensures Conserved(s')
  {
    SoleCarrier(s, w, id);
    forall x ensures Carriers(s', x) == if Live(s', x) then 1 else 0 {
      CountUpdate(s.workers, w, s'.workers[w], OwnerOf(x));
      assert Carriers(s, x) == if Live(s, x) then 1 else 0;
      if s'.retries != s.retries {
        var due :| s'.retries == s.retries + [Retry(id, due)];
        CountAppend(s.retries, [Retry(id, due)], RetryOf(x));
      }
    }
  }

  lemma MovePhases(s: Sched, s': Sched, w: nat, id: TaskId)
    requires Valid(s) && Move(s, s', w, id)
    ensures PhasesValid(s') && RecordsValid(s')
  {
    SoleCarrier(s, w, id);
    assert forall v | 0 <= v < |s'.workers| && v != w :: s'.workers[v] == s.workers[v] && !Owns(s.workers[v], id);
  }

  lemma MoveCounters(s: Sched, s': Sched, w: nat, id: TaskId)
    requires Valid(s) && Move(s, s', w, id)
    ensures CountersValid(s') && IdleValid(s') && DrainsValid(s') && !s'.idle
  {
    SoleCarrier(s, w, id);
    CountUpdate(s.workers, w, s'.workers[w], BUSY);
    CountZero(s'.workers, BUSY);
    CountZero(s.workers, BUSY);
  }

  lemma MoveValid(s: Sched, s': Sched, w: nat, id: TaskId)
    requires Valid(s) && Move(s, s', w, id)
    ensures Valid(s')
  {
    MoveConserved(s, s', w, id);
    MovePhases(s, s', w, id);
    MoveCounters(s, s', w, id);
  }

  /** What a step needs to know of the state to be a `Move`. */
  ghost predicate Ready(s: Sched, w: nat, id: TaskId) {
    && w < |s.workers| && Owns(s.workers[w], id)
    && id in s.records && RecordValid(s.records[id]) && !Terminal(s.records[id].state)
    && (s.workers[w].Acquiring? ==> s.records[id].state == Pending)
    && (!s.workers[w].Acquiring? ==> s.records[id].state == Running)
  }

  lemma OwnerReady(s: Sched, w: nat, id: TaskId)
    requires Valid(s) && w < |s.workers| && Owns(s.workers[w], id)
    ensures Ready(s, w, id)
  {
    SoleCarrier(s, w, id);
  }

  lemma AbandonedAtMove(s: Sched, w: nat, id: TaskId)
    requires Ready(s, w, id)
    ensures Move(s, AbandonedAt(s, w, id), w, id)
  {
  }

  lemma AttemptStartedMove(s: Sched, w: nat, id: TaskId, handle: nat, device: DeviceId)
    requires Ready(s, w, id) && s.workers[w].Acquiring?
    ensures Move(s, AttemptStarted(s, w, id, handle, device), w, id)
  {
  }

  lemma ExecutionDoneMove(s: Sched, w: nat, id: TaskId, handle: nat, o: Outcome)
    requires Ready(s, w, id) && s.workers[w].Executing?
    ensures Move(s, ExecutionDone(s, w, id, handle, o), w, id)
  {
  }

  lemma RequeuedMove(p: SchedulerPolicy, s: Sched, w: nat, id: TaskId, reason: string, now: real, draw: real,
      phase: Worker)
    requires Ready(s, w, id) && !s.workers[w].Executing?
    requires phase.Releasing? || phase.Tail?
    ensures Move(s, At(Requeued(p, s, id, reason, now, draw), w, phase), w, id)
  {
    var rec := s.records[id];
    var s' := At(Requeued(p, s, id, reason, now, draw), w, phase);
    if |rec.attempts| < rec.spec.maxAttempts {
      assert s'.retries == s.retries + [Retry(id, now + Backoff(p, |rec.attempts|, draw))];
    }
  }

  // ---------- the other transitions ----------

  lemma SubmittedConserved(p: SchedulerPolicy, s: Sched, spec: TaskSpec)
    requires Conserved(s) && spec.id !in s.records
    ensures Conserved(Submitted(p, s, spec))
  {
    var s' := Submitted(p, s, spec);
    forall id ensures Carriers(s', id) == if Live(s', id) then 1 else 0 {
      CountAppend(s.queue, [Some(spec.id)], EntryOf(id));
      assert Carriers(s, id) == if Live(s, id) then 1 else 0;
    }
  }

  lemma SubmittedPhases(p: SchedulerPolicy, s: Sched, spec: TaskSpec)
    requires PhasesValid(s) && spec.id !in s.records
    ensures PhasesValid(Submitted(p, s, spec))
  {
  }

  lemma SubmittedRecords(p: SchedulerPolicy, s: Sched, spec: TaskSpec)
    requires RecordsValid(s)
    ensures RecordsValid(Submitted(p, s, spec))
  {
  }

  lemma SubmittedValid(p: SchedulerPolicy, s: Sched, spec: TaskSpec)
    requires Valid(s) && spec.id !in s.records
    ensures Valid(Submitted(p, s, spec))
  {
    SubmittedConserved(p, s, spec);
    SubmittedPhases(p, s, spec);
    SubmittedRecords(p, s, spec);
  }

  lemma StartedValid(p: SchedulerPolicy, s: Sched)
    requires Valid(s)
    ensures Valid(Started(p, s))
  {
    var s' := Started(p, s);
    var crew: seq<Worker> := seq(p.workers, _ => Idle);
    if !s.running {
      CountAppend(s.workers, crew, BUSY);
      CountZero(crew, BUSY);
      assert forall w | 0 <= w < |s.workers| :: s.workers[w] == s'.workers[w];
      forall id ensures Carriers(s', id) == Carriers(s, id) {
        CountAppend(s.workers, crew, OwnerOf(id));
        CountZero(crew, OwnerOf(id));
      }
    }
  }

  lemma StopAskedValid(s: Sched)
    requires Valid(s)
    ensures Valid(StopAsked(s))
  {
    var s' := StopAsked(s);
    var pills: seq<Option<TaskId>> := seq(|s.workers|, _ => None);
    if s.running {
      forall id ensures Carriers(s', id) == Carriers(s, id) {
        CountAppend(s.queue, pills, EntryOf(id));
        CountZero(pills, EntryOf(id));
      }
    }
  }

  lemma DrainBegunValid(s: Sched, k: nat)
    requires Valid(s)
    ensures Valid(DrainBegun(s, k))
  {
    var s' := DrainBegun(s, k);
    assert forall id :: Carriers(s', id) == Carriers(s, id);
    if s.idle {
      QuietMeansTerminal(s);
    }
  }

  lemma DrainOverValid(s: Sched, k: nat)
    requires Valid(s)
    ensures Valid(DrainOver(s, k))
  {
    assert forall id :: Carriers(DrainOver(s, k), id) == Carriers(s, id);
  }

  lemma DequeuedConserved(s: Sched, w: nat)
    requires Conserved(s) && w < |s.workers| && s.workers[w].Idle? && s.queue != []
    ensures Conserved(Dequeued(s, w))
  {
    var s' := Dequeued(s, w);
    forall id ensures Carriers(s', id) == Carriers(s, id) {
      CountUpdate(s.workers, w, s'.workers[w], OwnerOf(id));
    }
  }

  lemma DequeuedPhases(s: Sched, w: nat)
    requires PhasesValid(s) && w < |s.workers| && s.workers[w].Idle? && s.queue != []
    ensures PhasesValid(Dequeued(s, w))
    ensures s.queue[0].Some? ==>
              s.queue[0].value in s.records && s.records[s.queue[0].value].state == Pending
  {
    assert s.queue[0] in s.queue;
  }

  lemma DequeuedCounters(s: Sched, w: nat)
    requires Valid(s) && w < |s.workers| && s.workers[w].Idle? && s.queue != []
    ensures CountersValid(Dequeued(s, w)) && IdleValid(Dequeued(s, w))
  {
    var s' := Dequeued(s, w);
    CountUpdate(s.workers, w, s'.workers[w], BUSY);
    CountZero(s.workers, BUSY);
    assert s'.workers[w] == s.workers[w := s'.workers[w]][w];
  }

  lemma DequeuedValid(s: Sched, w: nat)
    requires Valid(s) && w < |s.workers| && s.workers[w].Idle? && s.queue != []
    ensures Valid(Dequeued(s, w))
    ensures s.queue[0].Some? ==>
              s.queue[0].value in s.records && s.records[s.queue[0].value].state == Pending
  {
    DequeuedConserved(s, w);
    DequeuedPhases(s, w);
    DequeuedCounters(s, w);
  }

  lemma LeaseReturnedValid(s: Sched, w: nat)
    requires Valid(s) && w < |s.workers| && s.workers[w].Releasing?
    ensures Valid(LeaseReturned(s, w))
  {
    var s' := LeaseReturned(s, w);
    CountUpdate(s.workers, w, s'.workers[w], BUSY);
    forall id ensures Carriers(s', id) == Carriers(s, id) {
      CountUpdate(s.workers, w, s'.workers[w], OwnerOf(id));
    }
    CountZero(s.workers, BUSY);
  }

  lemma TailDoneValid(s: Sched, w: nat)
    requires Valid(s) && w < |s.workers| && s.workers[w].Tail?
    ensures Valid(TailDone(s, w))
  {
    var u := At(s, w, Idle).(inflight := s.inflight - 1);
    CountUpdate(s.workers, w, Idle, BUSY);
    forall id ensures Carriers(u, id) == Carriers(s, id) {
      CountUpdate(s.workers, w, Idle, OwnerOf(id));
    }
    CountZero(s.workers, BUSY);
    SettledValid(u);
  }

  lemma RetryFiredValid(s: Sched, i: nat)
    requires Valid(s) && i < |s.retries|
    ensures Valid(RetryFired(s, i))
  {
    var id := s.retries[i].task;
    var u := s.(
    queue := s.queue + [Some(id)],
    retries := s.retries[..i] + s.retries[i + 1..],
    pendingRetries := s.pendingRetries - 1);
    forall x ensures Carriers(u, x) == Carriers(s, x) {
      CountRemove(s.retries, i, RetryOf(x));
      CountAppend(s.queue, [Some(id)], EntryOf(x));
    }
    SettledValid(u);
  }
}
