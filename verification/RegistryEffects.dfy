/** What the monitor may and may not do to the registry. */
module RegistryEffects {
  import opened Tasks
  import opened Devices
  import opened Health

  /** Same devices, but for verdicts and recovery counts. */
  ghost predicate SameInventory(r: Registry, r': Registry) {
    && r'.born == r.born
    && r'.devices.Keys == r.devices.Keys
    && forall d | d in r.devices :: r'.devices[d].(state := Online, recoveries := 0)
                                    == r.devices[d].(state := Online, recoveries := 0)
  }

  /** Same inventory, same leases, same waiters; only verdicts and counts may differ. */
  ghost predicate SameBooks(r: Registry, r': Registry) {
    && SameInventory(r, r')
    && r'.leases == r.leases && r'.issued == r.issued
    && r'.waiters.Keys == r.waiters.Keys
    && (forall w | w in r.waiters ::
          r'.waiters[w].selector == r.waiters[w].selector && r'.waiters[w].deadline == r.waiters[w].deadline)
  }

  /** Both halves of what a monitor step owes the registry. */
  ghost predicate Kept(r: Registry, r': Registry) {
    SameBooks(r, r') && (Devices.Valid(r) ==> Devices.Valid(r'))
  }

  lemma KeptTwice(r: Registry, r': Registry, r'': Registry)
    requires Kept(r, r') && Kept(r', r'')
    ensures Kept(r, r'')
  {
  }

  lemma ForcedKept(r: Registry, d: DeviceId, state: DeviceState)
    ensures Kept(r, StateForced(r, d, state))
  {
    assert SameBooks(r, StateForced(r, d, state));
    if Devices.Valid(r) {
      StateForcedValid(r, d, state);
    }
  }

  lemma BookedFree(f: Fleet, d: DeviceId, now: real, sel: DeviceSelector)
    requires d in f.reg.devices && FindFree(f.reg, sel) == None
    ensures FindFree(Booked(f, d, now).reg, sel) == None
  {
    assert forall x :: Free(Booked(f, d, now).reg, x, sel) <==> Free(f.reg, x, sel);
  }

  lemma BookedKept(f: Fleet, d: DeviceId, now: real)
    requires d in f.reg.devices
    ensures Kept(f.reg, Booked(f, d, now).reg)
  {
    var r := f.reg;
    var r' := Booked(f, d, now).reg;
    assert SameBooks(r, r');
    if Devices.Valid(r) {
      forall w | w in r'.waiters && !r'.waiters[w].notified
        ensures FindFree(r', r'.waiters[w].selector) == None
      {
        BookedFree(f, d, now, r.waiters[w].selector);
      }
    }
  }

  lemma QuarantineKept(f: Fleet, d: DeviceId, now: real)
    ensures Kept(f.reg, Quarantine(f, d, now).reg)
  {
    ForcedKept(f.reg, d, Quarantined);
  }

  lemma RestoreKept(f: Fleet, d: DeviceId, reason: RestoreReason, now: real)
    ensures Kept(f.reg, Restore(f, d, reason, now).reg)
  {
    ForcedKept(f.reg, d, Online);
  }

  lemma KeptSelf(r: Registry)
    ensures Kept(r, r)
  {
  }

  lemma ProbeSucceededKept(f: Fleet, d: DeviceId, now: real)
    requires d in f.reg.devices
    ensures Kept(f.reg, ProbeSucceeded(f, d, now).reg)
  {
    if StateOf(f, d) == Quarantined {
      RestoreKept(f, d, ProbeRecovered, now);
    } else {
      KeptSelf(f.reg);
    }
  }

  lemma ProbeFailedKept(p: HealthPolicy, f: Fleet, d: DeviceId, now: real)
    requires d in f.reg.devices
    ensures Kept(f.reg, ProbeFailed(p, f, d, now).reg)
  {
    if ProbeFailed(p, f, d, now).reg == f.reg {
      KeptSelf(f.reg);
    } else {
      QuarantineKept(f, d, now);
    }
  }

  lemma DeadKept(p: HealthPolicy, f: Fleet, d: DeviceId, now: real, g: Fleet, h: Fleet)
    requires d in g.reg.devices && g.reg == f.reg && h == ProbeFailed(p, g, d, now)
    ensures Kept(f.reg, h.reg)
  {
    ProbeFailedKept(p, g, d, now);
  }

  lemma AliveKept(f: Fleet, d: DeviceId, now: real, g: Fleet, h: Fleet)
    requires d in g.reg.devices && g.reg == f.reg && h == ProbeSucceeded(g, d, now)
    ensures Kept(f.reg, h.reg)
  {
    ProbeSucceededKept(g, d, now);
  }

  lemma CheckDoneKept(p: HealthPolicy, f: Fleet, d: DeviceId, result: Probe, now: real)
    requires d in f.reg.devices
    ensures Kept(f.reg, CheckDone(p, f, d, result, now).reg)
  {
    match result
    case Raised => KeptSelf(f.reg);
    case Alive => AliveKept(f, d, now, ProbeCounted(f, d, 0), CheckDone(p, f, d, Alive, now));
    case Dead =>
      var failures := HealthOf(f.mon, d).consecutiveFailures + 1;
      DeadKept(p, f, d, now, ProbeCounted(f, d, failures), CheckDone(p, f, d, Dead, now));
  }

  lemma AttemptKept(p: HealthPolicy, f: Fleet, d: DeviceId, attempt: nat, now: real)
    requires d in f.reg.devices
    ensures AttemptBegun(p, f, d, attempt, now).reg == f.reg
    ensures AttemptFailed(p, f, d, attempt, now).reg == f.reg
  {
  }

  lemma RecoveryBegunKept(p: HealthPolicy, f: Fleet, d: DeviceId, now: real)
    requires d in f.reg.devices
    ensures Kept(f.reg, RecoveryBegun(p, f, d, now).reg)
  {
    var g := WithHealth(f, d, Pruned(p, HealthOf(f.mon, d), now));
    RestoreKept(g, d, VirtualSlot, now);
    ForcedKept(g.reg, d, Retired);
    AttemptKept(p, g, d, 1, now);
  }

  lemma RecoveredKept(f: Fleet, d: DeviceId, now: real)
    requires d in f.reg.devices
    ensures Kept(f.reg, Recovered(f, d, now).reg)
  {
    BookedKept(f, d, now);
    RestoreKept(Booked(f, d, now), d, AdbReconnect, now);
    KeptTwice(f.reg, Booked(f, d, now).reg, Recovered(f, d, now).reg);
  }

  lemma ReconnectDoneKept(p: HealthPolicy, f: Fleet, d: DeviceId, attempt: nat, result: Probe, now: real)
    requires d in f.reg.devices
    ensures ReconnectDone(p, f, d, attempt, result, now).reg == f.reg
    ensures Kept(f.reg, RecoveryProbed(p, f, d, attempt, result, now).reg)
  {
    AttemptKept(p, f, d, attempt, now);
    RecoveredKept(f, d, now);
  }
}
