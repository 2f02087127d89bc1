/** Probe, quarantine, recover, retire: the health monitor as functions on the fleet. */
module Health {
  import opened Tasks
  import opened Devices

  const ADB_TRANSPORTS: set<string> := {"usb", "tcp", "tunnel"}

  datatype HealthPolicy = HealthPolicy(
    failuresToQuarantine: nat,
    recoveryAttempts: nat,
    retireAfter: nat,
    window: real,
    backoffBase: real,
    backoffCap: real)

  predicate PolicyValid(p: HealthPolicy) {
    p.window >= 0.0
  }

  datatype DeviceHealth = DeviceHealth(
    consecutiveFailures: nat,
    recoveryTimes: seq<real>,
    failedRecoveries: nat,
    nextRecoveryAt: real)

  const HEALTHY := DeviceHealth(0, [], 0, 0.0)

  datatype RestoreReason = ProbeRecovered | VirtualSlot | AdbReconnect

  datatype Notice =
    | DeviceQuarantined
    | DeviceRestored(reason: RestoreReason)
    | DeviceRetired
    | RecoveryFailed(episode: nat, delay: real)

  datatype Event = Event(time: real, device: DeviceId, notice: Notice)

  /** Where a background recovery is suspended. */
  datatype Recovery =
    | Spawned
    | Reconnecting(attempt: nat)
    | Probing(attempt: nat)
    | Sleeping(attempt: nat, until: real)

  /** Where one device's check of the current sweep is suspended. */
  datatype Check = Due | CheckProbing

  datatype Probe = Alive | Dead | Raised

  datatype Monitor = Monitor(
    health: map<DeviceId, DeviceHealth>,
    recoveries: map<DeviceId, Recovery>,
    sweep: map<DeviceId, Check>,
    log: seq<Event>)

  const EMPTY_MONITOR := Monitor(map[], map[], map[], [])

  /** The devices and the monitor that judges them. */
  datatype Fleet = Fleet(reg: Registry, mon: Monitor)

  function HealthOf(m: Monitor, d: DeviceId): DeviceHealth {
    if d in m.health then m.health[d] else HEALTHY
  }

  function StateOf(f: Fleet, d: DeviceId): DeviceState
    requires d in f.reg.devices
  {
    f.reg.devices[d].state
  }

  function WithHealth(f: Fleet, d: DeviceId, h: DeviceHealth): Fleet {
    f.(mon := f.mon.(health := f.mon.health[d := h]))
  }

  function WithRecovery(f: Fleet, d: DeviceId, phase: Recovery): Fleet {
    f.(mon := f.mon.(recoveries := f.mon.recoveries[d := phase]))
  }

  /** The recovery task is done and its callback has removed it. */
  function RecoveryOver(f: Fleet, d: DeviceId): Fleet {
    f.(mon := f.mon.(recoveries := f.mon.recoveries - {d}))
  }

  function CheckOver(f: Fleet, d: DeviceId): Fleet {
    f.(mon := f.mon.(sweep := f.mon.sweep - {d}))
  }

  /** Force a registry state and publish the notice that goes with it. */
  function Judged(f: Fleet, d: DeviceId, state: DeviceState, notice: Notice, now: real): Fleet {
    Fleet(StateForced(f.reg, d, state), f.mon.(log := f.mon.log + [Event(now, d, notice)]))
  }

  /** How long the monitor waits after the k-th failed episode of an outage. */
  function Delay(p: HealthPolicy, k: nat): real
    requires k >= 1
  {
    var grown := Doubled(p.backoffBase, k - 1);
    if p.backoffCap < grown then p.backoffCap else grown
  }

  /** The times a filter `t >= cutoff` keeps. */
  function Since(times: seq<real>, cutoff: real): seq<real> {
    if times == [] then []
    else (if times[0] >= cutoff then [times[0]] else []) + Since(times[1..], cutoff)
  }

  function SpawnRecovery(f: Fleet, d: DeviceId, now: real): Fleet {
    if d in f.mon.recoveries then f
    else if now < HealthOf(f.mon, d).nextRecoveryAt then f
    else WithRecovery(f, d, Spawned)
  }

  function Quarantine(f: Fleet, d: DeviceId, now: real): Fleet {
    var marked := Judged(f, d, Quarantined, DeviceQuarantined, now);
    if d in marked.reg.devices then SpawnRecovery(marked, d, now) else marked
  }

  function Restore(f: Fleet, d: DeviceId, reason: RestoreReason, now: real): Fleet {
    var cleared := WithHealth(f, d, HealthOf(f.mon, d).(failedRecoveries := 0, nextRecoveryAt := 0.0));
    Judged(cleared, d, Online, DeviceRestored(reason), now)
  }

  function Retire(f: Fleet, d: DeviceId, now: real): Fleet {
    Judged(f, d, Retired, DeviceRetired, now)
  }

  // ---------- the sweep ----------

  function SweepBegun(f: Fleet): Fleet {
    f.(mon := f.mon.(sweep :=
                       map d | d in f.reg.devices && f.reg.devices[d].state in {Online, Quarantined} :: Due))
  }

  function CheckBegun(f: Fleet, d: DeviceId): Fleet {
    if d in f.reg.leases then CheckOver(f, d)
    else f.(mon := f.mon.(sweep := f.mon.sweep[d := CheckProbing]))
  }

  function ProbeCounted(f: Fleet, d: DeviceId, failures: nat): Fleet {
    WithHealth(CheckOver(f, d), d, HealthOf(f.mon, d).(consecutiveFailures := failures))
  }

  function ProbeSucceeded(f: Fleet, d: DeviceId, now: real): Fleet
    requires d in f.reg.devices
  {
    if StateOf(f, d) == Quarantined then Restore(f, d, ProbeRecovered, now) else f
  }

  function ProbeFailed(p: HealthPolicy, f: Fleet, d: DeviceId, now: real): Fleet
    requires d in f.reg.devices
  {
    if StateOf(f, d) == Online && HealthOf(f.mon, d).consecutiveFailures >= p.failuresToQuarantine
    then Quarantine(f, d, now)
    else if StateOf(f, d) == Quarantined then SpawnRecovery(f, d, now)
    else f
  }

  function CheckDone(p: HealthPolicy, f: Fleet, d: DeviceId, result: Probe, now: real): Fleet
    requires d in f.reg.devices
  {
    match result
    case Raised => CheckOver(f, d)
    case Alive => ProbeSucceeded(ProbeCounted(f, d, 0), d, now)
    case Dead => ProbeFailed(p, ProbeCounted(f, d, HealthOf(f.mon, d).consecutiveFailures + 1), d, now)
  }

  // ---------- the recovery ----------

  function Pruned(p: HealthPolicy, h: DeviceHealth, now: real): DeviceHealth {
    h.(recoveryTimes := Since(h.recoveryTimes, now - p.window))
  }

  /** The circuit breaker, then the repair the transport allows. */
  function EpisodeOpened(p: HealthPolicy, f: Fleet, d: DeviceId, now: real): Fleet
    requires d in f.reg.devices
  {
    if |HealthOf(f.mon, d).recoveryTimes| >= p.retireAfter then RecoveryOver(Retire(f, d, now), d)
    else if f.reg.devices[d].transport !in ADB_TRANSPORTS then RecoveryOver(Restore(f, d, VirtualSlot, now), d)
    else AttemptBegun(p, f, d, 1, now)
  }

  function RecoveryBegun(p: HealthPolicy, f: Fleet, d: DeviceId, now: real): Fleet
    requires d in f.reg.devices
  {
    EpisodeOpened(p, WithHealth(f, d, Pruned(p, HealthOf(f.mon, d), now)), d, now)
  }

  /** Head of the attempt loop; past its last round, the verdict. */
  function AttemptBegun(p: HealthPolicy, f: Fleet, d: DeviceId, attempt: nat, now: real): Fleet
    requires d in f.reg.devices
  {
    if StateOf(f, d) != Quarantined then RecoveryOver(f, d)
    else if attempt <= p.recoveryAttempts then WithRecovery(f, d, Reconnecting(attempt))
    else Exhausted(p, f, d, now)
  }

  function Exhausted(p: HealthPolicy, f: Fleet, d: DeviceId, now: real): Fleet {
    var h := HealthOf(f.mon, d);
    var k := h.failedRecoveries + 1;
    var g := WithHealth(f, d, h.(failedRecoveries := k, nextRecoveryAt := now + Delay(p, k)));
    RecoveryOver(g.(mon := g.mon.(log := g.mon.log + [Event(now, d, RecoveryFailed(k, Delay(p, k)))])), d)
  }

  function Pause(attempt: nat): real {
    if 2.0 * attempt as real < 10.0 then 2.0 * attempt as real else 10.0
  }

  function AttemptFailed(p: HealthPolicy, f: Fleet, d: DeviceId, attempt: nat, now: real): Fleet
    requires d in f.reg.devices
  {
    if attempt < p.recoveryAttempts then WithRecovery(f, d, Sleeping(attempt, now + Pause(attempt)))
    else AttemptBegun(p, f, d, attempt + 1, now)
  }

  function ReconnectDone(p: HealthPolicy, f: Fleet, d: DeviceId, attempt: nat, result: Probe, now: real): Fleet
    requires d in f.reg.devices
  {
    match result
    case Raised => RecoveryOver(f, d)
    case Alive => WithRecovery(f, d, Probing(attempt))
    case Dead => AttemptFailed(p, f, d, attempt, now)
  }

  /** The recovery is entered in the books: its time and the device's lifetime count. */
  function Booked(f: Fleet, d: DeviceId, now: real): Fleet
    requires d in f.reg.devices
  {
    var h := HealthOf(f.mon, d);
    var g := WithHealth(f, d, h.(recoveryTimes := h.recoveryTimes + [now], consecutiveFailures := 0));
    var dev := g.reg.devices[d];
    g.(reg := g.reg.(devices := g.reg.devices[d := dev.(recoveries := dev.recoveries + 1)]))
  }

  function Recovered(f: Fleet, d: DeviceId, now: real): Fleet
    requires d in f.reg.devices
  {
    RecoveryOver(Restore(Booked(f, d, now), d, AdbReconnect, now), d)
  }

  function RecoveryProbed(p: HealthPolicy, f: Fleet, d: DeviceId, attempt: nat, result: Probe, now: real): Fleet
    requires d in f.reg.devices
  {
    match result
    case Raised => RecoveryOver(f, d)
    case Alive => Recovered(f, d, now)
    case Dead => AttemptFailed(p, f, d, attempt, now)
  }
}
