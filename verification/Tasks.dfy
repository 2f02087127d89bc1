/** The task contract: what a unit of work is and how an attempt can end. */
module Tasks {
  datatype DeviceId = DeviceId(serial: string)
  datatype TaskId = TaskId(name: string)

  datatype Option<+T> = None | Some(value: T)

  /** `Assigned` is declared by the original but never entered by its scheduler. */
  datatype TaskState = Pending | Assigned | Running | Succeeded | Failed | Rejected | Abandoned

  predicate Terminal(state: TaskState) {
    state in {Succeeded, Failed, Rejected, Abandoned}
  }

  /** An empty component puts no demand on the device; an empty pin is no pin. */
  datatype DeviceSelector = DeviceSelector(transports: seq<string>, tags: seq<string>, deviceId: Option<DeviceId>)

  datatype TaskSpec = TaskSpec(id: TaskId, kind: string, selector: DeviceSelector, maxAttempts: int)

  datatype Attempt = Attempt(number: nat, deviceId: DeviceId, ended: bool, error: Option<string>)

  datatype TaskRecord = TaskRecord(
    spec: TaskSpec,
    state: TaskState,
    attempts: seq<Attempt>,
    result: Option<string>,
    error: Option<string>)

  /** The three ways the contract names, and the three the scheduler adds. */
  datatype Outcome =
    | Success(result: string)
    | Fatal(reason: string)
    | Retryable(reason: string, blamesDevice: bool)
    | SessionFailure(reason: string)
    | TimedOut(reason: string)
    | Crashed(reason: string)

  predicate IsFailure(o: Outcome) {
    !o.Success? && !o.Fatal?
  }

  /** Everything unclassified counts as evidence against the device. */
  predicate Blames(o: Outcome)
    requires IsFailure(o)
  {
    if o.Retryable? then o.blamesDevice else true
  }

  /** No task makes more attempts than this. One is always started if a device is leased, even
      with a `maxAttempts` of zero; only a lease timeout can then fail the task with none. */
  function AttemptLimit(spec: TaskSpec): (n: nat)
    ensures n >= 1 && n >= spec.maxAttempts
  {
    if spec.maxAttempts < 1 then 1 else spec.maxAttempts
  }

  /** Twice `base`, k times over: `base * 2 ** k` in ideal arithmetic. */
  function Doubled(base: real, k: nat): real {
    if k == 0 then base else 2.0 * Doubled(base, k - 1)
  }

  function Min(x: real, y: real): real {
    if x < y then x else y
  }

  function PowerOfTwo(k: nat): (n: nat)
    ensures n >= 1
  {
    if k == 0 then 1 else 2 * PowerOfTwo(k - 1)
  }

  function Scaled(base: real, k: nat): real {
    base * PowerOfTwo(k) as real
  }

  lemma {:induction false} DoubledIsScaled(base: real, k: nat)
    ensures Doubled(base, k) == Scaled(base, k)
  {
    if k > 0 {
      DoubledIsScaled(base, k - 1);
      assert PowerOfTwo(k) as real == 2.0 * PowerOfTwo(k - 1) as real;
      assert 2.0 * (base * PowerOfTwo(k - 1) as real) == base * (2.0 * PowerOfTwo(k - 1) as real);
    }
  }
}
