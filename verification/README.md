# Device orchestrator: a Dafny model

This project models the state-changing core of the device orchestrator and proves what it
promises. The orchestrator leases phones and browser slots to tasks, retries failures, pulls
sick devices out of the pool, repairs or retires them, keeps sessions and tokens alive, and
feeds a live dashboard.

## How it is built

The kernel (scheduler, registry and health monitor) is one transition system. A step is the code
a coroutine runs between two suspension points, or a shorter piece of it, so that every
interleaving of the original is an interleaving of the model. Target outcomes, probe results,
lease tokens, jitter and the clock are inputs of the steps. A run is any finite sequence of
enabled steps from an empty orchestrator, and the theorems speak of all runs.

Each component appears three times. A specification function on values says what a step does. A
class method in the original's own imperative form is proved to do exactly that. Lemmas prove the
promises about the specification. The orchestrator object carries the run its parts have made, so
the promises made of runs are promises about the objects.

| files | contents |
|---|---|
| `Tasks`, `Counting` | records, outcomes, attempt limits, exponential growth, counting |
| `Devices`, `DeviceRegistry` | inventory, leases, waiters; the registry object |
| `Health`, `HealthMonitor` | probing, quarantine, recovery, retirement; the monitor object |
| `Scheduler`, `Kernel`, `SchedulerObject`, `Orchestrator` | queue, workers, retries, drains; the steps and runs; the scheduler object; all objects wired together |
| `DeviceHistory`, `HealthProofs`, `FleetEffects`, `FleetProofs`, `RegistryEffects`, `SchedulerProofs`, `Books`, `KernelProofs` | the invariants, and that every step keeps them |
| `TaskTheorems`, `AttemptTheorems`, `VerdictTheorems`, `RetryTheorems`, `StopTheorems`, `LeaseTheorems`, `DeviceTheorems`, `ProbeTheorems`, `RecoveryTheorems`, `OutageTheorems`, `RoundTheorems`, `PollTheorems`, `AcquireTheorems`, `QueueTheorems`, `OutcomeTheorems`, `ProgressTheorems` | what every run of the kernel promises |
| `Scenarios` | runs that show what the code does not promise |
| `Sessions`, `SessionTheorems`, `SessionTurns` | cached sessions, generations, invalidation |
| `Tokens` | single-flight token refresh |
| `Feed`, `DashboardTheorems` | bounded subscriber queues, replay and live feed; what a client can conclude from it |
| `Base64`, `Text`, `Cipher`, `SecretBox`, `Jwt` | base64url, joining and splitting, sealed blobs, JWT payloads |

The events the monitor publishes are kept, with the time and the device, in a log that the code
never reads. It is the history that statements over whole runs are about: two timestamps of it are
compared where the original promises a distance in time.

## Model

| member | source | states |
|---|---|---|
| `KernelProofs.RunValid` | core/scheduler.py:163-361 | In every state of every run all invariants hold together: inventory, lease table, no lost wake-up, each device's history, the scheduler's books, and the agreement of workers with leases and waiters |
| `Orchestrators.Orchestrator.Perform` | core/orchestrator.py:60-78 | Whatever step the wired objects perform is the kernel's step: they stay where a run of the kernel has led them, so every statement about runs holds of the objects; and cached sessions are dropped exactly with a published quarantine or retirement |
| `Orchestrators.Orchestrator.Promises` | core/orchestrator.py:60-78 | Of the objects' own fields: no work is lost, the idle flag does not lie, and no two workers share a device |
| `TaskTheorems.WorkConserved` | core/scheduler.py:88-356 | No work is lost or doubled: in every state of every run an unfinished record has exactly one queue entry, owning worker or sleeping retry, and a finished one has none |
| `QueueTheorems.FirstInFirstOut` | core/scheduler.py:101-168 | In every state the queue is, in order, what submissions, due retries and the pills of `stop` have put on it less what the workers have taken off it |
| `QueueTheorems.SubmissionIsRecorded` | core/scheduler.py:88-111 | A submission of a known kind leaves a PENDING record and the flag down, one of an unknown kind a REJECTED record with the reason and nothing else |
| `QueueTheorems.StartedAndStopped` | core/scheduler.py:131-150 | Only `start` and `stop` say whether the scheduler runs; a start gives one that does not run exactly the configured number of idle workers |
| `QueueTheorems.WorkersGoBack` | core/scheduler.py:163-192 | Release, tail, the pill and a due retry each do just their own part: from the lease to the tail, from there to the queue, off for good, and back on the queue |
| `TaskTheorems.ResubmissionConserves` | core/scheduler.py:101-103 | Submitting an id again keeps conservation exactly when its old record is finished |
| `TaskTheorems.IdleMeansDone` | core/scheduler.py:194-196 | While the idle flag is up nothing is queued, running or waiting to retry, and every record is terminal |
| `TaskTheorems.IdleExactly` | core/scheduler.py:78-84 | In runs without `stop` the flag is up if and only if queue, in-flight count and pending retries are all zero |
| `ProgressTheorems.IdleIsRest` | core/scheduler.py:194-196 | No run gets stuck: without `stop`, with workers and a lease timeout, the idle flag is down if and only if some worker or sleeping retry can take a step by itself, now or once its time comes |
| `ProgressTheorems.NoTaskIsStuck` | core/scheduler.py:163-192 | In such a run every unfinished task is moved on by the step of its own worker or retry, or is queued and a worker can take an entry, or is queued while all workers are at work and one of those can go on |
| `ProgressTheorems.StuckExactly` | core/device.py:378-402 | In any run whatever, also after `stop` or with no timeout, the scheduler has no step of its own left if and only if no retry sleeps, no idle worker has anything to take, and the workers at work all wait for a device with no deadline and no wake-up; and no device they could take is free |
| `Scenarios.StopCanSilenceIdle` | core/scheduler.py:141-168 | A run of six steps in which `stop` comes before the worker takes its task: the pill is taken last, all counters are zero and the flag is down |
| `StopTheorems.StopSilencesIdle` | core/scheduler.py:141-147 | After `stop` the idle flag never goes up again: down then, down in every later state, however much work is finished |
| `StopTheorems.DrainAfterStop` | core/scheduler.py:153-159 | A drain called after `stop` is let go if and only if it found the flag up |
| `StopTheorems.DrainBeforeStop` | core/scheduler.py:141-159 | A drain already waiting when `stop` is called is let go later if and only if it had been by then |
| `TaskTheorems.DrainIsTruthful` | core/scheduler.py:153-159 | When a drain returns True, everything submitted before it was called is terminal |
| `QueueTheorems.DrainIsPrompt` | core/scheduler.py:153-159 | A waiting drain is woken if and only if the idle flag has been up at some state since it was called, however briefly |
| `AttemptTheorems.AttemptsBounded` | core/scheduler.py:222-223 | A record never has more than max(1, max_attempts) attempts, and they are numbered 1, 2, ... in order |
| `OutcomeTheorems.OutcomeIsRecorded` | core/scheduler.py:239-299 | In every run a result makes the task SUCCEEDED with that result, a fatal error REJECTED with that error, and after anything else it is RUNNING and its worker about to handle exactly that failure; the attempt is over, with its error, and nobody else is touched |
| `OutcomeTheorems.VerdictIsFinal` | core/scheduler.py:239-256 | After a result or a fatal error the record never changes again and the task is never requeued |
| `OutcomeTheorems.FailureIsHandled` | core/scheduler.py:320-348 | A worker that handles a failure fails the task with that reason if the attempts are spent and puts it to sleep otherwise, with the lease still held |
| `OutcomeTheorems.UnblamedIsLeftAlone` | core/scheduler.py:257-317 | The end of an attempt changes no device and publishes nothing if and only if it succeeded, was fatal, was retryable without blame, or the device was not ONLINE any more |
| `AttemptTheorems.RecordsOnlyProgress` | core/scheduler.py:363-373 | Over any stretch of a run a terminal record does not change, attempts made are never taken back or renamed, and the budget never grows |
| `AttemptTheorems.RequeuesPaid` | core/scheduler.py:320-348 | Requeues that are not lease timeouts are paid for out of the attempt budget |
| `AttemptTheorems.RequeuesBounded` | core/scheduler.py:320-348 | A task is requeued at most max(1, max_attempts) - 1 times plus once per lease timeout, so finitely many timeouts mean finitely many requeues |
| `VerdictTheorems.TimeoutIsGiveUp` | core/scheduler.py:214-220 | What is counted as a lease timeout is one: a requeue finds its task PENDING if and only if its worker gives up on a lease in that step, with no device free or its deadline passed; any other handles the failure of a RUNNING task |
| `VerdictTheorems.VerdictHasACause` | core/scheduler.py:239-340 | Behind every terminal record of every run stands the one step that finished it: SUCCEEDED means its target returned that result, REJECTED a fatal error with that reason or an unknown kind, FAILED spent attempts and a worker that handled its failure or got no lease for it, with that error, ABANDONED no device that could serve it |
| `RetryTheorems.RetryWaitsItsBackoff` | core/scheduler.py:350-361 | A requeued task sleeps exactly min(base * 2^n, max) plus the jitter drawn in that step, or 0.1 s where that is more, and until then is in no queue and with no worker |
| `RetryTheorems.DrawsAllowed` | core/scheduler.py:358-361 | What can be drawn is exactly what is within min(base * 2^n, max) times the jitter, either way |
| `RetryTheorems.PausesFollowDraws` | core/scheduler.py:358-361 | Above the floor two pauses after the same number of attempts are as far apart as their draws |
| `LeaseTheorems.LeasesAreExclusive` | core/device.py:370-418 | In every state two workers with leases are on different devices, and the unreleased leases are exactly the table, each held by a worker that will return it |
| `LeaseTheorems.ReleaseIsExact` | core/device.py:404-418 | A worker's release always finds its own lease in the table, whatever the tokens; it frees that device only, wakes all waiters and is idempotent |
| `LeaseTheorems.NoWakeupIsLost` | core/device.py:378-402 | A worker that sleeps on the condition without having been notified has no free device that matches its task |
| `AcquireTheorems.TakeDecides` | core/scheduler.py:198-226 | In every run a worker that takes a task abandons it if and only if all devices that serve it are retired; otherwise it leases the first candidate in discovery order, if there is one, and records the attempt, and else is parked until now plus the lease timeout, or gives up if that is no time at all |
| `AcquireTheorems.WaiterDecides` | core/device.py:378-402 | A woken waiter leases the first candidate, or waits on with the deadline it has, or goes away if that has passed; one whose deadline runs out goes away, and its task is failed or requeued |
| `AcquireTheorems.DeadlineStands` | core/device.py:378-402 | However often it is woken for nothing, a worker waits until exactly the lease timeout after it took the task |
| `LeaseTheorems.AbandonedOnlyIfHopeless` | core/scheduler.py:202-212 | A task is abandoned only when every device that matches its selector is retired |
| `LeaseTheorems.AbandonmentIsSound` | core/device.py:360-368 | From that state on, until a refresh, no step of anyone grants a lease on a device that matches the selector |
| `DeviceTheorems.PulledUntilRestored` | core/device.py:318-328 | A quarantined or retired device stays so in all later states until a restore of it is published, whatever polls report |
| `DeviceTheorems.GrantsOnlyOnline` | core/device.py:350-358 | A lease is only granted on an ONLINE device that is not leased |
| `DeviceTheorems.BlamedIsNotLeasedAgain` | core/scheduler.py:305-318 | A blamed device that is not OFFLINE or UNAUTHORIZED when its failure is handled is out of the pool while it is still leased, and no coroutine leases it again before its restore is published |
| `DeviceTheorems.BlamePulls` | core/scheduler.py:308-317 | After a blamed failure the device is out of the pool if and only if it is not OFFLINE or UNAUTHORIZED when the failure is handled |
| `Scenarios.OfflineEscapesBlame` | core/scheduler.py:308-317 | A run of twelve steps in which a device that a poll found offline mid-task fails, is blamed, is put back by the next poll and leased again, with nothing published |
| `DeviceTheorems.RetiredHasNoRecovery` | core/health.py:263-283 | A retired device never has a recovery under way, which is what makes unchecked restores harmless |
| `DeviceTheorems.RetiredStays` | core/health.py:180-218 | No sweep, recovery, task failure or poll leaves RETIRED |
| `DeviceTheorems.RetiredForever` | core/health.py:373-383 | Once retired, retired in every later state of the run |
| `DeviceTheorems.StreamIsFaithful` | core/health.py:255-261 | In every state the device's published events determine whether it is quarantined or retired; failures are only published of a device in quarantine; the lifetime count equals the adb recoveries published |
| `DeviceTheorems.LastVerdictTells` | core/health.py:357-383 | The latest verdict published is `quarantined` iff the device is QUARANTINED and `retired` iff it is RETIRED |
| `DeviceTheorems.InventoryKept` | core/device.py:295-333 | Nothing but a refresh changes which devices exist and what they are |
| `PollTheorems.PollMerges` | core/device.py:295-335 | A poll forgets nobody, adds whom it found as found, updates who was known except for identity, recoveries and verdicts and where it found nothing, takes exactly the missing ONLINE ones OFFLINE, leaves leases alone and wakes everyone |
| `PollTheorems.PollKeepsOrder` | core/device.py:304-316 | New devices line up behind the known ones in the order of the poll |
| `DeviceTheorems.FlappingKeepsHistory` | core/device.py:295-333 | Over any stretch of a run a device once known stays known with its identity and transport, and its count of recoveries grows by exactly the adb recoveries published meanwhile, however often it vanishes and returns |
| `RecoveryTheorems.RecoveriesPerWindow` | core/health.py:70-73 | In any window of `recovery_window_s` over any run a device has at most `retire_after_recoveries` adb recoveries, counted in the full history although the code forgets it |
| `RecoveryTheorems.FlappingIsRetired` | core/health.py:278-283 | An episode retires the device if and only if the published history shows that many adb recoveries in the window that ends now; otherwise a virtual slot is back at once and any other device keeps its state |
| `RecoveryTheorems.FailuresBackOff` | core/health.py:330-355 | Two failures of one outage are at least the sum of all delays between them apart, and each announces its own delay |
| `RecoveryTheorems.DelaysGrow` | core/health.py:331-334 | For a base that is not negative delays never shrink, so m further failures take at least m times the current delay |
| `RecoveryTheorems.ExpiredRecoveryIsSilent` | core/health.py:278-355 | In every run a recovery's step publishes an event about a device that is not quarantined if and only if its reconnect and probe have just succeeded, or it starts on a virtual slot, or it starts with the published window full; otherwise it changes no state, no event and no health but forgotten times |
| `Scenarios.LateRecoverySpeaks` | core/health.py:285-289 | A run of eleven steps in which a check that the sweep had queued restores a virtual slot a worker has just quarantined and given back, and the recovery, whose turn comes next, publishes the ONLINE slot as restored once more |
| `OutageTheorems.FailuresAreNumbered` | core/health.py:330-355 | The k-th failure since the last restore is published as episode k with a delay of min(base * 2^(k-1), cap) |
| `OutageTheorems.NextFailureWaits` | core/health.py:330-335 | The k-th and the next failure of an outage are at least min(base * 2^(k-1), cap) apart |
| `OutageTheorems.NextOutageIsChasedAtOnce` | core/health.py:357-361 | A device with no failure since its last restore has a recovery under way as soon as it is quarantined |
| `OutageTheorems.DarkIsChased` | core/health.py:207-276 | After a failed check a device that is in quarantine then gets a recovery if and only if none is under way and no recovery has failed since the last restore, or the delay published with the last failure has passed; one that is under way goes on, and no other device is chased |
| `OutageTheorems.BlamedIsChased` | core/health.py:238-276 | And so does an ONLINE device whose task has failed to its blame, and its quarantine is published |
| `RoundTheorems.RecoveryStarts` | core/health.py:278-305 | The first turn of a recovery ends it with `retired`, `restored` or nothing if the device is retired, virtual or out of quarantine, and starts round 1 otherwise |
| `RoundTheorems.RoundFails` | core/health.py:310-355 | Rounds are numbered from 1 to `recovery_attempts`; one that fails is followed after min(2 a, 10) s by the next, and the last one at once by the verdict, which is published if and only if the device is still in quarantine |
| `RoundTheorems.RecoveryTurns` | core/health.py:298-328 | The next round begins only in quarantine, an answer to a reconnect is probed, a probe that succeeds restores the device, and what raises ends in silence |
| `ProbeTheorems.SweepVerdict` | core/health.py:192-218 | The end of a check pulls a device if and only if it is ONLINE and the failures in a row, counted over the run, reach the limit; it brings one back if and only if it was quarantined and answered |
| `ProbeTheorems.CounterIsHistory` | core/health.py:200-205 | The failure counter is the number of failed checks since the last success or adb recovery of that device, over the whole run |
| `ProbeTheorems.ProbedWhileFree` | core/health.py:180-192 | In every run a probe of the sweep that is under way began at a step at which no task had the device |
| `ProbeTheorems.SweepCovers` | core/health.py:165-178 | A sweep looks at exactly the devices that are ONLINE or QUARANTINED when it begins |
| `ProbeTheorems.SweepPublishes` | core/health.py:192-218 | A finished check publishes just the change of state it made, leaves the sweep, and unless it failed touches no recovery |
| `HealthProofs.BreakerCounts` | core/health.py:70-73 | The pruned count is below the limit exactly when one more recovery now would still respect the window |
| `Devices.FirstFree` | core/device.py:350-358 | Finds a free matching device in discovery order if and only if there is one |
| `Devices.FirstFreeIsFirst` | core/device.py:350-358 | No device earlier in discovery order is free |
| `Devices.LeaseExclusive` | core/device.py:370-391 | Among all leases ever issued at most one per device is unreleased |
| `Devices.ReleaseFindsItsOwnLease` | core/device.py:404-411 | The token test of a release that reaches the table cannot fail |
| `Devices.ReconciledValid` | core/device.py:295-335 | A refresh keeps order and table in step, leases and the guarantee to waiters |
| `DeviceRegistries.DeviceRegistry.Refresh` | core/device.py:295-335 | The two loops merge what was found, keep verdicts, turn vanished ONLINE devices OFFLINE, append new ones in poll order and wake everyone |
| `DeviceRegistries.DeviceRegistry.Merge` | core/device.py:304-328 | First loop: each polled key is merged into the entry it had before the poll, or appended |
| `DeviceRegistries.DeviceRegistry.MergedAllAt` | core/device.py:304-328 | After the loop every key found has its own merge and every other key its old entry |
| `DeviceRegistries.DeviceRegistry.Vanish` | core/device.py:330-333 | Second loop: the devices in order, each one that is missing and ONLINE taken offline |
| `DeviceRegistries.DeviceRegistry.VanishedAllAt` | core/device.py:330-333 | After the loop each missing device has vanished once and every other entry is as it was |
| `DeviceRegistries.DeviceRegistry.TwoPasses` | core/device.py:304-333 | Both loops together are the reconciliation in one go |
| `DeviceRegistries.DeviceRegistry.FindFree` | core/device.py:350-358 | The scan returns the first free matching device, or None when there is none |
| `DeviceRegistries.DeviceRegistry.CouldEverMatch` | core/device.py:360-368 | True if and only if some device that is not retired matches |
| `DeviceRegistries.DeviceRegistry.TryAcquire` | core/device.py:378-402 | One turn of the wait loop grants, parks or gives up as specified, and keeps the registry valid |
| `DeviceRegistries.DeviceRegistry.Release` | core/device.py:404-418 | Marks the lease, frees the table entry that carries its token, wakes everyone; nothing the second time |
| `DeviceRegistries.DeviceRegistry.SetState` | core/device.py:420-436 | Changes the state of a known device and wakes everyone, or changes nothing |
| `DeviceRegistries.DeviceRegistry.MergeOne` | core/device.py:304-328 | One device of a poll: merged into its entry, or added at the end of the order |
| `DeviceRegistries.DeviceRegistry.Unpark` | core/device.py:393-402 | A waiter leaves the condition, and nobody else is touched |
| `HealthMonitors.HealthMonitor.RecentRecoveries` | core/health.py:70-73 | The filter keeps exactly the times inside the window, in order, and returns their number |
| `HealthMonitors.HealthMonitor.SpawnRecovery` | core/health.py:263-276 | Starts a recovery unless one is under way or the backoff is not over |
| `HealthMonitors.HealthMonitor.Quarantine` | core/health.py:238-261 | Pulls the device, drops its cached sessions, publishes that, and starts its recovery if the device is known |
| `HealthMonitors.HealthMonitor.MarkQuarantined` | core/health.py:255-261 | State, sessions and event go together: forced, dropped, published |
| `HealthMonitors.HealthMonitor.Restore` | core/health.py:357-365 | Clears the backoff, puts the device ONLINE and publishes the reason |
| `HealthMonitors.HealthMonitor.CheckBegin` | core/health.py:180-189 | A leased device is not probed |
| `HealthMonitors.HealthMonitor.CheckEnd` | core/health.py:192-218 | Counts the probe, restores a quarantined device that answers, quarantines an ONLINE one at the limit, and chases one that stays dark |
| `HealthMonitors.HealthMonitor.RecoveryBegin` | core/health.py:278-293 | Circuit breaker first, then the virtual slot, then the attempts |
| `HealthMonitors.HealthMonitor.AttemptBegin` | core/health.py:293-355 | A round begins only while the device is quarantined; past the last round the failure is counted, the backoff set and the event published |
| `HealthMonitors.HealthMonitor.AttemptFail` | core/health.py:320-323 | Sleeps between rounds, not after the last |
| `HealthMonitors.HealthMonitor.ReconnectEnd` | core/health.py:310-314 | A failed reconnect ends the round, a successful one is probed |
| `HealthMonitors.HealthMonitor.RecoveryProbeEnd` | core/health.py:314-323 | A recovery that answers is booked and restored without another look at the state |
| `Schedulers.Scheduler.Submit` | core/scheduler.py:88-111 | An unknown kind is rejected at once; anything else is recorded and queued with the idle flag down |
| `Schedulers.Scheduler.Start` | core/scheduler.py:131-139 | Adds the configured number of idle workers, once |
| `Schedulers.Scheduler.Stop` | core/scheduler.py:141-146 | Puts one pill per worker at the end of the queue |
| `Schedulers.Scheduler.Take` | core/scheduler.py:163-182 | A pill stops the worker; a task id is taken in flight and run up to its first suspension; every invariant is kept |
| `Schedulers.Scheduler.RunOnce` | core/scheduler.py:198-220 | Skips the two states the guard names, abandons what nothing can serve, and otherwise acquires |
| `Schedulers.Scheduler.Acquire` | core/scheduler.py:214-224 | A grant records the attempt on the leased device, a park changes no record, and giving up requeues |
| `Schedulers.Scheduler.WaiterWake` | core/device.py:380-402 | A notified waiter looks again with its old deadline; every invariant is kept |
| `Schedulers.Scheduler.WaiterTimeout` | core/device.py:399-402 | A waiter past its deadline leaves and its task is requeued; every invariant is kept |
| `Schedulers.Scheduler.ExecutionEnd` | core/scheduler.py:239-318 | The outcome decides the verdict; a blamed ONLINE device is quarantined before anything else happens; every invariant is kept |
| `Schedulers.Scheduler.Requeue` | core/scheduler.py:320-348 | The last attempt fails the task; otherwise it is pending, counted and asleep until its backoff is over |
| `Schedulers.Scheduler.FailureRequeue` | core/scheduler.py:318-348 | The requeue happens before the lease is given back; every invariant is kept |
| `Schedulers.Scheduler.LeaseReturn` | core/scheduler.py:297-303 | The finally block gives back exactly this worker's lease; every invariant is kept |
| `Schedulers.Scheduler.WorkerTail` | core/scheduler.py:189-192 | The in-flight count falls and idleness is announced if nothing is left; every invariant is kept |
| `Schedulers.Scheduler.RetryFire` | core/scheduler.py:350-356 | The task is queued before the retry stops being counted; every invariant is kept |
| `Schedulers.Scheduler.SettleIdle` | core/scheduler.py:194-196 | Raises the flag, and wakes the drains, only when all three counters are zero |
| `Schedulers.Scheduler.StartAttempt` | core/scheduler.py:222-224 | The attempt takes the next number and the leased device, and the record is running |
| `Schedulers.Scheduler.EndAttempt` | core/scheduler.py:244-255 | Only the last attempt is ended, with the outcome's error |
| `Schedulers.Scheduler.Conclude` | core/scheduler.py:244-295 | The attempt is ended and the outcome gives the record its verdict, or the worker its failure to handle |
| `Schedulers.Scheduler.Blame` | core/scheduler.py:308-317 | A device to blame is quarantined, with its sessions, if it is ONLINE |
| `Schedulers.Scheduler.TimeOut` | core/scheduler.py:217-220 | No lease: the task is requeued without an attempt and the worker goes to its tail |
| `SessionTheorems.OneRebuildPerKey` | core/session.py:93-125 | Per (device, kind) at most one call checks, closes or opens, and no other call of that key can begin to |
| `SessionTheorems.LockIsPerKey` | core/session.py:86-100 | A waiting call is held up if and only if a call of its own key is at work |
| `SessionTheorems.GenerationsIdentify` | core/session.py:164-172 | Of two sessions of one key the later has the greater generation, and only it |
| `SessionTheorems.ReturnIsFresh` | core/session.py:113-125 | A handle is returned only in the step in which this call's own check or own open of it succeeded, and it is the latest opened for its key |
| `SessionTheorems.EnsureVerifies` | core/session.py:93-125 | Every handle a call has ever returned was opened or checked by that same call, with invalidations anywhere in between |
| `SessionTheorems.ReturnsMoveForward` | core/session.py:164-172 | Generations handed out for a key never go back, and equal ones are the same handle |
| `SessionTheorems.CachedIsLatest` | core/session.py:164-172 | The cached handle has the greatest generation of its key, and no other handle has it |
| `SessionTheorems.ReturnedIsCached` | core/session.py:113-115 | A checked handle that is returned is still cached if and only if nothing dropped its key during the check |
| `SessionTheorems.DroppedYetReturned` | core/session.py:214-234 | A concrete run in which a handle dropped during its check is returned all the same |
| `SessionTheorems.InvalidationIsFinal` | core/session.py:214-234 | A call that had not entered the lock when its key was dropped never returns a session opened before that |
| `SessionTheorems.TriesAreSpent` | core/session.py:134-185 | A call tries to open at most max_open_attempts sessions, and raises only when they are used up or the deadline has passed |
| `SessionTurns.TurnsAreDecided` | core/session.py:100-234 | Every turn of every run: a session past its age is discarded unchecked and any other is checked; a dead one is dropped before it is closed; a round of opening begins if and only if rounds and time are left; a failed one pauses min(base * 2^(k-1), max, time left); an invalidation takes exactly the sessions it names |
| `Sessions.RunValid` | core/session.py:80-234 | In every state locks, generations, cache and the handles in callers' hands agree |
| `Sessions.SessionManager.Enter` | core/session.py:93-125 | Inside the lock: open if nothing is cached, discard what is too old, check the rest |
| `Sessions.SessionManager.CheckDone` | core/session.py:113-123 | A live handle is returned, a dead one is dropped and closed |
| `Sessions.SessionManager.Try` | core/session.py:135-142 | A round of the loop begins only within the attempt limit and before the deadline |
| `Sessions.SessionManager.OpenDone` | core/session.py:164-181 | The new handle takes the next generation and becomes the cached one |
| `Sessions.SessionManager.OpenFailed` | core/session.py:145-162 | The last failure raises; the others sleep min(cap, base * 2^(k-1), time left) |
| `Sessions.SessionManager.Discard` | core/session.py:198-203 | What is cached for the key is dropped before the driver is closed |
| `Sessions.SessionManager.Invalidate` | core/session.py:214-234 | Drops exactly the device's sessions, of one kind or of all, without the lock |
| `Tokens.SingleFlight` | core/auth.py:290-317 | However many calls there are, at most one refresh per realm is in flight, and meanwhile no call of the realm can enter |
| `Tokens.StoredTokenServes` | core/auth.py:260-268 | After a store, and until the next one or an invalidation, an entering call refreshes if and only if the clock reads expiry - skew or later, and otherwise gets the stored token; an opaque token is never refreshed |
| `Tokens.StoredTokenAnswers` | core/auth.py:290-297 | Until the next store or invalidation a new call is answered without the lock with the stored token if and only if that is opaque or the clock reads less than expiry - skew; otherwise it waits |
| `Tokens.RefreshAnswers` | core/auth.py:305-317 | The call whose refresh brought the token is answered with it |
| `Tokens.InvalidatedIsRefreshed` | core/auth.py:319-328 | From an invalidation, or the start, to the next store every new call of the realm waits and every one that enters refreshes, whatever the expiry was |
| `Tokens.RefreshedForAReason` | core/auth.py:297-317 | Between the starts of two refreshes of a realm one failed, or the realm was invalidated, or the token stored there had come due |
| `Tokens.FailureLetsTheNextTry` | core/auth.py:297-305 | A waiter is kept out only by a refresh in flight; when that raises, the next to enter tries again if there is still nothing to serve |
| `Tokens.TokenCache.Lookup` | core/auth.py:293-295 | Answers with the cached token exactly when there is one and it is not stale |
| `Tokens.TokenCache.Enter` | core/auth.py:297-305 | The second look inside the lock answers without a request, or the refresh starts |
| `Tokens.TokenCache.Store` | core/auth.py:305-317 | The token is stored, answered, and the lock left |
| `Tokens.TokenCache.Fail` | core/auth.py:297-305 | A raising refresh leaves the lock and stores nothing |
| `Tokens.TokenCache.Get` | core/auth.py:290-297 | A call is answered from the cache without the lock, or waits for it |
| `Feed.FeedAccounts` | api/ws.py:101-109 | A client is sent the history from the last min(replay, n) events before it connected: in order, nothing twice, the replay whole, and exactly `dropped` events missing of those not waiting; its queue is the newest part and within its bound |
| `Feed.NoDropNoGap` | api/ws.py:101-109 | What was sent and is on its way is the whole history if and only if nothing was dropped |
| `DashboardTheorems.DashboardIsCurrent` | api/ws.py:76-95 | A client whose drop count is zero reads from its feed whether a device is quarantined, retired or in the pool, if and only if a verdict on the device came in or it knew where the device stood when its feed starts |
| `Feed.RingIsLast` | api/ws.py:50-58 | The ring buffer, filled one event at a time, is the last `replay` events |
| `Feed.Subscriber.Offer` | api/ws.py:31-42 | A full queue loses its oldest event, counts it and takes the new one |
| `Feed.EventHub.Publish` | api/ws.py:52-55 | Every subscriber is offered the event once and the ring buffer moves on |
| `Feed.EventHub.Subscribe` | api/ws.py:60-63 | A new subscriber starts empty and leaves the others alone |
| `Feed.Subscriber.PutNowait` | api/ws.py:31-33 | A put fails exactly on a full queue, and a size of zero or less is never full |
| `Feed.Subscriber.Get` | api/ws.py:88-94 | The stream takes the oldest event |
| `Feed.Pump.constructor` | api/ws.py:101-106 | A new connection has a fresh subscription and a copy of the ring buffer, and is where the specified feed starts |
| `Feed.Pump.Send` | api/ws.py:101-109 | What goes out next is what the specified feed sends next: the backlog first, then the queue |
| `Feed.Pump.Hear` | api/ws.py:52-55 | What the hub publishes reaches the connection as specified |
| `SecretBox.SealedOpens` | core/auth.py:158-196 | For all data, salts and nonces, what is sealed opens to the same bytes, except exactly when a v2 blob meets a host without AES-GCM |
| `SecretBox.OpenedSeals` | core/auth.py:176-196 | Whatever opens as v1 is what sealing the result again under its own salt and nonce gives |
| `SecretBox.SealedIsMasked` | core/auth.py:158-174 | Each byte of a v1 ciphertext differs from the data in exactly the bits of byte i % 32 of the MAC of nonce and block number i / 32 under the first half of the key, and the tag is the MAC of nonce and ciphertext under the other half |
| `SecretBox.SealedByAesGcm` | core/auth.py:164-166 | With AES-GCM the blob is v2 and holds what AES-GCM made of data and nonce under the first half of the key |
| `SecretBox.TagIsChecked` | core/auth.py:192-196 | A v1 blob fails authentication if and only if its tag is not that MAC |
| `SecretBox.UnknownVersionExactly` | core/auth.py:188-189 | A blob that comes apart is refused for its version exactly when that is neither v1 nor v2 |
| `SecretBox.BlobLayout` | core/auth.py:212-213 | A blob is version, salt, nonce, ciphertext and tag in this order with `$` between |
| `SecretBox.MalformedExactly` | core/auth.py:216-219 | The format error is raised if and only if the blob has not exactly four separators |
| `SecretBox.SplitJoinBlob` | core/auth.py:212-222 | A blob comes apart into what it was made of |
| `Cipher.Keystream` | core/auth.py:199-205 | The loop yields exactly the requested prefix of the block stream, or fails where eight counter bytes run out |
| `Cipher.KeystreamBytes` | core/auth.py:199-205 | Byte i is byte i % 32 of the MAC of nonce and counter i / 32 whatever the length, and no two blocks have the same input |
| `Cipher.XorAllTwice` | core/auth.py:208-209 | The same pad takes itself off again, byte by byte |
| `Cipher.XorBits` | core/auth.py:208-209 | A bit of the result is set if and only if it is set in exactly one of the two |
| `Cipher.XorAllDiffers` | core/auth.py:208-209 | At every place the result has exactly the bits in which data and pad differ |
| `Cipher.BigEndianDigits` | core/auth.py:203-203 | Byte j of a counter is its digit to the base 256, the highest first |
| `Base64.RoundTrip` | core/auth.py:212-222 | Decoding undoes encoding for every byte string (section 5 of RFC 4648), with the lenient decoder of the original's library |
| `Base64.LetterTable` | core/auth.py:212-222 | The letters are those of table 2 of RFC 4648 and each is read for its own place |
| `Base64.GroupsAreBytes` | core/auth.py:212-222 | Three bytes and the four letters written for them are the same number, and what is left is filled up with zero bits |
| `Base64.PaddingRestored` | core/auth.py:243-243 | The bare encoding padded to a multiple of four is the whole encoding |
| `Text.SplitJoin` | core/auth.py:212-219 | Splitting undoes joining if and only if no part holds the separator |
| `Text.JoinSplit` | core/auth.py:216-219 | Joining undoes splitting, always |
| `Jwt.SegmentRoundTrip` | core/auth.py:242-245 | For every byte string: encode, strip the padding, restore it by length, decode, and the bytes are back |
| `Jwt.PayloadIsRead` | core/auth.py:239-247 | A payload segment is read back exactly when neither neighbour holds a dot |
| `Jwt.NotAJwtExactly` | core/auth.py:239-241 | Text is taken for a JWT if and only if it has exactly two dots |
| `Jwt.FakeJwtIsRead` | targets/web.py:188-196 | The claims of the demo's token are the payload it was made with |

## What the statements rest on

- Task ids are fresh. The original overwrites an existing record and queues a second entry;
  `TaskTheorems.ResubmissionConserves` says when that is harmless.
- The event sink neither raises nor suspends, and nothing is cancelled.
- A recovery task's end and the removal of its table entry are one step.
- A lock that is free is taken without a suspension, and after `asyncio.wait_for` a waiter has the
  registry's lock back without another one: a guard and the state change behind it are one step.
  That is so from Python 3.12 on. On 3.11, which the container image uses, `wait_for` runs the wait in
  a task of its own, which holds the lock over a suspension; a guard and its `set_state` can then be
  parted, and those interleavings are not part of this model.
- `2 ** k` is ideal, and times are reals. In Python the product overflows at exponent 1024.
- The kernel's clock is monotone. The token cache's wall clock is not assumed to be.
- A poll reports the states adb knows, or hands back the registry's own devices, so it brings no
  QUARANTINED or RETIRED of its own to a known device. Both sources of the original do that;
  `DeviceTheorems.PollKeepsStream` says that the published stream stays true exactly then.
- The health monitor is always wired to the scheduler.
- Random session ids do not collide. Lease tokens may.
- HMAC-SHA256, scrypt, AES-GCM and JSON are arbitrary functions; where a statement needs two of
  them to undo each other it says so.

## Where code and documentation differ

The model follows the code.

- The comment on `retire_after_recoveries` says lifetime recoveries; the code counts the window.
- The state diagram enters RETIRED from QUARANTINED only; the circuit breaker does not look at the
  state (core/health.py:279-283): `RecoveryTheorems.FlappingIsRetired` holds in any state.
- The documentation says an episode whose premise has expired is silent. Three of its steps do not
  look at the state: a full circuit breaker, a virtual slot (core/health.py:279-289), and a reconnect
  and probe that succeed (core/health.py:314-319). `RecoveryTheorems.ExpiredRecoveryIsSilent` gives
  the exact boundary and `Scenarios.LateRecoverySpeaks` a run.
- A blamed device is said to be quarantined before its lease is released. One that a poll has found
  offline or unauthorized while the task ran is not, and a poll that finds it well again puts it back
  without a restore (core/scheduler.py:310). `DeviceTheorems.BlamePulls` gives the exact condition,
  `DeviceTheorems.BlamedIsNotLeasedAgain` what follows where it holds, and
  `Scenarios.OfflineEscapesBlame` a run, up to the next lease, where it does not.
- The session module says `ensure` never returns a stale handle; a handle dropped during its own
  check is returned. `SessionTheorems.ReturnedIsCached` gives the exact condition.
- `drain` is said to wait until nothing is queued or running. After `stop` it waits for ever unless
  the idle flag was up when it was called, because every worker at work has its own pill in the
  queue: `StopTheorems.DrainAfterStop`, and `Scenarios.StopCanSilenceIdle` for a run.

## Left out

- Processes, adb, Appium, Playwright, HTTP, the command line, the dashboard and all log lines.
- Cancellation, event-loop shutdown, and starting again after `stop`.
- An operator who sets a device's state by hand.
- `task.state` events, correlation ids, notes, timestamps and durations of records, `last_seen`,
  `last_ok_at` and `last_probe_ms`.
- The count in "(after N attempts)" and other decoration of error texts.
- Liveness: the original does not promise that every task ends, since a lease timeout requeues
  without spending an attempt. That something can always go on is `ProgressTheorems`.
- Device and health objects as shared references. They are values in tables, so an update in place
  through the source's own list is not seen; in `StaticDeviceSource` found and existing device are
  the same object and merging them changes nothing.
- Sessions in the kernel's runs. The objects drop them with every quarantine and retirement; the
  theorems about sessions allow an invalidation at any step.
- UTF-8 encoding of secrets: sealing and opening are on bytes. Secrecy and forgery are not treated.
- The heartbeat of an idle feed.
- RecoveryTheorems.DelaysGrow: is for a base that is not negative, because a negative base makes
  delays shrink.
- RetryTheorems.RetryWaitsItsBackoff: takes the draw as given and does not model its distribution.
- Schedulers.Scheduler.Stop: is the part up to the wait for the workers.
