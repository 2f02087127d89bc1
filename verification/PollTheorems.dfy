/** What a poll makes of the inventory. */
module PollTheorems {
  import opened Tasks
  import opened Devices
  import opened Kernel

  /** What becomes of a device that was known, found or not. */
  ghost predicate Updated(was: Device, found: Option<Device>, after: Device) {
    && after.id == was.id && after.transport == was.transport && after.recoveries == was.recoveries
    && match found
       case None =>
         after.model == was.model && after.tags == was.tags
         && after.state == (if was.state == Online then Offline else was.state)
       case Some(now) =>
         && after.model == (if now.model == "" then was.model else now.model)
         && after.tags == (if now.tags == [] then was.tags else now.tags)
         && after.state == (if was.state == Quarantined || was.state == Retired then was.state else now.state)
  }

  /** One key comes before the other in this order. */
  ghost predicate Before(order: seq<DeviceId>, c: DeviceId, d: DeviceId) {
    exists a, b :: 0 <= a < b < |order| && order[a] == c && order[b] == d
  }

  /** What comes behind does not disturb the order, and is behind all that is there. */
  lemma BeforeGrows(order: seq<DeviceId>, more: seq<DeviceId>, c: DeviceId, d: DeviceId)
    requires Before(order, c, d) || (c in order && more == [d])
    ensures Before(order + more, c, d)
  {
    if Before(order, c, d) {
      var a, b :| 0 <= a < b < |order| && order[a] == c && order[b] == d;
      assert (order + more)[a] == c && (order + more)[b] == d;
    } else {
      var a :| 0 <= a < |order| && order[a] == c;
      assert (order + more)[a] == c && (order + more)[|order|] == d;
    }
  }

  lemma NewKeysLast(front: seq<DeviceId>, last: DeviceId, known: set<DeviceId>)
    ensures NewKeys(front + [last], known) == NewKeys(front, known) + if last in known then [] else [last]
  {
    assert (front + [last])[..|front|] == front;
  }

  lemma {:induction false} NewKeysInOrder(front: seq<DeviceId>, c: DeviceId, middle: seq<DeviceId>, d: DeviceId,
      rest: seq<DeviceId>, known: set<DeviceId>)
    requires c !in known && d !in known
    ensures Before(NewKeys(front + [c] + middle + [d] + rest, known), c, d)
    decreases |rest|
  {
    if rest == [] {
      var keys := front + [c] + middle;
      assert keys + [d] + rest == keys + [d];
      assert keys[|front|] == c;
      NewKeysLast(keys, d, known);
      BeforeGrows(NewKeys(keys, known), [d], c, d);
    } else {
      var n := |rest| - 1;
      var keys := front + [c] + middle + [d] + rest[..n];
      assert front + [c] + middle + [d] + rest == keys + [rest[n]];
      NewKeysInOrder(front, c, middle, d, rest[..n], known);
      NewKeysLast(keys, rest[n], known);
      BeforeGrows(NewKeys(keys, known), if rest[n] in known then [] else [rest[n]], c, d);
    }
  }

  lemma SplitAtTwo(keys: seq<DeviceId>, i: nat, j: nat)
    requires i < j < |keys|
    ensures keys == keys[..i] + [keys[i]] + keys[i + 1..j] + [keys[j]] + keys[j + 1..]
  {
  }

  lemma NewKeysAt(keys: seq<DeviceId>, known: set<DeviceId>, i: nat, j: nat)
    requires i < j < |keys| && keys[i] !in known && keys[j] !in known
    ensures Before(NewKeys(keys, known), keys[i], keys[j])
  {
    SplitAtTwo(keys, i, j);
    NewKeysInOrder(keys[..i], keys[i], keys[i + 1..j], keys[j], keys[j + 1..], known);
  }

  lemma BeforeShifted(front: seq<DeviceId>, order: seq<DeviceId>, c: DeviceId, d: DeviceId)
    requires Before(order, c, d)
    ensures Before(front + order, c, d)
  {
    var a, b :| 0 <= a < b < |order| && order[a] == c && order[b] == d;
    assert (front + order)[|front| + a] == c && (front + order)[|front| + b] == d;
  }

  /** In every run a poll forgets nobody and adds whom it found, as found. Who was known keeps
      identity, transport and recoveries and any verdict passed on it; it takes on what was found,
      except where that is empty, and is taken OFFLINE if it was ONLINE and is missing. Leases are
      not touched and everybody who waits is told. */
  lemma PollMerges(p: Policy, trace: seq<Kernel>, steps: seq<Step>, n: nat, keys: seq<DeviceId>,
      found: map<DeviceId, Device>, d: DeviceId)
    requires IsRun(p, trace, steps) && n < |steps| && steps[n] == Refresh(keys, found)
    ensures
      var (r, r') := (trace[n].fleet.reg, trace[n + 1].fleet.reg);
      && (d in r'.devices <==> d in r.devices || d in found)
      && (d in found && d !in r.devices ==> r'.devices[d] == found[d])
      && (d in r.devices ==> Updated(r.devices[d], if d in found then Some(found[d]) else None, r'.devices[d]))
      && r'.leases == r.leases && r'.issued == r.issued && r'.waiters.Keys == r.waiters.Keys
      && (forall w | w in r'.waiters :: r'.waiters[w] == r.waiters[w].(notified := true))
      && trace[n + 1].fleet.mon == trace[n].fleet.mon && trace[n + 1].sched == trace[n].sched
  {
    assert trace[n + 1] == WithReg(trace[n], Reconciled(trace[n].fleet.reg, keys, found));
  }

  /** New devices line up behind the known ones, in the order of the poll. */
  lemma PollKeepsOrder(p: Policy, trace: seq<Kernel>, steps: seq<Step>, n: nat, keys: seq<DeviceId>,
      found: map<DeviceId, Device>, i: nat, j: nat)
    requires IsRun(p, trace, steps) && n < |steps| && steps[n] == Refresh(keys, found)
    requires i < j < |keys| && keys[i] !in trace[n].fleet.reg.devices && keys[j] !in trace[n].fleet.reg.devices
    ensures trace[n].fleet.reg.order <= trace[n + 1].fleet.reg.order
    ensures Before(trace[n + 1].fleet.reg.order, keys[i], keys[j])
  {
    var r := trace[n].fleet.reg;
    assert trace[n + 1] == WithReg(trace[n], Reconciled(r, keys, found));
    NewKeysAt(keys, r.devices.Keys, i, j);
    BeforeShifted(r.order, NewKeys(keys, r.devices.Keys), keys[i], keys[j]);
  }
}
