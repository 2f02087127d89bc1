/** The device registry as the object it is: tables updated in place, each method being what
    runs under the registry's lock without a suspension. */
module DeviceRegistries {
  import opened Tasks
  import opened Devices

  class DeviceRegistry {
    var devices: map<DeviceId, Device>
    var order: seq<DeviceId>
    var leases: map<DeviceId, nat>
    var waiters: map<nat, Waiter>
    var issued: seq<Lease>
    ghost var born: map<DeviceId, Device>

    ghost function View(): Registry
      reads this
    {
      Registry(devices, order, leases, waiters, issued, born)
    }

    constructor ()
      ensures View() == EMPTY_REGISTRY && Valid(View())
    {
      devices, order, leases, waiters, issued, born := map[], [], map[], map[], [], map[];
    }

    method Notify()
      modifies this`waiters
      ensures View() == NotifyAll(old(View()))
    {
      waiters := map w | w in waiters :: waiters[w].(notified := true);
    }

    /** The table once these keys have been merged, one after another. */
    static function MergedAll(was: map<DeviceId, Device>, keys: seq<DeviceId>, found: map<DeviceId,
        Device>): map<DeviceId, Device>
      requires forall i | 0 <= i < |keys| :: keys[i] in found
    {
      if keys == [] then was
      else
        var n := |keys| - 1;
        var before := MergedAll(was, keys[..n], found);
        before[keys[n] := Entry(before, found[keys[n]], keys[n])]
    }

    /** Each key is merged into the entry the table had before the poll. */
    static lemma {:induction false} MergedAllAt(was: map<DeviceId, Device>, keys: seq<DeviceId>, found: map<DeviceId,
        Device>, d: DeviceId)
      requires Distinct(keys) && forall i | 0 <= i < |keys| :: keys[i] in found
      ensures d in MergedAll(was, keys, found) <==> d in was || d in keys
      ensures d in keys ==> MergedAll(was, keys, found)[d] == Entry(was, found[d], d)
      ensures d in was && d !in keys ==> MergedAll(was, keys, found)[d] == was[d]
    {
      if keys != [] {
        var n := |keys| - 1;
        MergedAllAt(was, keys[..n], found, d);
        assert keys == keys[..n] + [keys[n]];
        assert keys[n] !in keys[..n];
      }
    }

    static lemma MergeStep(was: map<DeviceId, Device>, keys: seq<DeviceId>, found: map<DeviceId, Device>, i: nat)
      requires Distinct(keys) && i < |keys| && AllIn(keys, found)
      ensures AllIn(keys[..i], found) && AllIn(keys[..i + 1], found)
      ensures var before := MergedAll(was, keys[..i], found);
              && MergedAll(was, keys[..i + 1], found) == before[keys[i] := Entry(before, found[keys[i]], keys[i])]
              && (keys[i] in before <==> keys[i] in was)
    {
      MergedAllAt(was, keys[..i], found, keys[i]);
      assert keys[..i + 1][..i] == keys[..i];
    }

    static lemma NewStep(listed: seq<DeviceId>, known: set<DeviceId>, keys: seq<DeviceId>, i: nat)
      requires i < |keys|
      ensures listed + NewKeys(keys[..i + 1], known)
              == listed + NewKeys(keys[..i], known) + if keys[i] in known then [] else [keys[i]]
    {
      assert keys[..i + 1][..i] == keys[..i];
      var added := if keys[i] in known then [] else [keys[i]];
      assert NewKeys(keys[..i + 1], known) == NewKeys(keys[..i], known) + added;
      assert listed + NewKeys(keys[..i], known) + added == listed + (NewKeys(keys[..i], known) + added);
    }

    /** First loop of a refresh: what the poll found is merged in, or added at the end. */
    method Merge(keys: seq<DeviceId>, found: map<DeviceId, Device>)
      requires Distinct(keys) && forall i | 0 <= i < |keys| :: keys[i] in found
      modifies this`devices, this`order
      ensures order == old(order) + NewKeys(keys, old(devices).Keys)
      ensures devices == MergedAll(old(devices), keys, found)
    {
      ghost var was, listed := devices, order;
      var i := 0;
      while i < |keys|
        invariant 0 <= i <= |keys|
        invariant order == listed + NewKeys(keys[..i], was.Keys)
        invariant devices == MergedAll(was, keys[..i], found)
      {
        MergeStep(was, keys, found, i);
        NewStep(listed, was.Keys, keys, i);
        MergeOne(keys[i], found[keys[i]]);
        i := i + 1;
      }
      assert keys[..i] == keys;
    }

    method MergeOne(d: DeviceId, found: Device)
      modifies this`devices, this`order
      ensures devices == old(devices)[d := Entry(old(devices), found, d)]
      ensures order == old(order) + if d in old(devices) then [] else [d]
    {
      if d !in devices {
        devices := devices[d := found];
        order := order + [d];
      } else {
        devices := devices[d := Merged(devices[d], found)];
      }
    }

    /** What a poll makes of one device it found. */
    static function Entry(was: map<DeviceId, Device>, found: Device, d: DeviceId): Device {
      if d in was then Merged(was[d], found) else found
    }

    /** The table once these keys have been looked at, one after another. */
    static function VanishedAll(was: map<DeviceId, Device>, keys: seq<DeviceId>, found: map<DeviceId, Device>)
      : (after: map<DeviceId, Device>)
      requires forall i | 0 <= i < |keys| :: keys[i] in was
      ensures after.Keys == was.Keys
    {
      if keys == [] then was
      else
        var n := |keys| - 1;
        var before := VanishedAll(was, keys[..n], found);
        if keys[n] in found then before else before[keys[n] := Vanished(before[keys[n]])]
    }

    /** Each missing device among them has vanished once, and nobody else has. */
    static lemma {:induction false} VanishedAllAt(was: map<DeviceId, Device>, keys: seq<DeviceId>,
                                                  found: map<DeviceId, Device>, d: DeviceId)
      requires Distinct(keys) && d in was && forall i | 0 <= i < |keys| :: keys[i] in was
      ensures VanishedAll(was, keys, found)[d] == if d in keys && d !in found then Vanished(was[d]) else was[d]
    {
      if keys != [] {
        var n := |keys| - 1;
        VanishedAllAt(was, keys[..n], found, d);
        assert keys == keys[..n] + [keys[n]];
        assert keys[n] !in keys[..n];
      }
    }

    /** Second loop: what the poll did not find goes offline, and stays in the table. */
    method Vanish(found: map<DeviceId, Device>)
      requires forall i | 0 <= i < |order| :: order[i] in devices
      modifies this`devices
      ensures devices == VanishedAll(old(devices), order, found)
    {
      ghost var was := devices;
      var i := 0;
      while i < |order|
        invariant 0 <= i <= |order| && forall j | 0 <= j < |order| :: order[j] in was
        invariant devices == VanishedAll(was, order[..i], found)
      {
        assert order[..i + 1][..i] == order[..i];
        VanishOne(order[i], found);
        i := i + 1;
      }
      assert order[..i] == order;
    }

    method VanishOne(d: DeviceId, found: map<DeviceId, Device>)
      requires d in devices
      modifies this`devices
      ensures devices == if d in found then old(devices) else old(devices)[d := Vanished(old(devices)[d])]
    {
      if d !in found && devices[d].state == Online {
        devices := devices[d := devices[d].(state := Offline)];
      }
      assert devices == if d in found then old(devices) else old(devices)[d := Vanished(old(devices)[d])];
    }

    /** Both loops, and everyone is woken. */
    method Reconcile(keys: seq<DeviceId>, found: map<DeviceId, Device>)
      requires Distinct(keys) && forall i | 0 <= i < |keys| :: keys[i] in found
      requires AllIn(order + NewKeys(keys, devices.Keys), MergedAll(devices, keys, found))
      modifies this`devices, this`order, this`waiters
      ensures order == old(order) + NewKeys(keys, old(devices).Keys)
      ensures devices == VanishedAll(MergedAll(old(devices), keys, found), order, found)
      ensures View() == NotifyAll(old(View()).(devices := devices, order := order))
    {
      Merge(keys, found);
      Vanish(found);
      Notify();
    }

    method Refresh(keys: seq<DeviceId>, found: map<DeviceId, Device>)
      requires Valid(View()) && IsPoll(keys, found)
      modifies this
      ensures View() == Reconciled(old(View()), keys, found) && Valid(View())
    {
      ghost var was := View();
      ReconciledValid(was, keys, found);
      OnePass(was, keys, found);
      born := Reconciled(was, keys, found).born;
      Reconcile(keys, found);
    }

    static predicate AllIn(keys: seq<DeviceId>, table: map<DeviceId, Device>) {
      forall i | 0 <= i < |keys| :: keys[i] in table
    }

    static lemma Listed(was: Registry, keys: seq<DeviceId>, found: map<DeviceId, Device>, now: seq<DeviceId>,
        merged: map<DeviceId, Device>)
      requires InventoryValid(was) && IsPoll(keys, found)
      requires now == was.order + NewKeys(keys, was.devices.Keys) && merged == MergedAll(was.devices, keys, found)
      ensures merged.Keys == was.devices.Keys + found.Keys
      ensures Distinct(now) && forall d :: d in now <==> d in merged
    {
      forall d
        ensures d in merged <==> d in was.devices || d in found
      {
        MergedAllAt(was.devices, keys, found, d);
      }
      ReconciledInventory(was, keys, found);
      assert Reconciled(was, keys, found).devices.Keys == merged.Keys;
    }

    static lemma TwoPassesAt(was: Registry, keys: seq<DeviceId>, found: map<DeviceId, Device>, now: seq<DeviceId>,
                             merged: map<DeviceId, Device>, d: DeviceId)
      requires IsPoll(keys, found) && merged == MergedAll(was.devices, keys, found)
      requires Distinct(now) && d in now && d in merged && forall i | 0 <= i < |now| :: now[i] in merged
      requires d in was.devices || d in found
      ensures VanishedAll(merged, now, found)[d] == Reconciled(was, keys, found).devices[d]
    {
      MergedAllAt(was.devices, keys, found, d);
      VanishedAllAt(merged, now, found, d);
    }

    /** The two loops one after the other are the reconciliation in one go. */
    static lemma TwoPasses(was: Registry, keys: seq<DeviceId>, found: map<DeviceId, Device>, now: seq<DeviceId>,
                           merged: map<DeviceId, Device>)
      requires IsPoll(keys, found) && merged == MergedAll(was.devices, keys, found)
      requires merged.Keys == was.devices.Keys + found.Keys
      requires Distinct(now) && AllIn(now, merged) && forall d | d in merged :: d in now
      ensures VanishedAll(merged, now, found) == Reconciled(was, keys, found).devices
    {
      var after, goal := VanishedAll(merged, now, found), Reconciled(was, keys, found).devices;
      assert after.Keys == goal.Keys;
      forall d | d in after
        ensures after[d] == goal[d]
      {
        TwoPassesAt(was, keys, found, now, merged, d);
      }
    }

    static lemma OnePass(was: Registry, keys: seq<DeviceId>, found: map<DeviceId, Device>)
      requires InventoryValid(was) && IsPoll(keys, found)
      ensures forall i | 0 <= i < |keys| :: keys[i] in found
      ensures
        var now, merged := was.order + NewKeys(keys, was.devices.Keys), MergedAll(was.devices, keys, found);
        AllIn(now, merged) && VanishedAll(merged, now, found) == Reconciled(was, keys, found).devices
    {
      var now, merged := was.order + NewKeys(keys, was.devices.Keys), MergedAll(was.devices, keys, found);
      Listed(was, keys, found, now, merged);
      TwoPasses(was, keys, found, now, merged);
    }

    /** First free device in the order of discovery. */
    method FindFree(sel: DeviceSelector) returns (free: Option<DeviceId>)
      requires InventoryValid(View())
      ensures free == Devices.FindFree(View(), sel)
    {
      var i := 0;
      while i < |order|
        invariant 0 <= i <= |order|
        invariant Devices.FindFree(View(), sel) == FirstFree(View(), order[i..], sel)
      {
        var d := order[i];
        assert order[i..][1..] == order[i + 1..];
        if d !in leases && devices[d].state == Online && Matches(devices[d], sel) {
          return Some(d);
        }
        i := i + 1;
      }
      return None;
    }

    method CouldEverMatch(sel: DeviceSelector) returns (could: bool)
      requires InventoryValid(View())
      ensures could == Devices.CouldEverMatch(View(), sel)
    {
      var i := 0;
      while i < |order|
        invariant 0 <= i <= |order|
        invariant forall j | 0 <= j < i :: devices[order[j]].state == Retired || !Matches(devices[order[j]], sel)
      {
        if devices[order[i]].state != Retired && Matches(devices[order[i]], sel) {
          return true;
        }
        i := i + 1;
      }
      return false;
    }

    /** One turn of the wait loop in `acquire`. */
    method TryAcquire(w: nat, sel: DeviceSelector, deadline: Option<real>, now: real,
        token: nat) returns (result: Acquired)
      requires Valid(View())
      modifies this`leases, this`issued, this`waiters
      ensures (View(), result) == Devices.TryAcquire(old(View()), w, sel, deadline, now, token)
      ensures Valid(View())
    {
      TryAcquireValid(View(), w, sel, deadline, now, token);
      var free := FindFree(sel);
      match free
      case Some(d) =>
        leases := leases[d := |issued|];
        issued := issued + [Lease(d, token, false)];
        result := Granted(|issued| - 1);
      case None =>
        result := Parked;
        if deadline.Some? && deadline.value - now <= 0.0 {
          result := GaveUp;
        }
        if result == Parked {
          waiters := waiters[w := Waiter(sel, deadline, false)];
        }
    }

    method Unpark(w: nat)
      requires Valid(View())
      modifies this`waiters
      ensures View() == Unparked(old(View()), w) && Valid(View())
    {
      UnparkedValid(View(), w);
      waiters := waiters - {w};
    }

    method Release(h: nat)
      requires Valid(View()) && h < |issued|
      modifies this`issued, this`leases, this`waiters
      ensures View() == Released(old(View()), h) && Valid(View())
    {
      ReleasedValid(View(), h);
      if issued[h].released {
        return;
      }
      var lease := issued[h];
      issued := issued[h := lease.(released := true)];
      if lease.device in leases {
        var current := issued[leases[lease.device]];
        if current.token == lease.token {
          leases := leases - {lease.device};
        }
      }
      Notify();
    }

    method SetState(d: DeviceId, state: DeviceState)
      modifies this`devices, this`waiters
      ensures View() == StateForced(old(View()), d, state)
      ensures old(Valid(View())) ==> Valid(View())
    {
      if Valid(View()) {
        StateForcedValid(View(), d, state);
      }
      if d !in devices {
        return;
      }
      if devices[d].state == state {
        return;
      }
      devices := devices[d := devices[d].(state := state)];
      Notify();
    }
  }
}
