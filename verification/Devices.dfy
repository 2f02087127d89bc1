/** Device inventory and exclusive leases. */
module Devices {
  import opened Tasks

  datatype DeviceState = Online | Offline | Unauthorized | Quarantined | Retired

  datatype Device = Device(
    id: DeviceId,
    transport: string,
    state: DeviceState,
    model: string,
    tags: seq<string>,
    recoveries: nat)

  predicate Matches(d: Device, sel: DeviceSelector) {
    && (sel.deviceId.Some? && sel.deviceId.value.serial != "" ==> sel.deviceId.value == d.id)
    && (sel.transports != [] ==> d.transport in sel.transports)
    && (sel.tags != [] ==> forall t | t in sel.tags :: t in d.tags)
  }

  /** The two verdicts only the health monitor may pass or lift. */
  predicate Pulled(state: DeviceState) {
    state == Quarantined || state == Retired
  }

  /** A lease object; its identity is its index in `Registry.issued`. Tokens may collide. */
  datatype Lease = Lease(device: DeviceId, token: nat, released: bool)

  /** A coroutine parked on the registry's condition. */
  datatype Waiter = Waiter(selector: DeviceSelector, deadline: Option<real>, notified: bool)

  /** `issued` is every lease ever granted and `born` every device as first seen. */
  datatype Registry = Registry(
    devices: map<DeviceId, Device>,
    order: seq<DeviceId>,
    leases: map<DeviceId, nat>,
    waiters: map<nat, Waiter>,
    issued: seq<Lease>,
    born: map<DeviceId, Device>)

  const EMPTY_REGISTRY := Registry(map[], [], map[], map[], [], map[])

  predicate Free(r: Registry, d: DeviceId, sel: DeviceSelector) {
    && d in r.devices
    && d !in r.leases
    && r.devices[d].state == Online
    && Matches(r.devices[d], sel)
  }

  /** First free device in the order of discovery. */
  function FirstFree(r: Registry, order: seq<DeviceId>, sel: DeviceSelector): (found: Option<DeviceId>)
    ensures found.Some? ==> found.value in order && Free(r, found.value, sel)
    ensures found.None? <==> forall d | d in order :: !Free(r, d, sel)
  {
    if order == [] then None
    else if Free(r, order[0], sel) then Some(order[0])
    else
      assert order == [order[0]] + order[1..];
      FirstFree(r, order[1..], sel)
  }

  function FindFree(r: Registry, sel: DeviceSelector): Option<DeviceId> {
    FirstFree(r, r.order, sel)
  }

  predicate CouldEverMatch(r: Registry, sel: DeviceSelector) {
    exists d | d in r.devices :: r.devices[d].state != Retired && Matches(r.devices[d], sel)
  }

  function NotifyAll(r: Registry): Registry {
    r.(waiters := map w | w in r.waiters :: r.waiters[w].(notified := true))
  }

  // ---------- refresh ----------

  function Merged(existing: Device, found: Device): Device {
    existing.(
    model := if found.model != "" then found.model else existing.model,
    tags := if found.tags != [] then found.tags else existing.tags,
    state := if Pulled(existing.state) then existing.state else found.state)
  }

  function Vanished(existing: Device): Device {
    if existing.state == Online then existing.(state := Offline) else existing
  }

  function NewKeys(keys: seq<DeviceId>, known: set<DeviceId>): (added: seq<DeviceId>)
    ensures forall k :: k in added <==> k in keys && k !in known
  {
    if keys == [] then []
    else
      var n := |keys| - 1;
      assert keys == keys[..n] + [keys[n]];
      NewKeys(keys[..n], known) + (if keys[n] in known then [] else [keys[n]])
  }

  predicate Distinct(keys: seq<DeviceId>) {
    forall i, j | 0 <= i < j < |keys| :: keys[i] != keys[j]
  }

  /** A poll as the dictionary the registry builds from it: keys in order, one entry each. */
  ghost predicate IsPoll(keys: seq<DeviceId>, found: map<DeviceId, Device>) {
    && Distinct(keys)
    && (forall k :: k in keys <==> k in found)
    && (forall k | k in found :: found[k].id == k)
  }

  /** Sources report the adb states, or hand back the registry's own device objects. */
  predicate PollSane(r: Registry, found: map<DeviceId, Device>) {
    forall d | d in found && d in r.devices :: Pulled(found[d].state) ==> Pulled(r.devices[d].state)
  }

  function Reconciled(r: Registry, keys: seq<DeviceId>, found: map<DeviceId, Device>): Registry {
    var devices := map d | d in r.devices.Keys + found.Keys ::
                     if d !in r.devices then found[d]
                     else if d in found then Merged(r.devices[d], found[d])
                     else Vanished(r.devices[d]);
    NotifyAll(r.(
              devices := devices,
              order := r.order + NewKeys(keys, r.devices.Keys),
              born := map d | d in r.born.Keys + found.Keys :: if d in r.born then r.born[d] else found[d]))
  }

  // ---------- leases ----------

  datatype Acquired = Granted(handle: nat) | Parked | GaveUp

  function Grant(r: Registry, d: DeviceId, token: nat): Registry {
    r.(leases := r.leases[d := |r.issued|], issued := r.issued + [Lease(d, token, false)])
  }

  /** One turn of the wait loop in `acquire`, entered by a coroutine that is not parked. */
  function TryAcquire(r: Registry, w: nat, sel: DeviceSelector, deadline: Option<real>, now: real, token: nat)
    : (Registry, Acquired)
  {
    match FindFree(r, sel)
    case Some(d) => (Grant(r, d, token), Granted(|r.issued|))
    case None =>
      if deadline.Some? && deadline.value - now <= 0.0 then (r, GaveUp)
      else (r.(waiters := r.waiters[w := Waiter(sel, deadline, false)]), Parked)
  }

  function Unparked(r: Registry, w: nat): Registry {
    r.(waiters := r.waiters - {w})
  }

  function Released(r: Registry, h: nat): Registry
    requires h < |r.issued|
  {
    var lease := r.issued[h];
    if lease.released then r
    else
      var r' := r.(issued := r.issued[h := lease.(released := true)]);
      if lease.device in r.leases && r.leases[lease.device] < |r.issued|
         && r.issued[r.leases[lease.device]].token == lease.token
      then NotifyAll(r'.(leases := r'.leases - {lease.device}))
      else NotifyAll(r')
  }

  function StateForced(r: Registry, d: DeviceId, state: DeviceState): Registry {
    if d !in r.devices || r.devices[d].state == state then r
    else NotifyAll(r.(devices := r.devices[d := r.devices[d].(state := state)]))
  }

  predicate NoneFreeBefore(r: Registry, order: seq<DeviceId>, sel: DeviceSelector, j: nat) {
    forall m | 0 <= m < j && m < |order| :: !Free(r, order[m], sel)
  }

  /** The scan stops at the first free device: an earlier one is not free. */
  lemma {:induction false} FirstFreeIsFirst(r: Registry, order: seq<DeviceId>, sel: DeviceSelector,
      i: nat) returns (j: nat)
    requires i < |order| && Free(r, order[i], sel)
    ensures j <= i && FirstFree(r, order, sel) == Some(order[j]) && NoneFreeBefore(r, order, sel, j)
  {
    if Free(r, order[0], sel) {
      j := 0;
    } else {
      var rest := order[1..];
      var before := FirstFreeIsFirst(r, rest, sel, i - 1);
      j := before + 1;
      assert forall m | 1 <= m < j :: order[m] == rest[m - 1] && !Free(r, rest[m - 1], sel);
    }
  }

  /** A flap costs a device neither its identity nor its recovery count; a poll overrules no
      verdict; and a device is taken offline exactly when it was ONLINE and is missing. */
  lemma FlapKeepsHistory(r: Registry, keys: seq<DeviceId>, found: map<DeviceId, Device>, d: DeviceId)
    requires d in r.devices
    ensures
      var (was, after) := (r.devices[d], Reconciled(r, keys, found).devices[d]);
      && after.id == was.id && after.transport == was.transport && after.recoveries == was.recoveries
      && (Pulled(was.state) ==> after.state == was.state)
      && (d in found && !Pulled(was.state) ==> after.state == found[d].state)
      && (d !in found ==> (after != was <==> was.state == Online && after.state == Offline))
  {
    if d !in found && r.devices[d].state == Online {
      assert Reconciled(r, keys, found).devices[d] == r.devices[d].(state := Offline);
    }
  }

  // ---------- invariants ----------

  ghost predicate InventoryValid(r: Registry) {
    && Distinct(r.order)
    && (forall d :: d in r.order <==> d in r.devices)
    && (forall d | d in r.devices :: r.devices[d].id == d)
    && r.born.Keys == r.devices.Keys
  }

  /** The lease table and the unreleased leases are the same thing. */
  ghost predicate LeasesValid(r: Registry) {
    && (forall d | d in r.leases ::
          && d in r.devices
          && r.leases[d] < |r.issued|
          && !r.issued[r.leases[d]].released
          && r.issued[r.leases[d]].device == d)
    && (forall h | 0 <= h < |r.issued| && !r.issued[h].released ::
          r.issued[h].device in r.leases && r.leases[r.issued[h].device] == h)
  }

  /** Whoever sleeps without a pending wake-up has nothing to wake up for. */
  ghost predicate NoLostWakeup(r: Registry) {
    forall w | w in r.waiters && !r.waiters[w].notified :: FindFree(r, r.waiters[w].selector) == None
  }

  ghost predicate Valid(r: Registry) {
    InventoryValid(r) && LeasesValid(r) && NoLostWakeup(r)
  }

  lemma {:induction false} NewKeysDistinct(keys: seq<DeviceId>, known: set<DeviceId>)
    requires Distinct(keys)
    ensures Distinct(NewKeys(keys, known))
  {
    if keys != [] {
      var n := |keys| - 1;
      NewKeysDistinct(keys[..n], known);
      assert keys == keys[..n] + [keys[n]];
      assert keys[n] !in keys[..n];
    }
  }

  lemma DistinctAppend(a: seq<DeviceId>, b: seq<DeviceId>)
    requires Distinct(a) && Distinct(b) && forall k | k in b :: k !in a
    ensures Distinct(a + b)
  {
    var c := a + b;
    forall i, j | 0 <= i < j < |c| ensures c[i] != c[j] {
      if i < |a| <= j {
        assert c[i] in a && c[j] in b;
      }
    }
  }

  lemma ReconciledOrder(r: Registry, keys: seq<DeviceId>, found: map<DeviceId, Device>)
    requires Distinct(r.order) && (forall d | d in r.order :: d in r.devices) && Distinct(keys)
    ensures Distinct(Reconciled(r, keys, found).order)
  {
    NewKeysDistinct(keys, r.devices.Keys);
    DistinctAppend(r.order, NewKeys(keys, r.devices.Keys));
  }

  lemma ReconciledDomain(r: Registry, keys: seq<DeviceId>, found: map<DeviceId, Device>)
    requires (forall d :: d in r.order <==> d in r.devices) && IsPoll(keys, found)
    ensures var r' := Reconciled(r, keys, found); forall d :: d in r'.order <==> d in r'.devices
  {
    var r' := Reconciled(r, keys, found);
    forall d ensures d in r'.order <==> d in r'.devices {
      assert d in r'.order <==> d in r.order || d in NewKeys(keys, r.devices.Keys);
    }
  }

  lemma ReconciledInventory(r: Registry, keys: seq<DeviceId>, found: map<DeviceId, Device>)
    requires InventoryValid(r) && IsPoll(keys, found)
    ensures InventoryValid(Reconciled(r, keys, found))
  {
    ReconciledOrder(r, keys, found);
    ReconciledDomain(r, keys, found);
  }

  lemma ReconciledLeases(r: Registry, keys: seq<DeviceId>, found: map<DeviceId, Device>)
    requires Valid(r) && IsPoll(keys, found)
    ensures LeasesValid(Reconciled(r, keys, found)) && NoLostWakeup(Reconciled(r, keys, found))
  {
  }

  lemma ReconciledValid(r: Registry, keys: seq<DeviceId>, found: map<DeviceId, Device>)
    requires Valid(r) && IsPoll(keys, found)
    ensures Valid(Reconciled(r, keys, found))
  {
    ReconciledInventory(r, keys, found);
    ReconciledLeases(r, keys, found);
  }

  lemma GrantValid(r: Registry, d: DeviceId, token: nat)
    requires Valid(r) && d in r.devices && d !in r.leases
    ensures Valid(Grant(r, d, token))
  {
    var r' := Grant(r, d, token);
    assert LeasesValid(r');
    forall w | w in r'.waiters && !r'.waiters[w].notified
      ensures FindFree(r', r'.waiters[w].selector) == None
    {
      var sel := r.waiters[w].selector;
      assert FindFree(r, sel) == None;
      assert forall x | x in r.order :: !Free(r, x, sel);
    }
  }

  lemma TryAcquireValid(r: Registry, w: nat, sel: DeviceSelector, deadline: Option<real>, now: real, token: nat)
    requires Valid(r)
    ensures Valid(TryAcquire(r, w, sel, deadline, now, token).0)
  {
    match FindFree(r, sel)
    case Some(d) => GrantValid(r, d, token);
    case None =>
      var r' := TryAcquire(r, w, sel, deadline, now, token).0;
      forall v | v in r'.waiters && !r'.waiters[v].notified
        ensures FindFree(r', r'.waiters[v].selector) == None
      {
        SameFree(r, r', r'.waiters[v].selector);
      }
  }

  lemma SameFree(r: Registry, r': Registry, sel: DeviceSelector)
    requires r'.devices == r.devices && r'.leases == r.leases && r'.order == r.order
    ensures FindFree(r', sel) == None <==> FindFree(r, sel) == None
  {
    assert forall d :: Free(r', d, sel) <==> Free(r, d, sel);
  }

  lemma UnparkedValid(r: Registry, w: nat)
    requires Valid(r)
    ensures Valid(Unparked(r, w))
  {
    var r' := Unparked(r, w);
    forall v | v in r'.waiters && !r'.waiters[v].notified
      ensures FindFree(r', r'.waiters[v].selector) == None
    {
      SameFree(r, r', r.waiters[v].selector);
    }
  }

  /** A release that reaches the table finds its own lease there: the token test cannot fail. */
  lemma ReleaseFindsItsOwnLease(r: Registry, h: nat)
    requires Valid(r) && h < |r.issued| && !r.issued[h].released
    ensures r.issued[h].device in r.leases && r.leases[r.issued[h].device] == h
    ensures Released(r, h).leases == r.leases - {r.issued[h].device}
    ensures forall i | 0 <= i < |r.issued| && i != h :: Released(r, h).issued[i] == r.issued[i]
  {
  }

  lemma ReleasedValid(r: Registry, h: nat)
    requires Valid(r) && h < |r.issued|
    ensures Valid(Released(r, h))
    ensures Released(Released(r, h), h) == Released(r, h)
  {
  }

  lemma StateForcedValid(r: Registry, d: DeviceId, state: DeviceState)
    requires Valid(r)
    ensures Valid(StateForced(r, d, state))
  {
  }

  /** At most one unreleased lease per device, over all leases ever issued. */
  lemma LeaseExclusive(r: Registry, i: nat, j: nat)
    requires Valid(r) && i < |r.issued| && j < |r.issued|
    requires !r.issued[i].released && !r.issued[j].released && r.issued[i].device == r.issued[j].device
    ensures i == j
  {
  }
}
