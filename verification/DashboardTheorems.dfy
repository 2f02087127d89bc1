/** What a dashboard may conclude from its feed: with nothing dropped it knows where each device
    stands, as far as that has been published. */
module DashboardTheorems {
  import opened Tasks
  import opened DeviceHistory
  import opened Health
  import opened Kernel
  import opened DeviceTheorems
  import opened Feed

  /** The hub carries what the monitor publishes among the messages of others. */
  datatype Message = OfMonitor(event: Event) | Other(content: string)

  function OnDevices(messages: seq<Message>): seq<Event> {
    if messages == [] then []
    else
      var n := |messages| - 1;
      OnDevices(messages[..n]) + (if messages[n].OfMonitor? then [messages[n].event] else [])
  }

  /** What these messages make of a belief about the device. */
  function Shown(messages: seq<Message>, d: DeviceId, believed: Standing): Standing {
    Published(LogOf(OnDevices(messages), d), believed)
  }

  ghost predicate HasVerdict(messages: seq<Message>, d: DeviceId) {
    exists i :: 0 <= i < |messages| && messages[i].OfMonitor? && messages[i].event.device == d
                && !IsFailed(messages[i].event)
  }

  lemma ShownOne(messages: seq<Message>, m: Message, d: DeviceId, believed: Standing)
    ensures Shown(messages + [m], d, believed)
            == if m.OfMonitor? && m.event.device == d then Published([m.event], Shown(messages, d, believed))
               else Shown(messages, d, believed)
  {
    var mine := LogOf(OnDevices(messages), d);
    assert (messages + [m])[..|messages|] == messages;
    if m.OfMonitor? {
      assert OnDevices(messages + [m]) == OnDevices(messages) + [m.event];
      LogOfAppend(OnDevices(messages), m.event, d);
      assert mine + [] == mine;
      assert (mine + [m.event])[..|mine|] == mine;
      assert [m.event][..0] == [];
    } else {
      assert OnDevices(messages + [m]) == OnDevices(messages);
    }
  }

  /** Reading on is reading from what has been read. */
  lemma {:induction false} ShownOn(earlier: seq<Message>, later: seq<Message>, d: DeviceId, believed: Standing)
    ensures Shown(earlier + later, d, believed) == Shown(later, d, Shown(earlier, d, believed))
  {
    if later == [] {
      assert earlier + later == earlier;
    } else {
      var n := |later| - 1;
      ShownOn(earlier, later[..n], d, believed);
      assert earlier + later == earlier + later[..n] + [later[n]];
      assert later == later[..n] + [later[n]];
      ShownOne(earlier + later[..n], later[n], d, believed);
      ShownOne(later[..n], later[n], d, Shown(earlier, d, believed));
    }
  }

  /** After a verdict it does not matter what was believed before. */
  lemma {:induction false} VerdictOverrules(messages: seq<Message>, d: DeviceId, one: Standing, other: Standing)
    requires HasVerdict(messages, d)
    ensures Shown(messages, d, one) == Shown(messages, d, other)
  {
    if messages != [] {
      var n := |messages| - 1;
      assert messages == messages[..n] + [messages[n]];
      ShownOne(messages[..n], messages[n], d, one);
      ShownOne(messages[..n], messages[n], d, other);
      if !(messages[n].OfMonitor? && messages[n].event.device == d && !IsFailed(messages[n].event)) {
        var i :| 0 <= i < |messages| && messages[i].OfMonitor? && messages[i].event.device == d
                 && !IsFailed(messages[i].event);
        assert messages[..n][i] == messages[i];
        VerdictOverrules(messages[..n], d, one, other);
      }
    }
  }

  lemma {:induction false} NoVerdictNoChange(messages: seq<Message>, d: DeviceId, believed: Standing)
    requires !HasVerdict(messages, d)
    ensures Shown(messages, d, believed) == believed
  {
    if messages != [] {
      var n := |messages| - 1;
      assert messages == messages[..n] + [messages[n]];
      assert forall i | 0 <= i < n :: messages[..n][i] == messages[i];
      NoVerdictNoChange(messages[..n], d, believed);
      ShownOne(messages[..n], messages[n], d, believed);
      if messages[n].OfMonitor? {
        assert [messages[n].event][..0] == [];
      }
    }
  }

  /** What the hub has carried of the monitor is what the monitor has published. */
  ghost predicate Hears(c: Connection<Message>, k: Kernel) {
    OnDevices(c.history) == k.fleet.mon.log
  }

  /** A client that has lost nothing reads from its feed, of what it was sent and what is on its
      way, whether the device is quarantined, retired or in the pool, if and only if a verdict on
      the device came in, or it knew where the device stood when its feed starts. */
  lemma DashboardIsCurrent(p: Policy, trace: seq<Kernel>, steps: seq<Step>, n: nat, d: DeviceId, replay: nat,
      wanted: bool, maxsize: int, before: seq<Message>, acts: seq<Act<Message>>, believed: Standing)
    requires IsRun(p, trace, steps) && n < |trace| && d in trace[n].fleet.reg.devices
    requires
      var c := Pumped(Connected(replay, wanted, maxsize, before), |before|, acts);
      Hears(c, trace[n]) && c.queue.dropped == 0
    ensures
      var c := Pumped(Connected(replay, wanted, maxsize, before), |before|, acts);
      var (seen, start) := (c.sent + c.backlog + c.queue.items, Feed.Start(replay, wanted, |before|));
      && d in trace[n].fleet.reg.born && start <= |c.history|
      && (Shown(seen, d, believed) == StandingOf(StateOf(trace[n].fleet, d))
          <==> HasVerdict(seen, d)
               || believed == Shown(c.history[..start], d, StandingOf(trace[n].fleet.reg.born[d].state)))
  {
    var c := Pumped(Connected(replay, wanted, maxsize, before), |before|, acts);
    NoDropNoGap(replay, wanted, maxsize, before, acts);
    StreamIsFaithful(p, trace, steps, n, d);
    RestOfFeed(c.history, Feed.Start(replay, wanted, |before|), d, believed,
               StandingOf(trace[n].fleet.reg.born[d].state));
  }

  lemma RestOfFeed(history: seq<Message>, start: nat, d: DeviceId, believed: Standing, born: Standing)
    requires start <= |history|
    ensures Shown(history[start..], d, believed) == Shown(history, d, born)
            <==> HasVerdict(history[start..], d) || believed == Shown(history[..start], d, born)
  {
    var known := Shown(history[..start], d, born);
    assert history == history[..start] + history[start..];
    ShownOn(history[..start], history[start..], d, born);
    if HasVerdict(history[start..], d) {
      VerdictOverrules(history[start..], d, believed, known);
    } else {
      NoVerdictNoChange(history[start..], d, believed);
      NoVerdictNoChange(history[start..], d, known);
    }
  }
}
