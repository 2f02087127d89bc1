/** The event hub: bounded drop-oldest queues, and a ring buffer replayed to late joiners. */
module Feed {

  // ---------- one subscriber ----------

  datatype Queue<T> = Queue(maxsize: int, items: seq<T>, dropped: nat)

  /** A size of zero or less means unbounded. */
  predicate Full<T>(q: Queue<T>) {
    0 < q.maxsize <= |q.items|
  }

  function Offered<T>(q: Queue<T>, e: T): Queue<T> {
    if !Full(q) then q.(items := q.items + [e])
    else
      var rest := q.(items := q.items[1..], dropped := q.dropped + 1);
      if Full(rest) then rest else rest.(items := rest.items + [e])
  }

  class Subscriber<T> {
    const maxsize: int
    var queue: seq<T>
    var dropped: nat

    function View(): Queue<T>
      reads this
    {
      Queue(maxsize, queue, dropped)
    }

    constructor (maxsize: int)
      ensures View() == Queue(maxsize, [], 0)
    {
      this.maxsize := maxsize;
      queue := [];
      dropped := 0;
    }

    method PutNowait(e: T) returns (ok: bool)
      modifies this`queue
      ensures ok == !old(Full(View()))
      ensures queue == if ok then old(queue) + [e] else old(queue)
    {
      ok := !(0 < maxsize <= |queue|);
      if ok {
        queue := queue + [e];
      }
    }

    method Offer(e: T)
      modifies this
      ensures View() == Offered(old(View()), e)
    {
      var ok := PutNowait(e);
      if !ok {
        if queue != [] {
          queue := queue[1..];
        }
        dropped := dropped + 1;
        var _ := PutNowait(e);
      }
    }

    /** `queue.get` once it has something to return. */
    method Get() returns (e: T)
      requires queue != []
      modifies this`queue
      ensures e == old(queue[0]) && queue == old(queue[1..])
    {
      e := queue[0];
      queue := queue[1..];
    }
  }

  // ---------- the hub ----------

  /** The last n elements, or all of them. */
  function Last<T>(n: nat, xs: seq<T>): seq<T> {
    if |xs| <= n then xs else xs[|xs| - n..]
  }

  class EventHub<T> {
    const replay: nat
    var subscribers: set<Subscriber<T>>
    var recent: seq<T>

    constructor (replay: nat)
      ensures this.replay == replay && subscribers == {} && recent == []
    {
      this.replay := replay;
      subscribers := {};
      recent := [];
    }

    /** Every subscriber is offered the event once; nobody else's queue is touched. */
    method Publish(e: T)
      modifies this`recent, subscribers
      ensures recent == Last(replay, old(recent) + [e])
      ensures forall s | s in subscribers :: s.View() == Offered(old(s.View()), e)
    {
      recent := recent + [e];
      if |recent| > replay {
        recent := recent[|recent| - replay..];
      }
      var todo := subscribers;
      while todo != {}
        invariant todo <= subscribers
        invariant recent == Last(replay, old(recent) + [e])
        invariant forall s | s in subscribers && s !in todo :: s.View() == Offered(old(s.View()), e)
        invariant forall s | s in todo :: s.View() == old(s.View())
        decreases todo
      {
        var s :| s in todo;
        s.Offer(e);
        todo := todo - {s};
      }
    }

    method Subscribe(maxsize: int) returns (s: Subscriber<T>)
      modifies this`subscribers
      ensures fresh(s) && s.View() == Queue(maxsize, [], 0)
      ensures subscribers == old(subscribers) + {s}
    {
      s := new Subscriber<T>(maxsize);
      subscribers := subscribers + {s};
    }

    method Unsubscribe(s: Subscriber<T>)
      modifies this`subscribers
      ensures subscribers == old(subscribers) - {s}
    {
      subscribers := subscribers - {s};
    }
  }

  /** The ring buffer, filled one event at a time, holds the last `replay` events published. */
  function Ring<T>(replay: nat, published: seq<T>): seq<T> {
    if published == [] then []
    else
      var n := |published| - 1;
      Last(replay, Ring(replay, published[..n]) + [published[n]])
  }

  lemma {:induction false} RingIsLast<T>(replay: nat, published: seq<T>)
    ensures Ring(replay, published) == Last(replay, published)
  {
    if published != [] {
      var n := |published| - 1;
      RingIsLast(replay, published[..n]);
      assert published == published[..n] + [published[n]];
    }
  }

  // ---------- one connection's life ----------

  /** What can happen to a connection: the hub publishes, or the connection sends the next
      thing it has, if it has one. */
  datatype Act<T> = Publish(e: T) | Send

  /** `backlog` is what is left of the copy of the ring buffer taken on connecting. The last
      three fields are history: everything published so far, everything sent to the client,
      and where in the history each sent event stands. */
  datatype Connection<T> = Connection(backlog: seq<T>, queue: Queue<T>, history: seq<T>, sent: seq<T>, at: seq<nat>)

  function Connected<T>(replay: nat, wanted: bool, maxsize: int, before: seq<T>): Connection<T> {
    Connection(if wanted then Ring(replay, before) else [], Queue(maxsize, [], 0), before, [], [])
  }

  /** The backlog goes out first, and only then the live queue. `joined` is how much had been
      published when the client connected. */
  function Acted<T>(c: Connection<T>, joined: nat, a: Act<T>): Connection<T> {
    match a
    case Publish(e) => c.(queue := Offered(c.queue, e), history := c.history + [e])
    case Send =>
      if c.backlog != [] then
        c.(backlog := c.backlog[1..], sent := c.sent + [c.backlog[0]], at := c.at + [Back(joined, |c.backlog|)])
      else if c.queue.items != [] then
        c.(queue := c.queue.(items := c.queue.items[1..]), sent := c.sent + [c.queue.items[0]],
        at := c.at + [Back(|c.history|, |c.queue.items|)])
      else c
  }

  /** n places before `end`. */
  function Back(end: nat, n: nat): nat {
    if n <= end then end - n else 0
  }

  function Pumped<T>(c: Connection<T>, joined: nat, acts: seq<Act<T>>): Connection<T> {
    if acts == [] then c
    else
      var n := |acts| - 1;
      Acted(Pumped(c, joined, acts[..n]), joined, acts[n])
  }

  /** Where in the history a new client's feed starts. */
  function Start(replay: nat, wanted: bool, joined: nat): nat {
    if wanted then Back(joined, replay) else joined
  }

  /** Every event sent stands in the history at or after `start` and before `end`, each one
      later than the one before it. */
  ghost predicate InOrder<T>(c: Connection<T>, start: nat, end: int) {
    && |c.at| == |c.sent|
    && (forall i | 0 <= i < |c.at| ::
          start <= c.at[i] < end && c.at[i] < |c.history| && c.sent[i] == c.history[c.at[i]])
    && forall i, j | 0 <= i < j < |c.at| :: c.at[i] < c.at[j]
  }

  /** What waits is where it should be in the history, and everything is counted. */
  ghost predicate Counted<T>(c: Connection<T>, start: nat, joined: nat) {
    var waiting := |c.queue.items|;
    && start + |c.backlog| <= joined && joined + waiting <= |c.history|
    && c.backlog == c.history[joined - |c.backlog|..joined]
    && c.queue.items == c.history[|c.history| - waiting..]
    && |c.sent| + |c.backlog| + waiting + c.queue.dropped == |c.history| - start
    && (c.queue.maxsize > 0 ==> waiting <= c.queue.maxsize)
    && (c.queue.maxsize <= 0 ==> c.queue.dropped == 0)
  }

  /** What was sent is in order, and the replayed part of it has no gap. */
  ghost predicate Told<T>(c: Connection<T>, start: nat, joined: nat) {
    && |c.backlog| <= joined && |c.queue.items| <= |c.history|
    && InOrder(c, start, if c.backlog != [] then joined - |c.backlog| else |c.history| - |c.queue.items|)
    && |c.sent| + |c.backlog| >= joined - start
    && (c.backlog != [] ==> |c.sent| + |c.backlog| == joined - start)
    && forall i | 0 <= i < |c.at| && i < joined - start :: c.at[i] == start + i
  }

  ghost predicate Accounts<T>(c: Connection<T>, start: nat, joined: nat) {
    Counted(c, start, joined) && Told(c, start, joined)
  }

  lemma PublishedCounted<T>(c: Connection<T>, start: nat, joined: nat, e: T)
    requires Counted(c, start, joined)
    ensures Counted(Acted(c, joined, Publish(e)), start, joined)
  {
  }

  lemma PublishedAccounts<T>(c: Connection<T>, start: nat, joined: nat, e: T)
    requires Accounts(c, start, joined)
    ensures Accounts(Acted(c, joined, Publish(e)), start, joined)
  {
    PublishedCounted(c, start, joined, e);
    var d := Acted(c, joined, Publish(e));
    assert |d.history| - |d.queue.items| >= |c.history| - |c.queue.items|;
    assert Told(d, start, joined);
  }

  /** The next event out is the one that stands at `place`, after all those sent before. */
  lemma SentInOrder<T>(c: Connection<T>, d: Connection<T>, start: nat, place: nat, end: int)
    requires InOrder(c, start, place) && start <= place < end && place < |c.history|
    requires d.history == c.history && d.at == c.at + [place] && d.sent == c.sent + [c.history[place]]
    ensures InOrder(d, start, end)
  {
  }

  lemma SentBacklog<T>(c: Connection<T>, start: nat, joined: nat)
    requires Accounts(c, start, joined) && c.backlog != []
    ensures Accounts(Acted(c, joined, Send), start, joined)
  {
    var d := Acted(c, joined, Send);
    var place := joined - |c.backlog|;
    assert d.backlog == c.history[place..joined][1..] == c.history[place + 1..joined];
    assert Counted(d, start, joined);
    SentInOrder(c, d, start, place, if d.backlog != [] then joined - |d.backlog| else |d.history| - |d.queue.items|);
  }

  lemma SentLive<T>(c: Connection<T>, start: nat, joined: nat)
    requires Accounts(c, start, joined) && c.backlog == [] && c.queue.items != []
    ensures Accounts(Acted(c, joined, Send), start, joined)
  {
    var d := Acted(c, joined, Send);
    var place := |c.history| - |c.queue.items|;
    assert d.queue.items == c.history[place..][1..] == c.history[place + 1..];
    assert Counted(d, start, joined);
    SentInOrder(c, d, start, place, place + 1);
  }

  lemma SentAccounts<T>(c: Connection<T>, start: nat, joined: nat)
    requires Accounts(c, start, joined)
    ensures Accounts(Acted(c, joined, Send), start, joined)
  {
    if c.backlog != [] {
      SentBacklog(c, start, joined);
    } else if c.queue.items != [] {
      SentLive(c, start, joined);
    }
  }

  lemma {:induction false} PumpedAccounts<T>(c: Connection<T>, start: nat, joined: nat, acts: seq<Act<T>>)
    requires Accounts(c, start, joined)
    ensures Accounts(Pumped(c, joined, acts), start, joined)
    ensures Pumped(c, joined, acts).queue.maxsize == c.queue.maxsize
  {
    if acts != [] {
      PumpedAccounts(c, start, joined, acts[..|acts| - 1]);
      match acts[|acts| - 1]
      case Publish(e) => PublishedAccounts(Pumped(c, joined, acts[..|acts| - 1]), start, joined, e);
      case Send => SentAccounts(Pumped(c, joined, acts[..|acts| - 1]), start, joined);
    }
  }

  lemma ConnectedAccounts<T>(replay: nat, wanted: bool, maxsize: int, before: seq<T>)
    ensures Accounts(Connected(replay, wanted, maxsize, before), Start(replay, wanted, |before|), |before|)
  {
    RingIsLast(replay, before);
    var c, start := Connected(replay, wanted, maxsize, before), Start(replay, wanted, |before|);
    assert c.backlog == before[start..] == before[|before| - |c.backlog|..|before|];
    assert Counted(c, start, |before|);
    assert InOrder(c, start, 0);
  }

  lemma InOrderLater<T>(c: Connection<T>, start: nat, end: int, later: int)
    requires InOrder(c, start, end) && end <= later
    ensures InOrder(c, start, later)
  {
  }

  /** Whatever is published and whenever the client is served, its feed is the history from
      the last min(replay, n) events before it connected: in order, nothing twice, the
      replayed part whole, and exactly `dropped` events missing of those not still waiting.
      The queue is the most recent part of the history and keeps to its bound. */
  lemma FeedAccounts<T>(replay: nat, wanted: bool, maxsize: int, before: seq<T>, acts: seq<Act<T>>)
    ensures
      var c := Pumped(Connected(replay, wanted, maxsize, before), |before|, acts);
      var waiting := |c.queue.items|;
      var start := Start(replay, wanted, |before|);
      && InOrder(c, start, |c.history| - waiting)
      && |c.sent| + |c.backlog| + waiting + c.queue.dropped == |c.history| - start
      && (forall i | 0 <= i < |c.sent| && i < |before| - start :: c.at[i] == start + i)
      && waiting <= |c.history| && c.queue.items == c.history[|c.history| - waiting..]
      && (maxsize > 0 ==> waiting <= maxsize)
      && (maxsize <= 0 ==> c.queue.dropped == 0)
  {
    var c0, start := Connected(replay, wanted, maxsize, before), Start(replay, wanted, |before|);
    ConnectedAccounts(replay, wanted, maxsize, before);
    PumpedAccounts(c0, start, |before|, acts);
    var c := Pumped(c0, |before|, acts);
    InOrderLater(c, start, if c.backlog != [] then |before| - |c.backlog| else |c.history| - |c.queue.items|,
        |c.history| - |c.queue.items|);
  }

  /** A client that lost nothing has, with what is still on its way, the whole history. */
  lemma NoDropNoGap<T>(replay: nat, wanted: bool, maxsize: int, before: seq<T>, acts: seq<Act<T>>)
    ensures
      var c := Pumped(Connected(replay, wanted, maxsize, before), |before|, acts);
      var start := Start(replay, wanted, |before|);
      start <= |c.history| && (c.queue.dropped == 0 <==> c.sent + c.backlog + c.queue.items == c.history[start..])
  {
    var c := Pumped(Connected(replay, wanted, maxsize, before), |before|, acts);
    var start := Start(replay, wanted, |before|);
    ConnectedAccounts(replay, wanted, maxsize, before);
    PumpedAccounts(Connected(replay, wanted, maxsize, before), start, |before|, acts);
    if c.queue.dropped == 0 {
      Whole(c, start, |before|);
    }
  }

  lemma Whole<T>(c: Connection<T>, start: nat, joined: nat)
    requires Accounts(c, start, joined) && c.queue.dropped == 0
    ensures c.sent + c.backlog + c.queue.items == c.history[start..]
  {
    var n := |c.sent|;
    if c.backlog == [] {
      Gapless(c.at, start, n);
    }
    assert c.sent == c.history[start..start + n];
    assert start + n + |c.backlog| + |c.queue.items| == |c.history|;
    if c.backlog == [] {
      assert c.history[start..] == c.history[start..start + n] + c.history[start + n..];
    } else {
      assert start + n == joined - |c.backlog|;
      assert c.history[start..] == c.history[start..start + n] + c.history[start + n..joined] + c.history[joined..];
    }
  }

  /** n strictly increasing numbers from `start` on and below start + n leave none out. */
  lemma {:induction false} Gapless(at: seq<nat>, start: nat, n: nat)
    requires |at| == n
    requires forall i | 0 <= i < n :: start <= at[i] < start + n
    requires forall i, j | 0 <= i < j < n :: at[i] < at[j]
    ensures forall i | 0 <= i < n :: at[i] == start + i
  {
    if n > 0 {
      var front := at[..n - 1];
      assert forall i | 0 <= i < n - 1 :: front[i] == at[i] && at[i] < at[n - 1];
      Gapless(front, start, n - 1);
      assert n > 1 ==> front[n - 2] < at[n - 1];
    }
  }

  // ---------- the connection as an object ----------

  lemma PumpedOnce<T>(c: Connection<T>, joined: nat, acts: seq<Act<T>>, a: Act<T>)
    ensures Pumped(c, joined, acts + [a]) == Acted(Pumped(c, joined, acts), joined, a)
  {
    assert (acts + [a])[..|acts|] == acts;
  }

  /** One client: its subscription, and what is left of the copy of the ring buffer. */
  class Pump<T> {
    const hub: EventHub<T>
    const subscriber: Subscriber<T>
    var backlog: seq<T>
    ghost const wanted: bool
    ghost const before: seq<T>
    ghost var acts: seq<Act<T>>

    /** The feed this client has had. */
    ghost function Connection(): Connection<T>
      reads this
    {
      Pumped(Connected(hub.replay, wanted, subscriber.maxsize, before), |before|, acts)
    }

    ghost predicate Valid()
      reads this, hub, subscriber
    {
      && subscriber in hub.subscribers
      && backlog == Connection().backlog && subscriber.View() == Connection().queue
      && hub.recent == Ring(hub.replay, Connection().history)
    }

    constructor (hub: EventHub<T>, wanted: bool, maxsize: int, ghost before: seq<T>)
      requires hub.recent == Ring(hub.replay, before)
      modifies hub`subscribers
      ensures Valid() && acts == [] && this.hub == hub && this.wanted == wanted && this.before == before
      ensures fresh(subscriber) && subscriber.maxsize == maxsize
      ensures hub.subscribers == old(hub.subscribers) + {subscriber}
    {
      var s := hub.Subscribe(maxsize);
      this.hub, subscriber, this.wanted, this.before := hub, s, wanted, before;
      backlog := if wanted then hub.recent else [];
      acts := [];
    }

    /** The next thing goes out, once there is one. */
    method Send() returns (e: T)
      requires Valid() && (backlog != [] || subscriber.queue != [])
      modifies this`backlog, this`acts, subscriber`queue
      ensures Valid() && acts == old(acts) + [Act.Send]
      ensures Connection().sent == old(Connection().sent) + [e]
    {
      ghost var c := Connected(hub.replay, wanted, subscriber.maxsize, before);
      PumpedOnce(c, |before|, acts, Act.Send);
      if backlog != [] {
        e := backlog[0];
        backlog := backlog[1..];
      } else {
        e := subscriber.Get();
      }
      acts := acts + [Act.Send];
    }

    /** The hub publishes while this client is connected. */
    method Hear(e: T)
      requires Valid()
      modifies this`acts, hub`recent, hub.subscribers
      ensures Valid() && acts == old(acts) + [Act.Publish(e)]
    {
      ghost var c := Connected(hub.replay, wanted, subscriber.maxsize, before);
      PumpedOnce(c, |before|, acts, Act.Publish(e));
      RingIsLast(hub.replay, Connection().history);
      RingIsLast(hub.replay, Connection().history + [e]);
      hub.Publish(e);
      acts := acts + [Act.Publish(e)];
    }

    method Close()
      requires Valid()
      modifies hub`subscribers
      ensures hub.subscribers == old(hub.subscribers) - {subscriber}
    {
      hub.Unsubscribe(subscriber);
    }
  }
}
