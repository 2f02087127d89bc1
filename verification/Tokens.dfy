/** The token cache: one lock per realm, a check before it and a second check inside it, and
    the refresh request made while it is held. Calls of `get` interleave at the two points
    where they can suspend: waiting for the lock, and waiting for the refresh. */
module Tokens {
  import opened Tasks

  datatype Realm = Realm(name: string)
  datatype Token = Token(raw: string)

  /** An opaque token has no expiry anyone can read. */
  datatype Cached = Cached(token: Token, expires: Option<real>)

  datatype Phase = Waiting | Refreshing | Answered(token: Token) | Raised

  datatype Call = Call(realm: Realm, phase: Phase)

  /** `holder` is the call inside each realm's lock; a realm that is not there is unlocked. */
  datatype Cache = Cache(skew: real, tokens: map<Realm, Cached>, holder: map<Realm, nat>, calls: seq<Call>)

  predicate Stale(c: Cached, skew: real, now: real) {
    c.expires.Some? && now >= c.expires.value - skew
  }

  predicate Usable(s: Cache, realm: Realm, now: real) {
    realm in s.tokens && !Stale(s.tokens[realm], s.skew, now)
  }

  // ---------- the steps of a call ----------

  /** `now` is what the wall clock reads at that step. It is not assumed to be monotone. */
  datatype Step =
    | Get(realm: Realm, now: real)
    | Enter(call: nat, now: real)
    | Store(call: nat, raw: Token, expires: Option<real>)
    | Fail(call: nat)
    | Invalidate(realm: Realm)

  function Moved(s: Cache, i: nat, phase: Phase): seq<Call>
    requires i < |s.calls|
  {
    s.calls[i := s.calls[i].(phase := phase)]
  }

  predicate Enabled(s: Cache, step: Step) {
    match step
    case Get(_, _) => true
    case Enter(i, _) => i < |s.calls| && s.calls[i].phase == Waiting && s.calls[i].realm !in s.holder
    case Store(i, _, _) => i < |s.calls| && s.calls[i].phase == Refreshing
    case Fail(i) => i < |s.calls| && s.calls[i].phase == Refreshing
    case Invalidate(_) => true
  }

  function Got(s: Cache, realm: Realm, now: real): Cache {
    s.(calls := s.calls + [Call(realm, if Usable(s, realm, now) then Answered(s.tokens[realm].token) else Waiting)])
  }

  /** The lock is taken and the cache looked at again: an answer leaves the lock at once, and
      otherwise the refresh starts. */
  function Entered(s: Cache, i: nat, now: real): Cache
    requires i < |s.calls|
  {
    var realm := s.calls[i].realm;
    if Usable(s, realm, now) then s.(calls := Moved(s, i, Answered(s.tokens[realm].token)))
    else s.(holder := s.holder[realm := i], calls := Moved(s, i, Refreshing))
  }

  function Stored(s: Cache, i: nat, raw: Token, expires: Option<real>): Cache
    requires i < |s.calls|
  {
    var realm := s.calls[i].realm;
    s.(tokens := s.tokens[realm := Cached(raw, expires)], holder := s.holder - {realm}, calls := Moved(s, i,
        Answered(raw)))
  }

  function RefreshFailed(s: Cache, i: nat): Cache
    requires i < |s.calls|
  {
    s.(holder := s.holder - {s.calls[i].realm}, calls := Moved(s, i, Raised))
  }

  function Invalidated(s: Cache, realm: Realm): Cache {
    s.(tokens := s.tokens - {realm})
  }

  function Apply(s: Cache, step: Step): Cache
    requires Enabled(s, step)
  {
    match step
    case Get(realm, now) => Got(s, realm, now)
    case Enter(i, now) => Entered(s, i, now)
    case Store(i, raw, expires) => Stored(s, i, raw, expires)
    case Fail(i) => RefreshFailed(s, i)
    case Invalidate(realm) => Invalidated(s, realm)
  }

  // ---------- runs ----------

  ghost predicate IsRun(trace: seq<Cache>, steps: seq<Step>) {
    && |trace| == |steps| + 1
    && trace[0].tokens == map[] && trace[0].holder == map[] && trace[0].calls == []
    && forall k | 0 <= k < |steps| :: Enabled(trace[k], steps[k]) && trace[k + 1] == Apply(trace[k], steps[k])
  }

  /** The lock of a realm is held exactly by the call that is refreshing it. */
  ghost predicate Valid(s: Cache) {
    && (forall r | r in s.holder :: s.holder[r] < |s.calls| && s.calls[s.holder[r]] == Call(r, Refreshing))
    && forall i | 0 <= i < |s.calls| && s.calls[i].phase == Refreshing ::
      s.calls[i].realm in s.holder && s.holder[s.calls[i].realm] == i
  }

  lemma StepValid(s: Cache, step: Step)
    requires Valid(s) && Enabled(s, step)
    ensures Valid(Apply(s, step))
  {
  }

  lemma {:induction false} RunValid(trace: seq<Cache>, steps: seq<Step>, k: nat)
    requires IsRun(trace, steps) && k < |trace|
    ensures Valid(trace[k]) && trace[k].skew == trace[0].skew
    decreases k
  {
    if k > 0 {
      RunValid(trace, steps, k - 1);
      StepValid(trace[k - 1], steps[k - 1]);
    }
  }

  /** At most one refresh of a realm is in flight, however many calls there are, and while
      one is, no other call of that realm can enter. */
  lemma SingleFlight(trace: seq<Cache>, steps: seq<Step>, k: nat, i: nat, j: nat, now: real)
    requires IsRun(trace, steps) && k < |trace|
    requires i < |trace[k].calls| && j < |trace[k].calls| && i != j
    requires trace[k].calls[i].realm == trace[k].calls[j].realm
    requires trace[k].calls[i].phase == Refreshing
    ensures trace[k].calls[j].phase != Refreshing && !Enabled(trace[k], Enter(j, now))
  {
    RunValid(trace, steps, k);
  }

  // ---------- what starts and what ends a refresh ----------

  /** Step k is a call entering the lock of `realm` and sending a refresh. */
  predicate Starts(trace: seq<Cache>, steps: seq<Step>, k: nat, realm: Realm)
    requires k < |steps| && k < |trace|
  {
    && steps[k].Enter? && steps[k].call < |trace[k].calls|
    && trace[k].calls[steps[k].call].realm == realm
    && !Usable(trace[k], realm, steps[k].now)
  }

  predicate Stores(trace: seq<Cache>, steps: seq<Step>, k: nat, realm: Realm)
    requires k < |steps| && k < |trace|
  {
    steps[k].Store? && steps[k].call < |trace[k].calls| && trace[k].calls[steps[k].call].realm == realm
  }

  predicate Fails(trace: seq<Cache>, steps: seq<Step>, k: nat, realm: Realm)
    requires k < |steps| && k < |trace|
  {
    steps[k].Fail? && steps[k].call < |trace[k].calls| && trace[k].calls[steps[k].call].realm == realm
  }

  /** What was stored stays, untouched, until another store or an invalidation of the realm. */
  lemma {:induction false} StoreHolds(trace: seq<Cache>, steps: seq<Step>, realm: Realm, i: nat, j: nat)
    requires IsRun(trace, steps) && i < j <= |steps|
    requires Stores(trace, steps, i, realm)
    requires forall k | i < k < j :: !Stores(trace, steps, k, realm) && steps[k] != Invalidate(realm)
    ensures realm in trace[j].tokens && trace[j].tokens[realm] == Cached(steps[i].raw, steps[i].expires)
    decreases j
  {
    assert trace[j] == Apply(trace[j - 1], steps[j - 1]);
    if j > i + 1 {
      StoreHolds(trace, steps, realm, i, j - 1);
    }
  }

  /** After a successful refresh, and until the next one or an invalidation, every call that
      enters is answered with the stored token and sends nothing, exactly as long as the
      clock reads less than expiry - skew; an opaque token is never refreshed. */
  lemma StoredTokenServes(trace: seq<Cache>, steps: seq<Step>, realm: Realm, i: nat, j: nat)
    requires IsRun(trace, steps) && i < j < |steps|
    requires Stores(trace, steps, i, realm)
    requires forall k | i < k < j :: !Stores(trace, steps, k, realm) && steps[k] != Invalidate(realm)
    requires steps[j].Enter? && steps[j].call < |trace[j].calls| && trace[j].calls[steps[j].call].realm == realm
    ensures steps[j].call < |trace[j + 1].calls|
    ensures
      var phase := trace[j + 1].calls[steps[j].call].phase;
      && (phase == Refreshing <==> steps[i].expires.Some? && steps[j].now >= steps[i].expires.value - trace[0].skew)
      && (phase != Refreshing ==> phase == Answered(steps[i].raw))
  {
    StoreHolds(trace, steps, realm, i, j);
    RunValid(trace, steps, j);
    assert trace[j + 1] == Apply(trace[j], steps[j]);
  }

  // ---------- what a call is answered ----------

  /** Where call c stands after step j. */
  ghost predicate Stands(trace: seq<Cache>, j: nat, c: nat, realm: Realm, phase: Phase) {
    j + 1 < |trace| && c < |trace[j + 1].calls| && trace[j + 1].calls[c] == Call(realm, phase)
  }

  /** The same goes for the first look, which takes no lock: a new call is answered on the spot
      with the stored token as long as that is not due, and from then on it waits for the lock. */
  lemma StoredTokenAnswers(trace: seq<Cache>, steps: seq<Step>, realm: Realm, i: nat, j: nat)
    requires IsRun(trace, steps) && i < j < |steps|
    requires Stores(trace, steps, i, realm)
    requires forall k | i < k < j :: !Stores(trace, steps, k, realm) && steps[k] != Invalidate(realm)
    requires steps[j].Get? && steps[j].realm == realm
    ensures
      var expires := steps[i].expires;
      Stands(trace, j, |trace[j].calls|, realm,
             if expires.None? || steps[j].now < expires.value - trace[0].skew then Answered(steps[i].raw) else Waiting)
  {
    StoreHolds(trace, steps, realm, i, j);
    RunValid(trace, steps, j);
    assert trace[j + 1] == Apply(trace[j], steps[j]);
  }

  /** The call whose refresh brought the token is answered with it. */
  lemma RefreshAnswers(trace: seq<Cache>, steps: seq<Step>, realm: Realm, i: nat)
    requires IsRun(trace, steps) && i < |steps| && Stores(trace, steps, i, realm)
    ensures Stands(trace, i, steps[i].call, realm, Answered(steps[i].raw))
  {
    assert trace[i + 1] == Apply(trace[i], steps[i]);
  }

  /** Nothing has been stored for the realm since the start or its last invalidation. */
  ghost predicate Bare(trace: seq<Cache>, steps: seq<Step>, realm: Realm, i: nat, j: nat)
    requires j <= |steps| && |trace| == |steps| + 1
  {
    && (i == 0 || (i <= j && steps[i - 1] == Invalidate(realm)))
    && forall k | i <= k < j :: !Stores(trace, steps, k, realm)
  }

  lemma {:induction false} BareHasNoToken(trace: seq<Cache>, steps: seq<Step>, realm: Realm, i: nat, j: nat)
    requires IsRun(trace, steps) && i <= j <= |steps| && Bare(trace, steps, realm, i, j)
    ensures realm !in trace[j].tokens
    decreases j
  {
    if j > i {
      BareHasNoToken(trace, steps, realm, i, j - 1);
      assert !Stores(trace, steps, j - 1, realm);
      assert trace[j] == Apply(trace[j - 1], steps[j - 1]);
    } else if i > 0 {
      assert trace[i] == Apply(trace[i - 1], steps[i - 1]);
    }
  }

  /** An invalidated token is gone whatever its expiry: until the next store every new call of the
      realm waits, and every one that enters the lock sends a refresh. So it is at the start. */
  lemma InvalidatedIsRefreshed(trace: seq<Cache>, steps: seq<Step>, realm: Realm, i: nat, j: nat)
    requires IsRun(trace, steps) && i <= j < |steps| && Bare(trace, steps, realm, i, j)
    ensures steps[j].Get? && steps[j].realm == realm ==> Stands(trace, j, |trace[j].calls|, realm, Waiting)
    ensures steps[j].Enter? && steps[j].call < |trace[j].calls| && trace[j].calls[steps[j].call].realm == realm ==>
              Stands(trace, j, steps[j].call, realm, Refreshing)
  {
    BareHasNoToken(trace, steps, realm, i, j);
    assert trace[j + 1] == Apply(trace[j], steps[j]);
  }

  /** A call that is refreshing goes on doing so until its own refresh ends. */
  lemma {:induction false} RefreshingUntilDone(trace: seq<Cache>, steps: seq<Step>, c: nat, i: nat, j: nat)
    requires IsRun(trace, steps) && i <= j < |trace|
    requires c < |trace[i].calls| && trace[i].calls[c].phase == Refreshing
    requires forall k | i <= k < j ::
               !(steps[k].Store? && steps[k].call == c) && !(steps[k].Fail? && steps[k].call == c)
    ensures c < |trace[j].calls| && trace[j].calls[c] == trace[i].calls[c]
    decreases j
  {
    if j > i {
      RefreshingUntilDone(trace, steps, c, i, j - 1);
      assert trace[j] == Apply(trace[j - 1], steps[j - 1]);
    }
  }

  /** The realm of a call never changes. */
  lemma {:induction false} RealmStays(trace: seq<Cache>, steps: seq<Step>, c: nat, i: nat, j: nat)
    requires IsRun(trace, steps) && i <= j < |trace| && c < |trace[i].calls|
    ensures c < |trace[j].calls| && trace[j].calls[c].realm == trace[i].calls[c].realm
    decreases j
  {
    if j > i {
      RealmStays(trace, steps, c, i, j - 1);
      assert trace[j] == Apply(trace[j - 1], steps[j - 1]);
    }
  }

  /** The end of a refresh that began at i and was over by j. */
  lemma RefreshEnded(trace: seq<Cache>, steps: seq<Step>, realm: Realm, i: nat, j: nat) returns (k: nat)
    requires IsRun(trace, steps) && i < j < |steps|
    requires Starts(trace, steps, i, realm) && Starts(trace, steps, j, realm)
    ensures i < k < j && (Stores(trace, steps, k, realm) || Fails(trace, steps, k, realm))
  {
    var c := steps[i].call;
    assert trace[i + 1] == Apply(trace[i], steps[i]);
    assert trace[i + 1].calls[c] == Call(realm, Refreshing);
    RunValid(trace, steps, j);
    assert Enabled(trace[j], steps[j]);
    if k' :| i < k' < j && (steps[k'].Store? || steps[k'].Fail?) && steps[k'].call == c {
      k := k';
      RealmStays(trace, steps, c, i, k);
    } else {
      RefreshingUntilDone(trace, steps, c, i + 1, j);
      assert false;
    }
  }

  /** The last store of the realm before j, or none after i. */
  lemma {:induction false} LastStore(trace: seq<Cache>, steps: seq<Step>, realm: Realm, i: nat,
      j: nat) returns (last: Option<nat>)
    requires IsRun(trace, steps) && i <= j <= |steps|
    ensures last.Some? ==> i <= last.value < j && Stores(trace, steps, last.value, realm)
    ensures last.Some? ==> forall k | last.value < k < j :: !Stores(trace, steps, k, realm)
    ensures last.None? ==> forall k | i <= k < j :: !Stores(trace, steps, k, realm)
    decreases j
  {
    if i == j {
      last := None;
    } else if Stores(trace, steps, j - 1, realm) {
      last := Some(j - 1);
    } else {
      last := LastStore(trace, steps, realm, i, j - 1);
    }
  }

  /** A reason for a realm to be refreshed again at step j, found between i and j. */
  ghost predicate Reason(trace: seq<Cache>, steps: seq<Step>, realm: Realm, k: nat, j: nat)
    requires k < j < |steps| && |trace| == |steps| + 1
  {
    || Fails(trace, steps, k, realm)
    || steps[k] == Invalidate(realm)
    || (Stores(trace, steps, k, realm) && steps[k].expires.Some?
        && steps[j].Enter? && steps[j].now >= steps[k].expires.value - trace[0].skew)
  }

  /** Two refreshes of one realm never happen for nothing: between their starts a refresh
      failed, or the realm was invalidated, or the token obtained there has come due by the
      clock the second one read. */
  lemma RefreshedForAReason(trace: seq<Cache>, steps: seq<Step>, realm: Realm, i: nat, j: nat)
    requires IsRun(trace, steps) && i < j < |steps|
    requires Starts(trace, steps, i, realm) && Starts(trace, steps, j, realm)
    ensures exists k :: i < k < j && Reason(trace, steps, realm, k, j)
  {
    var ended := RefreshEnded(trace, steps, realm, i, j);
    var last := LastStore(trace, steps, realm, i + 1, j);
    if Fails(trace, steps, ended, realm) {
      assert Reason(trace, steps, realm, ended, j);
    } else if k :| last.value < k < j && steps[k] == Invalidate(realm) {
      assert Reason(trace, steps, realm, k, j);
    } else {
      StoreHolds(trace, steps, realm, last.value, j);
      RunValid(trace, steps, j);
      assert Reason(trace, steps, realm, last.value, j);
    }
  }

  /** Nobody is shut out: a waiting call can enter, unless a refresh of its realm is in
      flight; and once that refresh raises, every call waiting for the realm can enter, and
      the first to do so tries again if there is still nothing to serve. */
  lemma FailureLetsTheNextTry(trace: seq<Cache>, steps: seq<Step>, k: nat, waiter: nat, now: real)
    requires IsRun(trace, steps) && k < |trace|
    requires waiter < |trace[k].calls| && trace[k].calls[waiter].phase == Waiting
    ensures
      var s := trace[k];
      var realm := s.calls[waiter].realm;
      && (Enabled(s, Enter(waiter, now)) <==> forall i | 0 <= i < |s.calls| :: s.calls[i] != Call(realm, Refreshing))
      && forall i | 0 <= i < |s.calls| && s.calls[i] == Call(realm, Refreshing) ::
        var after := Apply(s, Fail(i));
        && after.calls[i].phase == Raised
        && Enabled(after, Enter(waiter, now))
        && (Apply(after, Enter(waiter, now)).calls[waiter].phase == Refreshing <==> !Usable(s, realm, now))
  {
    RunValid(trace, steps, k);
  }

  // ---------- the object ----------

  /** `calls` stands for the suspended coroutines; each method is what one of them does
      between two suspensions. */
  class TokenCache {
    const skew: real
    var tokens: map<Realm, Cached>
    var holder: map<Realm, nat>
    var calls: seq<Call>

    function View(): Cache
      reads this
    {
      Cache(skew, tokens, holder, calls)
    }

    constructor (skew: real)
      ensures View() == Cache(skew, map[], map[], [])
    {
      this.skew := skew;
      tokens, holder, calls := map[], map[], [];
    }

    method Lookup(realm: Realm, now: real) returns (found: Option<Token>)
      ensures found == if Usable(View(), realm, now) then Some(tokens[realm].token) else None
    {
      found := None;
      if realm in tokens {
        var cached := tokens[realm];
        var stale := false;
        if cached.expires.Some? {
          stale := now >= cached.expires.value - skew;
        }
        if !stale {
          found := Some(cached.token);
        }
      }
    }

    method Get(realm: Realm, now: real) returns (call: nat)
      modifies this`calls
      ensures call == old(|calls|) && View() == Got(old(View()), realm, now)
    {
      call := |calls|;
      var found := Lookup(realm, now);
      var phase := match found case Some(token) => Answered(token) case None => Waiting;
      calls := calls + [Call(realm, phase)];
    }

    method Enter(call: nat, now: real)
      requires Enabled(View(), Step.Enter(call, now))
      modifies this`calls, this`holder
      ensures View() == Entered(old(View()), call, now)
    {
      var realm := calls[call].realm;
      var found := Lookup(realm, now);
      match found
      case Some(token) =>
        calls := calls[call := Call(realm, Answered(token))];
      case None =>
        holder := holder[realm := call];
        calls := calls[call := Call(realm, Refreshing)];
    }

    method Store(call: nat, raw: Token, expires: Option<real>)
      requires Enabled(View(), Step.Store(call, raw, expires))
      modifies this
      ensures View() == Stored(old(View()), call, raw, expires)
    {
      var realm := calls[call].realm;
      tokens := tokens[realm := Cached(raw, expires)];
      calls := calls[call := Call(realm, Answered(tokens[realm].token))];
      holder := holder - {realm};
    }

    method Fail(call: nat)
      requires Enabled(View(), Step.Fail(call))
      modifies this`calls, this`holder
      ensures View() == RefreshFailed(old(View()), call)
    {
      var realm := calls[call].realm;
      calls := calls[call := Call(realm, Raised)];
      holder := holder - {realm};
    }

    method Invalidate(realm: Realm)
      modifies this`tokens
      ensures View() == Invalidated(old(View()), realm)
    {
      tokens := tokens - {realm};
    }
  }
}
