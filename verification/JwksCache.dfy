/** The JSON Web Key Set cache: any number of interleaved key lookups around one refresh lock. */
module JwksCache {
  import opened Kernel

  /** The usable keys of a key set, by key id. */
  type KeySet = map<string, int>

  /** What the read-write lock protects. */
  datatype Cache = Cache(jwks: Option<KeySet>, uriKnown: bool, lastFetch: int)

  function Lookup(c: Cache, kid: string): Option<int> {
    if c.jwks.Some? && kid in c.jwks.value then Some(c.jwks.value[kid]) else None
  }

  /** A fetch of the key set, successful or not, notes when it completed; only a successful one replaces the keys. */
  function Refreshed(c: Cache, fetched: Option<KeySet>, now: int): Cache {
    c.(jwks := if fetched.Some? then fetched else c.jwks, lastFetch := now)
  }

  /**
   One lookup that nobody interferes with. `discovered` and `fetched` are what the issuer and the key set
   endpoint would answer; the last part of the result says whether the endpoint was asked.
   */
  function Served(c: Cache, interval: nat, kid: string, discovered: bool, fetched: Option<KeySet>, now: int): (Cache, Option<int>, bool) {
    if Lookup(c, kid).Some? || now - c.lastFetch < interval then (c, Lookup(c, kid), false)
    else if c.uriKnown then
      var next := Refreshed(c, fetched, now); (next, Lookup(next, kid), true)
    else if discovered then
      var next := Refreshed(c, fetched, now).(uriKnown := true); (next, Lookup(next, kid), true)
    else (c, None, false)
  }

  /**
   What a lookup that nobody interferes with does. It asks the endpoint exactly if the key is not cached, at least
   the interval has passed since the last request, and the address is known or discovered. Then a fetched set
   replaces the cached one and the time is noted; otherwise nothing changes. It answers what is then cached.
   */
  lemma ServedExactly(c: Cache, interval: nat, kid: string, discovered: bool, fetched: Option<KeySet>, now: int)
    ensures var (next, key, asked) := Served(c, interval, kid, discovered, fetched, now);
            && (asked <==> (c.jwks.None? || kid !in c.jwks.value) && now >= c.lastFetch + interval && (c.uriKnown || discovered))
            && next == (if asked then Cache(if fetched.None? then c.jwks else fetched, true, now) else c)
            && (key.Some? <==> next.jwks.Some? && kid in next.jwks.value)
            && (key.Some? ==> key.value == next.jwks.value[kid])
  {
  }

  class KeyCache {
    var jwks: Option<KeySet>
    var uriKnown: bool
    var lastFetch: int
    const interval: nat

    /** The first refresh is due at once, unless the clock is too young to be set back that far. */
    constructor (interval: nat, now: int, young: bool)
      ensures this.interval == interval && Contents() == Cache(None, false, if young then now else now - interval - 1)
    {
      this.interval := interval;
      jwks, uriKnown, lastFetch := None, false, if young then now else now - interval - 1;
    }

    function Contents(): Cache
      reads this
    {
      Cache(jwks, uriKnown, lastFetch)
    }

    method KeyFromCache(kid: string) returns (key: Option<int>)
      ensures key == Lookup(Contents(), kid)
    {
      if jwks.None? { return None; }
      key := if kid in jwks.value then Some(jwks.value[kid]) else None;
    }

    method FetchKeys(fetched: Option<KeySet>, now: int)
      modifies this
      ensures Contents() == Refreshed(old(Contents()), fetched, now)
    {
      if fetched.Some? { jwks := fetched; }
      lastFetch := now;
    }

    method TryInit(discovered: bool, fetched: Option<KeySet>, now: int)
      modifies this
      ensures Contents() == if discovered then Refreshed(old(Contents()), fetched, now).(uriKnown := true) else old(Contents())
    {
      if !discovered { return; }
      FetchKeys(fetched, now);
      uriKnown := true;
    }

    method GetKey(kid: string, discovered: bool, fetched: Option<KeySet>, now: int) returns (key: Option<int>)
      modifies this
      ensures Contents() == Served(old(Contents()), interval, kid, discovered, fetched, now).0
      ensures key == Served(old(Contents()), interval, kid, discovered, fetched, now).1
    {
      key := KeyFromCache(kid);
      if key.Some? { return; }
      var elapsed := now - lastFetch;
      if elapsed >= interval {
        if uriKnown { FetchKeys(fetched, now); } else { TryInit(discovered, fetched, now); }
        key := KeyFromCache(kid);
      }
    }
  }

  // ---------- interleaved calls ----------

  /** How far a call has come. `viaInit` says that the endpoint's address was discovered by this call. */
  datatype Phase =
    | Waiting(kid: string)
    | Locked(kid: string)
    | Missing(kid: string)
    | Allowed(kid: string)
    | Discovering(kid: string)
    | Fetching(kid: string, viaInit: bool)
    | Recording(kid: string)
    | Finishing(kid: string)
    | Done(key: Option<int>)

  /** A request to the key set endpoint, and when it was sent. */
  datatype Fetch = Fetch(call: int, start: int)

  /** A request for the issuer's configuration, when it was sent, and whether it succeeded, once that is known. */
  datatype Discovery = Discovery(call: int, start: int, outcome: Option<bool>)

  datatype State = State(cache: Cache, now: int, holder: Option<int>, calls: map<int, Phase>, fetches: seq<Fetch>, discoveries: seq<Discovery>)

  datatype Action =
    | Tick(time: nat)
    | Start(call: int, kid: string)
    | Acquire(call: int)
    | Recheck(call: int)
    | CheckElapsed(call: int)
    | ReadUri(call: int)
    | Discover(call: int, ok: bool)
    | Respond(call: int, fetched: Option<KeySet>)
    | RecordUri(call: int)
    | Finish(call: int)

  function Move(s: State, call: int, phase: Phase): State {
    s.(calls := s.calls[call := phase])
  }

  function Release(s: State, call: int, key: Option<int>): State {
    Move(s, call, Done(key)).(holder := None)
  }

  function Send(s: State, call: int, kid: string, viaInit: bool): State {
    Move(s, call, Fetching(kid, viaInit)).(fetches := s.fetches + [Fetch(call, s.now)])
  }

  function Ask(s: State, call: int, kid: string): State {
    Move(s, call, Discovering(kid)).(discoveries := s.discoveries + [Discovery(call, s.now, None)])
  }

  /** The answer to the request under way, which is the last one. */
  function Answered(s: State, ok: bool): State {
    var n := |s.discoveries|;
    if n == 0 then s else s.(discoveries := s.discoveries[n - 1 := s.discoveries[n - 1].(outcome := Some(ok))])
  }

  /** One step; a step that does not apply changes nothing. */
  function Step(interval: nat, s: State, action: Action): State {
    match action
    case Tick(time) => s.(now := s.now + time)
    case Start(c, kid) =>
      if c in s.calls then s
      else if Lookup(s.cache, kid).Some? then Move(s, c, Done(Lookup(s.cache, kid)))
      else Move(s, c, Waiting(kid))
    case Acquire(c) =>
      if c in s.calls && s.calls[c].Waiting? && s.holder.None? then Move(s, c, Locked(s.calls[c].kid)).(holder := Some(c)) else s
    case Recheck(c) =>
      if !(c in s.calls && s.calls[c].Locked?) then s
      else if Lookup(s.cache, s.calls[c].kid).Some? then Release(s, c, Lookup(s.cache, s.calls[c].kid))
      else Move(s, c, Missing(s.calls[c].kid))
    case CheckElapsed(c) =>
      if !(c in s.calls && s.calls[c].Missing?) then s
      else if s.now - s.cache.lastFetch >= interval then Move(s, c, Allowed(s.calls[c].kid))
      else Release(s, c, None)
    case ReadUri(c) =>
      if !(c in s.calls && s.calls[c].Allowed?) then s
      else if s.cache.uriKnown then Send(s, c, s.calls[c].kid, false)
      else Ask(s, c, s.calls[c].kid)
    case Discover(c, ok) =>
      if !(c in s.calls && s.calls[c].Discovering?) then s
      else if ok then Answered(Send(s, c, s.calls[c].kid, true), true)
      else Answered(Move(s, c, Finishing(s.calls[c].kid)), false)
    case Respond(c, fetched) =>
      if !(c in s.calls && s.calls[c].Fetching?) then s
      else
        Move(s, c, if s.calls[c].viaInit then Recording(s.calls[c].kid) else Finishing(s.calls[c].kid))
          .(cache := Refreshed(s.cache, fetched, s.now))
    case RecordUri(c) =>
      if c in s.calls && s.calls[c].Recording? then Move(s, c, Finishing(s.calls[c].kid)).(cache := s.cache.(uriKnown := true)) else s
    case Finish(c) =>
      if c in s.calls && s.calls[c].Finishing? then Release(s, c, Lookup(s.cache, s.calls[c].kid)) else s
  }

  function After(interval: nat, s: State, actions: seq<Action>): State {
    if actions == [] then s else Step(interval, After(interval, s, actions[..|actions| - 1]), actions[|actions| - 1])
  }

  /** A state right after start-up: whatever was fetched by then, no lookup has begun. */
  ghost predicate Started(s: State) {
    s.holder.None? && s.calls == map[] && s.fetches == [] && s.discoveries == [] && s.cache.lastFetch <= s.now
  }

  predicate Holds(p: Phase) {
    !p.Waiting? && !p.Done?
  }

  /** The call has not sent its request yet. */
  predicate BeforeFetch(p: Phase) {
    p.Waiting? || p.Locked? || p.Missing? || p.Allowed? || p.Discovering?
  }

  /** Exactly the holder of the refresh lock is between acquiring and releasing it. */
  ghost predicate LockExclusive(s: State) {
    && (s.holder.Some? ==> s.holder.value in s.calls)
    && (forall c :: c in s.calls ==> (Holds(s.calls[c]) <==> s.holder == Some(c)))
  }

  /** Any two requests were sent at least the minimum interval apart. */
  ghost predicate Spaced(interval: nat, fetches: seq<Fetch>) {
    forall i, j :: 0 <= i < j < |fetches| ==> fetches[j].start >= fetches[i].start + interval
  }

  /** No call sent more than one request. */
  ghost predicate OncePerCall(s: State) {
    && (forall i, j :: 0 <= i < j < |s.fetches| ==> s.fetches[i].call != s.fetches[j].call)
    && (forall i :: 0 <= i < |s.fetches| ==> s.fetches[i].call in s.calls && !BeforeFetch(s.calls[s.fetches[i].call]))
  }

  /** Every request but the one under way was completed by the noted time; a call allowed to fetch is late enough. */
  ghost predicate Noted(interval: nat, s: State) {
    var n := |s.fetches|;
    && s.cache.lastFetch <= s.now
    && (forall i :: 0 <= i < n ==> s.fetches[i].start <= s.now)
    && (forall i :: 0 <= i < n ==> s.fetches[i].start <= s.cache.lastFetch || (i == n - 1 && Underway(s)))
    && (Underway(s) ==> n > 0)
    && (s.holder.Some? && s.holder.value in s.calls && (s.calls[s.holder.value].Allowed? || s.calls[s.holder.value].Discovering?) ==>
          s.now - s.cache.lastFetch >= interval)
  }

  predicate Underway(s: State) {
    s.holder.Some? && s.holder.value in s.calls && s.calls[s.holder.value].Fetching?
  }

  ghost predicate Invariant(interval: nat, s: State) {
    LockExclusive(s) && Spaced(interval, s.fetches) && OncePerCall(s) && Noted(interval, s)
  }

  /** The phase of the call that holds the refresh lock. */
  function HolderPhase(s: State): Option<Phase> {
    if s.holder.Some? && s.holder.value in s.calls then Some(s.calls[s.holder.value]) else None
  }

  /**
   Every discovery but the last one failed. The last one is under way exactly while the holder waits for it,
   and once it succeeded the address is known, or is being recorded by the holder.
   */
  ghost predicate OneSuccess(s: State) {
    var n, phase := |s.discoveries|, HolderPhase(s);
    && (forall i :: 0 <= i < n - 1 ==> s.discoveries[i].outcome == Some(false))
    && (phase.Some? && phase.value.Discovering? <==> n > 0 && s.discoveries[n - 1].outcome.None?)
    && (n > 0 && s.discoveries[n - 1].outcome == Some(true) ==>
          s.cache.uriKnown || (phase.Some? && ((phase.value.Fetching? && phase.value.viaInit) || phase.value.Recording?)))
  }

  lemma SendKeeps(interval: nat, s: State, c: int, viaInit: bool)
    requires Invariant(interval, s) && c in s.calls && (s.calls[c].Allowed? || s.calls[c].Discovering?)
    ensures Invariant(interval, Send(s, c, s.calls[c].kid, viaInit))
  {
    var next := Send(s, c, s.calls[c].kid, viaInit);
    assert s.holder == Some(c);
    forall i | 0 <= i < |s.fetches| ensures next.fetches[i] == s.fetches[i] && s.fetches[i].start + interval <= s.now && s.fetches[i].call != c {}
  }

  /** The holder goes on to a later phase without sending a request. */
  lemma MoveKeeps(interval: nat, s: State, c: int, phase: Phase)
    requires Invariant(interval, s) && s.holder == Some(c) && !s.calls[c].Fetching?
    requires Holds(phase) && !phase.Fetching? && (BeforeFetch(phase) ==> BeforeFetch(s.calls[c]))
    requires phase.Allowed? || phase.Discovering? ==> s.now - s.cache.lastFetch >= interval
    ensures Invariant(interval, Move(s, c, phase))
  {
  }

  lemma ReleaseKeeps(interval: nat, s: State, c: int, key: Option<int>)
    requires Invariant(interval, s) && s.holder == Some(c) && !s.calls[c].Fetching?
    ensures Invariant(interval, Release(s, c, key))
  {
  }

  lemma StartKeeps(interval: nat, s: State, c: int, phase: Phase)
    requires Invariant(interval, s) && c !in s.calls && !Holds(phase)
    ensures Invariant(interval, Move(s, c, phase))
  {
  }

  lemma AcquireKeeps(interval: nat, s: State, c: int)
    requires Invariant(interval, s) && c in s.calls && s.calls[c].Waiting? && s.holder.None?
    ensures Invariant(interval, Step(interval, s, Acquire(c)))
  {
  }

  lemma RespondKeeps(interval: nat, s: State, c: int, fetched: Option<KeySet>)
    requires Invariant(interval, s) && c in s.calls && s.calls[c].Fetching?
    ensures Invariant(interval, Step(interval, s, Respond(c, fetched)))
  {
  }

  lemma StepKeeps(interval: nat, s: State, action: Action)
    requires Invariant(interval, s)
    ensures Invariant(interval, Step(interval, s, action))
  {
    if action.Tick? || Step(interval, s, action) == s { return; }
    if !action.Start? { assert action.call in s.calls && (action.Acquire? || s.holder == Some(action.call)); }
    match action
    case Start(c, kid) => StartKeeps(interval, s, c, if Lookup(s.cache, kid).Some? then Done(Lookup(s.cache, kid)) else Waiting(kid));
    case Acquire(c) => AcquireKeeps(interval, s, c);
    case Recheck(c) =>
      var kid := s.calls[c].kid;
      if Lookup(s.cache, kid).Some? { ReleaseKeeps(interval, s, c, Lookup(s.cache, kid)); } else { MoveKeeps(interval, s, c, Missing(kid)); }
    case CheckElapsed(c) =>
      var kid := s.calls[c].kid;
      if s.now - s.cache.lastFetch >= interval { MoveKeeps(interval, s, c, Allowed(kid)); } else { ReleaseKeeps(interval, s, c, None); }
    case ReadUri(c) =>
      if s.cache.uriKnown { SendKeeps(interval, s, c, false); } else { MoveKeeps(interval, s, c, Discovering(s.calls[c].kid)); }
    case Discover(c, ok) =>
      if ok { SendKeeps(interval, s, c, true); } else { MoveKeeps(interval, s, c, Finishing(s.calls[c].kid)); }
    case Respond(c, fetched) => RespondKeeps(interval, s, c, fetched);
    case RecordUri(c) => MoveKeeps(interval, s, c, Finishing(s.calls[c].kid));
    case Finish(c) => ReleaseKeeps(interval, s, c, Lookup(s.cache, s.calls[c].kid));
  }

  /**
   Refresh discipline: however lookups interleave after start-up, requests to the key set endpoint are at
   least the minimum interval apart, no call sends more than one, and the lock has at most one holder.
   */
  lemma {:induction false} RefreshDiscipline(interval: nat, s: State, actions: seq<Action>)
    requires Started(s)
    ensures Invariant(interval, After(interval, s, actions))
  {
    if actions != [] {
      var n := |actions| - 1;
      RefreshDiscipline(interval, s, actions[..n]);
      StepKeeps(interval, After(interval, s, actions[..n]), actions[n]);
    }
  }

  /** The keys after a step: replaced by a successful response, and otherwise the same. */
  lemma KeysChangeOnlyOnSuccess(interval: nat, s: State, action: Action)
    ensures Step(interval, s, action).cache.jwks ==
            if action.Respond? && action.call in s.calls && s.calls[action.call].Fetching? && action.fetched.Some? then action.fetched else s.cache.jwks
  {
  }

  /** A key set, once cached, is never lost: at every later time there is a key set, from the start or from a response. */
  lemma {:induction false} KeysNeverLost(interval: nat, s: State, actions: seq<Action>)
    requires s.cache.jwks.Some?
    ensures var jwks := After(interval, s, actions).cache.jwks;
            jwks.Some? && (jwks == s.cache.jwks || exists i :: 0 <= i < |actions| && actions[i].Respond? && actions[i].fetched == jwks)
  {
    if actions != [] {
      var n := |actions| - 1;
      KeysNeverLost(interval, s, actions[..n]);
      KeysChangeOnlyOnSuccess(interval, After(interval, s, actions[..n]), actions[n]);
      var mid := After(interval, s, actions[..n]).cache.jwks;
      if mid != s.cache.jwks {
        var i :| 0 <= i < n && actions[..n][i].Respond? && actions[..n][i].fetched == mid;
        assert actions[i].fetched == mid;
      }
    }
  }

  lemma AskKeepsOneSuccess(s: State, c: int, kid: string)
    requires OneSuccess(s) && s.holder == Some(c) && c in s.calls && s.calls[c].Allowed? && !s.cache.uriKnown
    ensures OneSuccess(Ask(s, c, kid))
  {
    var n := |s.discoveries|;
    if n > 0 {
      assert s.discoveries[n - 1].outcome.Some? && s.discoveries[n - 1].outcome.value == false;
    }
  }

  lemma DiscoverKeepsOneSuccess(interval: nat, s: State, c: int, ok: bool)
    requires OneSuccess(s) && s.holder == Some(c) && c in s.calls && s.calls[c].Discovering?
    ensures OneSuccess(Step(interval, s, Discover(c, ok)))
  {
  }

  lemma StepKeepsOneSuccess(interval: nat, s: State, action: Action)
    requires LockExclusive(s) && OneSuccess(s)
    ensures OneSuccess(Step(interval, s, action))
  {
    var next := Step(interval, s, action);
    if action.Discover? && next != s {
      DiscoverKeepsOneSuccess(interval, s, action.call, action.ok);
    } else if action.ReadUri? && next != s && !s.cache.uriKnown {
      AskKeepsOneSuccess(s, action.call, s.calls[action.call].kid);
    } else {
      assert next.discoveries == s.discoveries;
    }
  }

  /**
   Discovery discipline: in every interleaving of lookups after start-up every discovery but the last one
   failed, so that no discovery follows a successful one.
   */
  lemma {:induction false} DiscoveryDiscipline(interval: nat, s: State, actions: seq<Action>)
    requires Started(s)
    ensures OneSuccess(After(interval, s, actions))
    ensures var d := After(interval, s, actions).discoveries;
            forall i :: 0 <= i < |d| && d[i].outcome == Some(true) ==> i == |d| - 1
  {
    if actions != [] {
      var n := |actions| - 1;
      DiscoveryDiscipline(interval, s, actions[..n]);
      RefreshDiscipline(interval, s, actions[..n]);
      StepKeepsOneSuccess(interval, After(interval, s, actions[..n]), actions[n]);
    }
  }

  /** The first steps of a call that runs alone: up to the decision to refresh. */
  function Begun(interval: nat, s: State, c: int, kid: string): State {
    Step(interval, Step(interval, Step(interval, Step(interval, s, Start(c, kid)), Acquire(c)), Recheck(c)), CheckElapsed(c))
  }

  /** The remaining steps: the refresh, and the second lookup. */
  function Completed(interval: nat, s: State, c: int, discovered: bool, fetched: Option<KeySet>): State {
    var sent := Step(interval, Step(interval, s, ReadUri(c)), Discover(c, discovered));
    Step(interval, Step(interval, Step(interval, sent, Respond(c, fetched)), RecordUri(c)), Finish(c))
  }

  lemma MoveTwice(s: State, c: int, p: Phase, q: Phase)
    ensures Move(Move(s, c, p), c, q) == Move(s, c, q)
  {
  }

  lemma BegunIs(interval: nat, s: State, c: int, kid: string)
    requires c !in s.calls && s.holder.None?
    ensures Begun(interval, s, c, kid) ==
            if Lookup(s.cache, kid).Some? then Move(s, c, Done(Lookup(s.cache, kid)))
            else if s.now - s.cache.lastFetch < interval then Move(s, c, Done(None))
            else Move(s, c, Allowed(kid)).(holder := Some(c))
  {
    MoveTwice(s, c, Waiting(kid), Locked(kid));
    MoveTwice(s, c, Locked(kid), Missing(kid));
    MoveTwice(s, c, Missing(kid), Allowed(kid));
    MoveTwice(s, c, Missing(kid), Done(None));
  }

  lemma CompletedDone(interval: nat, s: State, c: int, discovered: bool, fetched: Option<KeySet>)
    requires c in s.calls && s.calls[c].Done?
    ensures Completed(interval, s, c, discovered, fetched) == s
  {
  }

  /** What the refresh of a call that runs alone adds to the discoveries. */
  function Discovered(s: State, c: int, discovered: bool): seq<Discovery> {
    if s.cache.uriKnown then s.discoveries else s.discoveries + [Discovery(c, s.now, Some(discovered))]
  }

  lemma AnsweredIs(s: State, c: int, ok: bool)
    ensures Answered(s.(discoveries := s.discoveries + [Discovery(c, s.now, None)]), ok) == s.(discoveries := s.discoveries + [Discovery(c, s.now, Some(ok))])
  {
    var d := s.discoveries + [Discovery(c, s.now, None)];
    assert d[|d| - 1 := d[|d| - 1].(outcome := Some(ok))] == s.discoveries + [Discovery(c, s.now, Some(ok))];
  }

  lemma CompletedFetches(interval: nat, s: State, c: int, kid: string, discovered: bool, fetched: Option<KeySet>)
    requires c !in s.calls && s.holder.None? && (s.cache.uriKnown || discovered)
    ensures var cache := Refreshed(s.cache, fetched, s.now).(uriKnown := true);
            Completed(interval, Move(s, c, Allowed(kid)).(holder := Some(c)), c, discovered, fetched) ==
            Move(s, c, Done(Lookup(cache, kid))).(cache := cache, fetches := s.fetches + [Fetch(c, s.now)], discoveries := Discovered(s, c, discovered))
  {
    var init, locked := !s.cache.uriKnown, s.(holder := Some(c));
    var sent := Step(interval, Step(interval, Move(locked, c, Allowed(kid)), ReadUri(c)), Discover(c, discovered));
    SentIs(interval, locked, c, kid, discovered);
    assert sent == Move(locked, c, Fetching(kid, init)).(fetches := s.fetches + [Fetch(c, s.now)], discoveries := Discovered(s, c, discovered));
    FinishedIs(interval, locked.(fetches := s.fetches + [Fetch(c, s.now)], discoveries := Discovered(s, c, discovered)), c, kid, init, fetched);
  }

  lemma SentIs(interval: nat, s: State, c: int, kid: string, discovered: bool)
    requires s.cache.uriKnown || discovered
    ensures Step(interval, Step(interval, Move(s, c, Allowed(kid)), ReadUri(c)), Discover(c, discovered)) ==
            Move(s, c, Fetching(kid, !s.cache.uriKnown)).(fetches := s.fetches + [Fetch(c, s.now)], discoveries := Discovered(s, c, discovered))
  {
    MoveTwice(s, c, Allowed(kid), Discovering(kid));
    MoveTwice(s, c, Allowed(kid), Fetching(kid, !s.cache.uriKnown));
    MoveTwice(s, c, Discovering(kid), Fetching(kid, !s.cache.uriKnown));
    AnsweredIs(s, c, discovered);
  }

  lemma FinishedIs(interval: nat, s: State, c: int, kid: string, init: bool, fetched: Option<KeySet>)
    requires init == !s.cache.uriKnown
    ensures var cache := Refreshed(s.cache, fetched, s.now).(uriKnown := true);
            Step(interval, Step(interval, Step(interval, Move(s, c, Fetching(kid, init)), Respond(c, fetched)), RecordUri(c)), Finish(c)) ==
            Move(s, c, Done(Lookup(cache, kid))).(cache := cache, holder := None)
  {
    MoveTwice(s, c, Fetching(kid, init), Recording(kid));
    MoveTwice(s, c, Fetching(kid, init), Finishing(kid));
    MoveTwice(s, c, Recording(kid), Finishing(kid));
    var cache := Refreshed(s.cache, fetched, s.now).(uriKnown := true);
    MoveTwice(s, c, Finishing(kid), Done(Lookup(cache, kid)));
  }

  lemma CompletedUndiscovered(interval: nat, s: State, c: int, kid: string, fetched: Option<KeySet>)
    requires c !in s.calls && s.holder.None? && !s.cache.uriKnown
    ensures Completed(interval, Move(s, c, Allowed(kid)).(holder := Some(c)), c, false, fetched) ==
            Move(s, c, Done(Lookup(s.cache, kid))).(discoveries := Discovered(s, c, false))
  {
    MoveTwice(s, c, Allowed(kid), Discovering(kid));
    MoveTwice(s, c, Discovering(kid), Finishing(kid));
    MoveTwice(s, c, Finishing(kid), Done(Lookup(s.cache, kid)));
    AnsweredIs(s, c, false);
  }

  /** A call that runs alone does what the plain lookup does, and asks the endpoint exactly when that does. */
  lemma AloneIsServed(interval: nat, s: State, c: int, kid: string, discovered: bool, fetched: Option<KeySet>)
    requires c !in s.calls && s.holder.None?
    ensures var (cache, key, asked) := Served(s.cache, interval, kid, discovered, fetched, s.now);
            var end := Completed(interval, Begun(interval, s, c, kid), c, discovered, fetched);
            end == Move(s, c, Done(key)).(cache := cache, fetches := if asked then s.fetches + [Fetch(c, s.now)] else s.fetches, discoveries := end.discoveries)
  {
    BegunIs(interval, s, c, kid);
    if Lookup(s.cache, kid).Some? || s.now - s.cache.lastFetch < interval {
      CompletedDone(interval, Begun(interval, s, c, kid), c, discovered, fetched);
    } else if s.cache.uriKnown || discovered {
      CompletedFetches(interval, s, c, kid, discovered, fetched);
    } else {
      CompletedUndiscovered(interval, s, c, kid, fetched);
    }
  }

  // ---------- discovery is not rate limited ----------

  lemma {:induction false} AfterConcat(interval: nat, s: State, xs: seq<Action>, ys: seq<Action>)
    ensures After(interval, s, xs + ys) == After(interval, After(interval, s, xs), ys)
    decreases |ys|
  {
    if ys == [] {
      assert xs + ys == xs;
    } else {
      var n := |ys| - 1;
      AfterConcat(interval, s, xs, ys[..n]);
      assert (xs + ys)[..|xs + ys| - 1] == xs + ys[..n];
    }
  }

  lemma AfterOne(interval: nat, s: State, action: Action)
    ensures After(interval, s, [action]) == Step(interval, s, action)
  {
    assert [action][..0] == [];
  }

  /** The steps of a call up to its decision to refresh, and the rest of its steps. */
  function First(c: int, kid: string): seq<Action> {
    [Start(c, kid)] + [Acquire(c)] + [Recheck(c)] + [CheckElapsed(c)]
  }

  function Rest(c: int, discovered: bool, fetched: Option<KeySet>): seq<Action> {
    [ReadUri(c)] + [Discover(c, discovered)] + [Respond(c, fetched)] + [RecordUri(c)] + [Finish(c)]
  }

  lemma FirstIsBegun(interval: nat, s: State, c: int, kid: string)
    ensures After(interval, s, First(c, kid)) == Begun(interval, s, c, kid)
  {
    var a, b, d, e := Start(c, kid), Acquire(c), Recheck(c), CheckElapsed(c);
    AfterOne(interval, s, a);
    AfterConcat(interval, s, [a], [b]);
    AfterOne(interval, After(interval, s, [a]), b);
    AfterConcat(interval, s, [a] + [b], [d]);
    AfterOne(interval, After(interval, s, [a] + [b]), d);
    AfterConcat(interval, s, [a] + [b] + [d], [e]);
    AfterOne(interval, After(interval, s, [a] + [b] + [d]), e);
  }

  lemma RestIsCompleted(interval: nat, s: State, c: int, discovered: bool, fetched: Option<KeySet>)
    ensures After(interval, s, Rest(c, discovered, fetched)) == Completed(interval, s, c, discovered, fetched)
  {
    var a, b, d, e, f := ReadUri(c), Discover(c, discovered), Respond(c, fetched), RecordUri(c), Finish(c);
    AfterOne(interval, s, a);
    AfterConcat(interval, s, [a], [b]);
    AfterOne(interval, After(interval, s, [a]), b);
    AfterConcat(interval, s, [a] + [b], [d]);
    AfterOne(interval, After(interval, s, [a] + [b]), d);
    AfterConcat(interval, s, [a] + [b] + [d], [e]);
    AfterOne(interval, After(interval, s, [a] + [b] + [d]), e);
    AfterConcat(interval, s, [a] + [b] + [d] + [e], [f]);
    AfterOne(interval, After(interval, s, [a] + [b] + [d] + [e]), f);
  }

  /** One call whose discovery fails: the cache is as before, and the time of the attempt is not noted. */
  lemma FailedCall(interval: nat, s: State, c: int, kid: string)
    requires c !in s.calls && s.holder.None? && !s.cache.uriKnown && Lookup(s.cache, kid).None? && s.now - s.cache.lastFetch >= interval
    ensures After(interval, s, First(c, kid) + Rest(c, false, None)) ==
            Move(s, c, Done(None)).(discoveries := s.discoveries + [Discovery(c, s.now, Some(false))])
  {
    AfterConcat(interval, s, First(c, kid), Rest(c, false, None));
    FirstIsBegun(interval, s, c, kid);
    RestIsCompleted(interval, Begun(interval, s, c, kid), c, false, None);
    BegunIs(interval, s, c, kid);
    CompletedUndiscovered(interval, s, c, kid, None);
  }

  /**
   Discovery is not rate limited: whatever the minimum interval, two lookups in a row whose discoveries fail
   both ask the issuer, at the same instant.
   */
  lemma DiscoveryNotLimited(interval: nat, s: State, first: int, second: int, kid: string)
    requires Started(s) && !s.cache.uriKnown && Lookup(s.cache, kid).None? && s.now - s.cache.lastFetch >= interval && first != second
    ensures var run := (First(first, kid) + Rest(first, false, None)) + (First(second, kid) + Rest(second, false, None));
            After(interval, s, run).discoveries == [Discovery(first, s.now, Some(false)), Discovery(second, s.now, Some(false))]
  {
    AfterConcat(interval, s, First(first, kid) + Rest(first, false, None), First(second, kid) + Rest(second, false, None));
    FailedCall(interval, s, first, kid);
    FailedCall(interval, After(interval, s, First(first, kid) + Rest(first, false, None)), second, kid);
  }


  // ---------- what a call answers ----------

  /** The key id that a call asks for, while it is under way. */
  predicate Asks(p: Phase, kid: string) {
    !p.Done? && p.kid == kid
  }

  /** The cached key set holds exactly this for the key id: the key if it is there, and none if it is not. */
  predicate Holding(jwks: Option<KeySet>, kid: string, key: Option<int>) {
    match key
    case Some(k) => jwks.Some? && kid in jwks.value && jwks.value[kid] == k
    case None => jwks.None? || kid !in jwks.value
  }

  /** The key id was missing when the call re-checked it under the lock, and no key set arrived since. */
  predicate SeenMissing(p: Phase) {
    p.Missing? || p.Allowed? || p.Discovering?
  }

  ghost predicate MissingStays(s: State) {
    forall c :: c in s.calls && SeenMissing(s.calls[c]) ==> Holding(s.cache.jwks, s.calls[c].kid, None)
  }

  /** One step for a call: it keeps its key id, or ends with what the key set cached after the step holds. */
  lemma StepAnswers(interval: nat, s: State, action: Action, c: int, kid: string)
    requires LockExclusive(s) && MissingStays(s) && c in s.calls && Asks(s.calls[c], kid)
    ensures var next := Step(interval, s, action);
            c in next.calls && (Asks(next.calls[c], kid) || (next.calls[c].Done? && Holding(next.cache.jwks, kid, next.calls[c].key)))
  {
  }

  lemma StepKeepsMissing(interval: nat, s: State, action: Action)
    requires LockExclusive(s) && MissingStays(s)
    ensures MissingStays(Step(interval, s, action))
  {
    var next := Step(interval, s, action);
    forall c | c in next.calls && SeenMissing(next.calls[c]) ensures Holding(next.cache.jwks, next.calls[c].kid, None) {
      if c in s.calls && SeenMissing(s.calls[c]) { assert s.holder == Some(c); }
    }
  }

  /** Step `j` ends the call, with what the key set cached after that step holds for the key id. */
  ghost predicate EndsTruly(interval: nat, s: State, actions: seq<Action>, j: nat, c: int, kid: string, key: Option<int>)
    requires j < |actions|
  {
    var before, after := After(interval, s, actions[..j]), After(interval, s, actions[..j + 1]);
    && (c in before.calls ==> !before.calls[c].Done?) && c in after.calls && after.calls[c] == Done(key)
    && Holding(after.cache.jwks, kid, key)
  }

  /** The call began at step `i`, asking for the key id; it still asks for it, or a later step has ended it truly. */
  ghost predicate AnsweredFrom(interval: nat, s: State, actions: seq<Action>, c: int, kid: string, i: nat) {
    var end := After(interval, s, actions);
    && i < |actions| && actions[i] == Start(c, kid) && c in end.calls
    && (Asks(end.calls[c], kid) || (end.calls[c].Done? && exists j :: i <= j < |actions| && EndsTruly(interval, s, actions, j, c, kid, end.calls[c].key)))
  }

  lemma {:induction false} RunKeepsMissing(interval: nat, s: State, actions: seq<Action>)
    requires Started(s)
    ensures MissingStays(After(interval, s, actions))
  {
    if actions != [] {
      var n := |actions| - 1;
      RunKeepsMissing(interval, s, actions[..n]);
      RefreshDiscipline(interval, s, actions[..n]);
      StepKeepsMissing(interval, After(interval, s, actions[..n]), actions[n]);
    }
  }

  /**
   Every call is answered truly: in every interleaving of lookups after start-up, the step that ended a call
   answered what the key set cached after that step held for the key id that the call asked for at its start.
   */
  lemma {:induction false} EveryAnswerIsCached(interval: nat, s: State, actions: seq<Action>, c: int)
    requires Started(s) && c in After(interval, s, actions).calls
    ensures exists kid, i: nat :: AnsweredFrom(interval, s, actions, c, kid, i)
  {
    assert actions != [];
    var n := |actions| - 1;
    var before, end := After(interval, s, actions[..n]), After(interval, s, actions);
    assert end == Step(interval, before, actions[n]) && actions[..n + 1] == actions;
    RefreshDiscipline(interval, s, actions[..n]);
    RunKeepsMissing(interval, s, actions[..n]);
    if c in before.calls {
      EveryAnswerIsCached(interval, s, actions[..n], c);
      var kid, i: nat :| AnsweredFrom(interval, s, actions[..n], c, kid, i);
      AnswerGoesOn(interval, s, actions, c, kid, i);
    } else {
      StartAnswers(interval, before, actions[n], c);
      var kid := actions[n].kid;
      if end.calls[c].Done? { assert EndsTruly(interval, s, actions, n, c, kid, end.calls[c].key); }
      assert AnsweredFrom(interval, s, actions, c, kid, n);
    }
  }

  lemma StartAnswers(interval: nat, s: State, action: Action, c: int)
    requires c !in s.calls && c in Step(interval, s, action).calls
    ensures action.Start? && action.call == c
    ensures var p, jwks := Step(interval, s, action).calls[c], Step(interval, s, action).cache.jwks;
            Asks(p, action.kid) || (p.Done? && Holding(jwks, action.kid, p.key))
  {
  }

  lemma DoneStays(interval: nat, s: State, action: Action, c: int)
    requires c in s.calls && s.calls[c].Done?
    ensures c in Step(interval, s, action).calls && Step(interval, s, action).calls[c] == s.calls[c]
  {
  }

  lemma EndsTrulyBefore(interval: nat, s: State, actions: seq<Action>, n: nat, j: nat, c: int, kid: string, key: Option<int>)
    requires j < n <= |actions| && EndsTruly(interval, s, actions[..n], j, c, kid, key)
    ensures EndsTruly(interval, s, actions, j, c, kid, key)
  {
    assert actions[..n][..j + 1] == actions[..j + 1] && actions[..n][..j] == actions[..j];
  }

  lemma AnswerGoesOn(interval: nat, s: State, actions: seq<Action>, c: int, kid: string, i: nat)
    requires actions != [] && AnsweredFrom(interval, s, actions[..|actions| - 1], c, kid, i)
    requires LockExclusive(After(interval, s, actions[..|actions| - 1])) && MissingStays(After(interval, s, actions[..|actions| - 1]))
    ensures AnsweredFrom(interval, s, actions, c, kid, i)
  {
    var n := |actions| - 1;
    var init := actions[..n];
    var before, end := After(interval, s, init), After(interval, s, actions);
    if Asks(before.calls[c], kid) {
      StepAnswers(interval, before, actions[n], c, kid);
      assert actions[..n + 1] == actions;
      if end.calls[c].Done? { assert EndsTruly(interval, s, actions, n, c, kid, end.calls[c].key); }
    } else {
      DoneStays(interval, before, actions[n], c);
      var j :| i <= j < |init| && EndsTruly(interval, s, init, j, c, kid, before.calls[c].key);
      EndsTrulyBefore(interval, s, actions, n, j, c, kid, before.calls[c].key);
    }
  }


  /** A waiting call whose key was fetched meanwhile gets it at its re-check, without a request of its own. */
  lemma WaitingCallIsServed(interval: nat, s: State, c: int, kid: string, key: int)
    requires c in s.calls && s.calls[c] == Locked(kid) && Holding(s.cache.jwks, kid, Some(key))
    ensures var next := Step(interval, s, Recheck(c));
            next.calls[c] == Done(Some(key)) && next.fetches == s.fetches && next.discoveries == s.discoveries && next.holder.None?
  {
  }
}
