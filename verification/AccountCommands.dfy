/** Account commands: load, guard, and save against an expected version, by any number of interleaved clients. */
module AccountCommands {
  import opened Kernel
  import opened EventLog
  import opened Accounts
  import opened AccountRows
  import Profiles

  /** A use case's request. Times are read from the clock when the command is built. */
  datatype Request =
    | Create(name: string, isBot: bool, nanoid: string, auth: int)
    | Update(bot: Profiles.FieldAction<bool>)
    | Deactivate
    | Suspend(reason: string, at: int, expiresAt: Option<int>)
    | Unsuspend
    | Ban(reason: string, at: int)
    | Unban
    | Reactivate

  datatype Expected = Nothing | At(version: int)

  function Chosen(action: Profiles.FieldAction<bool>, current: bool): bool {
    match action
    case Unchanged => current
    case Clear => false
    case Set(b) => b
  }

  /** The guard of each use case on the loaded account, and the event it saves. */
  function Decide(acc: Account, request: Request): Result<Accounts.Event> {
    match request
    case Create(name, isBot, nanoid, auth) => Err(Concurrency)
    case Update(bot) =>
      if !acc.status.Active? || acc.deleted then Err(Rejected) else Ok(Accounts.Updated(Chosen(bot, acc.isBot)))
    case Deactivate => Ok(Deactivated)
    case Suspend(reason, at, expiresAt) =>
      if !acc.status.Active? || acc.deleted then Err(Rejected) else Ok(Accounts.Event.Suspended(reason, at, expiresAt))
    case Unsuspend => if !acc.status.Suspended? then Err(Rejected) else Ok(Unsuspended)
    case Ban(reason, at) =>
      if acc.status.Banned? || acc.deleted then Err(Rejected) else Ok(Accounts.Event.Banned(reason, at))
    case Unban => if !acc.status.Banned? then Err(Rejected) else Ok(Unbanned)
    case Reactivate => if !acc.deleted then Err(Rejected) else Ok(Reactivated)
  }

  /** The guards of the use cases agree with the aggregate, except that deactivation is not guarded at all. */
  lemma GuardsMatchAggregate(acc: Account, request: Request, id: int, version: int)
    requires Decide(acc, request).Ok?
    ensures Apply(Some(acc), Envelope(id, Decide(acc, request).value, version)).Ok? <==> !(request.Deactivate? && acc.deleted)
  {
  }

  /** The event a request saves when it runs on this stream alone, and the version it expects. */
  function Decided(stream: seq<AccountEnvelope>, request: Request): Result<(Accounts.Event, Expected)> {
    if request.Create? then Ok((Accounts.Created(request.name, request.isBot, request.nanoid, request.auth), Nothing))
    else
      match Load(ACCOUNT, stream)
      case Err(e) => Err(e)
      case Ok(None) => Err(NotFound)
      case Ok(Some(loaded)) =>
        match Decide(loaded.aggregate, request)
        case Err(e) => Err(e)
        case Ok(event) => Ok((event, At(loaded.version)))
  }

  /** The table holds a row of this aggregate and version. */
  predicate Taken(stream: seq<AccountEnvelope>, version: int) {
    exists i :: 0 <= i < |stream| && stream[i].version == version
  }

  /** A plain insert: the primary key refuses a version that the aggregate already has. */
  function Inserted(stream: seq<AccountEnvelope>, env: AccountEnvelope): Result<seq<AccountEnvelope>> {
    if Taken(stream, env.version) then Err(Internal) else Ok(Insert(env, stream))
  }

  /** The condition of the insert. Rows are read back in version order, so the newest version is the last row's. */
  predicate Admits(seen: seq<AccountEnvelope>, expected: Option<Expected>) {
    match expected
    case None => true
    case Some(Nothing) => seen == []
    case Some(At(v)) => seen != [] && seen[|seen| - 1].version == v
  }

  /** The conditional insert: its condition is judged on the rows it sees, the primary key on all rows. */
  function PersistSeeing(stream: seq<AccountEnvelope>, seen: seq<AccountEnvelope>, expected: Option<Expected>, env: AccountEnvelope): Result<seq<AccountEnvelope>> {
    if Admits(seen, expected) then Inserted(stream, env) else Err(Concurrency)
  }

  /** A save as the repository promises it, on the newest stream. */
  function Persist(stream: seq<AccountEnvelope>, expected: Option<Expected>, env: AccountEnvelope): Result<seq<AccountEnvelope>> {
    PersistSeeing(stream, stream, expected, env)
  }

  /**
   What a save does: a conflict if the version it expects is not the newest one, an internal error if its own
   version is taken, and otherwise the same rows and the new one. Rows in version order stay in version order.
   */
  lemma SaveOutcome(stream: seq<AccountEnvelope>, expected: Option<Expected>, env: AccountEnvelope)
    ensures var r := Persist(stream, expected, env);
            var stale := || (expected.Some? && expected.value.Nothing? && stream != [])
                         || (expected.Some? && expected.value.At? && (stream == [] || stream[|stream| - 1].version != expected.value.version));
            var taken := exists i :: 0 <= i < |stream| && stream[i].version == env.version;
            && (r == Err(Concurrency) <==> stale)
            && (r == Err(Internal) <==> !stale && taken)
            && (r.Ok? <==> !stale && !taken)
            && (r.Ok? ==> multiset(r.value) == multiset(stream) + multiset{env} && (Increasing(stream) ==> Increasing(r.value)))
  {
    InsertAdds(env, stream);
    if !Taken(stream, env.version) && Increasing(stream) { InsertIncreases(env, stream); }
  }

  lemma {:induction false} InsertIncreases(env: AccountEnvelope, stream: seq<AccountEnvelope>)
    requires Increasing(stream) && !Taken(stream, env.version)
    ensures Increasing(Insert(env, stream))
    ensures forall e :: e in Insert(env, stream) ==> e == env || e in stream
  {
    if stream != [] {
      assert stream[0].version != env.version;
      if env.version > stream[0].version {
        var rest := stream[1..];
        assert forall i :: 0 <= i < |rest| ==> rest[i] == stream[i + 1];
        InsertIncreases(env, rest);
        var tail := Insert(env, rest);
        forall i | 0 <= i < |tail| ensures tail[i].version > stream[0].version { assert tail[i] in tail; }
      }
    }
  }

  /** A request that loads and saves without interference. */
  function Execute(stream: seq<AccountEnvelope>, id: int, request: Request, version: int): Result<seq<AccountEnvelope>> {
    match Decided(stream, request)
    case Err(e) => Err(e)
    case Ok((event, expected)) => Persist(stream, Some(expected), Envelope(id, event, version))
  }

  /** The account event table, by aggregate. */
  class EventStore {
    var streams: map<int, seq<AccountEnvelope>>

    function StreamOf(id: int): seq<AccountEnvelope>
      reads this
    {
      if id in streams then streams[id] else []
    }

    method LoadAccount(id: int) returns (r: Result<Rehydrated<Account>>)
      ensures r == match Load(ACCOUNT, StreamOf(id))
                   case Err(e) => Err(e)
                   case Ok(None) => Err(NotFound)
                   case Ok(Some(loaded)) => Ok(loaded)
    {
      var loaded := FromEvents(ACCOUNT, StreamOf(id));
      if loaded.Err? { return Err(loaded.error); }
      r := if loaded.value.None? then Err(NotFound) else Ok(loaded.value.value);
    }

    method Save(id: int, expected: Option<Expected>, event: Accounts.Event, version: int) returns (r: Result<AccountEnvelope>)
      modifies this
      ensures var saved := Persist(old(StreamOf(id)), expected, Envelope(id, event, version));
              && r == (if saved.Ok? then Ok(Envelope(id, event, version)) else Err(saved.error))
              && StreamOf(id) == (if saved.Ok? then saved.value else old(StreamOf(id)))
      ensures forall other :: other != id ==> StreamOf(other) == old(StreamOf(other))
    {
      var stream := StreamOf(id);
      if !Admits(stream, expected) { return Err(Concurrency); }
      if Taken(stream, version) { return Err(Internal); }
      streams := streams[id := Insert(Envelope(id, event, version), stream)];
      r := Ok(Envelope(id, event, version));
    }

    /** One use case: load, guard, save; or, for a creation, save against an empty stream. */
    method Run(id: int, request: Request, version: int) returns (r: Result<AccountEnvelope>)
      modifies this
      ensures var ran := Execute(old(StreamOf(id)), id, request, version);
              && r.Ok? == ran.Ok? && (r.Err? ==> r.error == ran.error)
              && StreamOf(id) == (if ran.Ok? then ran.value else old(StreamOf(id)))
              && (r.Ok? ==> StreamOf(id) == Insert(r.value, old(StreamOf(id))) && r.value.id == id && r.value.version == version)
      ensures forall other :: other != id ==> StreamOf(other) == old(StreamOf(other))
    {
      if request.Create? {
        r := Save(id, Some(Nothing), Accounts.Created(request.name, request.isBot, request.nanoid, request.auth), version);
        return;
      }
      var loaded := LoadAccount(id);
      if loaded.Err? { return Err(loaded.error); }
      var decision := Decide(loaded.value.aggregate, request);
      if decision.Err? { return Err(decision.error); }
      r := Save(id, Some(At(loaded.value.version)), decision.value, version);
    }
  }

  // ---------- what a request does ----------

  /** What a use case demands of the account it loads. Deactivation demands nothing. */
  predicate Permits(acc: Account, request: Request) {
    match request
    case Create(_, _, _, _) => false
    case Update(_) => acc.status.Active? && !acc.deleted
    case Deactivate => true
    case Suspend(_, _, _) => acc.status.Active? && !acc.deleted
    case Unsuspend => acc.status.Suspended?
    case Ban(_, _) => !acc.status.Banned? && !acc.deleted
    case Unban => acc.status.Banned?
    case Reactivate => acc.deleted
  }

  lemma LoadsLast(stream: seq<AccountEnvelope>)
    requires stream != [] && AccountFold(stream).Ok?
    ensures AccountFold(stream).value.Some?
    ensures Load(ACCOUNT, stream) == Ok(Some(Rehydrated(AccountFold(stream).value.value, stream[|stream| - 1].version)))
  {
    AccountFoldSome(None, stream);
  }

  /**
   When a request succeeds: a creation on an empty stream, and any other on a stream that loads to an account
   which permits it. Otherwise it is a conflict, not found, the refusal of the stream, or rejected.
   */
  lemma SucceedsExactly(stream: seq<AccountEnvelope>, id: int, request: Request, version: int)
    requires forall i :: 0 <= i < |stream| ==> stream[i].version < version
    ensures var r, folded := Execute(stream, id, request, version), AccountFold(stream);
            if request.Create? then (if stream == [] then r.Ok? else r == Err(Concurrency))
            else if stream == [] then r == Err(NotFound)
            else if folded.Err? then r == Err(folded.error)
            else folded.value.Some? && (if Permits(folded.value.value, request) then r.Ok? else r == Err(Rejected))
  {
    if stream != [] && AccountFold(stream).Ok? {
      LoadsLast(stream);
      assert Admits(stream, Some(At(stream[|stream| - 1].version)));
    }
    assert !Taken(stream, version);
  }

  /** A creation makes the account that it describes, and names the auth account in its event. */
  lemma CreationMakes(id: int, request: Request, version: int)
    requires request.Create?
    ensures var made := Envelope(id, Accounts.Created(request.name, request.isBot, request.nanoid, request.auth), version);
            && Execute([], id, request, version) == Ok([made])
            && AccountFold([made]) == Ok(Some(Account(id, request.name, request.isBot, Active, false, version, request.nanoid, CreatedAt(id))))
  {
    var made := Envelope(id, Accounts.Created(request.name, request.isBot, request.nanoid, request.auth), version);
    var empty: seq<AccountEnvelope> := [];
    InsertLast(made, empty);
    assert [made] == empty + [made] && !Taken(empty, version);
    FoldSnoc(ACCOUNT, None, empty, made);
    assert Execute(empty, id, request, version) == Ok([made]);
  }

  /**
   What a successful request changes: the account loaded afterwards is the one loaded before with the change
   asked for and the new version, and nothing else. Only a second deactivation leaves a stream that does not load.
   */
  lemma RequestChanges(stream: seq<AccountEnvelope>, id: int, request: Request, version: int, acc: Account)
    requires AccountFold(stream) == Ok(Some(acc)) && stream != [] && forall i :: 0 <= i < |stream| ==> stream[i].version < version
    requires Execute(stream, id, request, version).Ok?
    ensures var next := Execute(stream, id, request, version).value;
            var was := acc.(version := version);
            && |next| == |stream| + 1 && next[..|stream|] == stream && next[|stream|].id == id && next[|stream|].version == version
            && AccountFold(next) ==
               match request
               case Create(_, _, _, _) => Err(Concurrency)
               case Update(bot) => Ok(Some(if bot.Set? then was.(isBot := bot.value) else if bot.Clear? then was.(isBot := false) else was))
               case Deactivate => if acc.deleted then Err(Internal) else Ok(Some(was.(deleted := true)))
               case Suspend(reason, at, expiresAt) => Ok(Some(was.(status := Status.Suspended(reason, at, expiresAt))))
               case Unsuspend => Ok(Some(was.(status := Active)))
               case Ban(reason, at) => Ok(Some(was.(status := Status.Banned(reason, at))))
               case Unban => Ok(Some(was.(status := Active)))
               case Reactivate => Ok(Some(was.(deleted := false)))
  {
    LoadsLast(stream);
    var env := Envelope(id, Decide(acc, request).value, version);
    InsertLast(env, stream);
    FoldSnoc(ACCOUNT, None, stream, env);
    assert ACCOUNT.apply(Some(acc), env) == Apply(Some(acc), env);
  }

  // ---------- interleaved clients of one account ----------

  /** A client between its load and its save. */
  datatype Inflight = Inflight(request: Request, expected: Expected, event: Accounts.Event)

  /** `history` lists the requests whose saves succeeded, in the order of the saves. */
  datatype State = State(stream: seq<AccountEnvelope>, inflight: map<int, Inflight>, history: seq<Request>)

  const START: State := State([], map[], [])

  /** `sees` holds the versions of the rows whose transactions have committed when the load or the insert starts. */
  datatype Action = Begin(client: int, request: Request, sees: set<int>) | Finish(client: int, version: int, sees: set<int>)

  /** The rows that a statement sees. */
  function Visible(stream: seq<AccountEnvelope>, sees: set<int>): seq<AccountEnvelope> {
    if stream == [] then []
    else
      var n := |stream| - 1;
      Visible(stream[..n], sees) + if stream[n].version in sees then [stream[n]] else []
  }

  function Step(id: int, s: State, action: Action): State {
    match action
    case Begin(client, request, sees) =>
      (match Decided(Visible(s.stream, sees), request)
       case Err(_) => s
       case Ok((event, expected)) => s.(inflight := s.inflight[client := Inflight(request, expected, event)]))
    case Finish(client, version, sees) =>
      if client !in s.inflight then s
      else
        var f := s.inflight[client];
        match PersistSeeing(s.stream, Visible(s.stream, sees), Some(f.expected), Envelope(id, f.event, version))
        case Err(_) => s.(inflight := s.inflight - {client})
        case Ok(next) => State(next, s.inflight - {client}, s.history + [f.request])
  }

  /** Versions are handed out in increasing order. */
  ghost predicate Enabled(s: State, action: Action) {
    action.Finish? ==> forall i :: 0 <= i < |s.stream| ==> s.stream[i].version < action.version
  }

  /** The repository's promise: a load or a save sees every save before it. */
  ghost predicate SeesAll(s: State, action: Action) {
    forall i :: 0 <= i < |s.stream| ==> s.stream[i].version in action.sees
  }

  lemma {:induction false} VisibleAll(stream: seq<AccountEnvelope>, sees: set<int>)
    requires forall i :: 0 <= i < |stream| ==> stream[i].version in sees
    ensures Visible(stream, sees) == stream
  {
    if stream != [] {
      VisibleAll(stream[..|stream| - 1], sees);
      assert stream == stream[..|stream| - 1] + [stream[|stream| - 1]];
    }
  }

  function After(id: int, s: State, actions: seq<Action>): State {
    if actions == [] then s else Step(id, After(id, s, actions[..|actions| - 1]), actions[|actions| - 1])
  }

  ghost predicate IsRun(id: int, s: State, actions: seq<Action>) {
    forall i :: 0 <= i < |actions| ==> Enabled(After(id, s, actions[..i]), actions[i])
  }

  ghost predicate Isolated(id: int, s: State, actions: seq<Action>) {
    forall i :: 0 <= i < |actions| ==> SeesAll(After(id, s, actions[..i]), actions[i])
  }

  lemma IsolatedPrefix(id: int, s: State, actions: seq<Action>, n: nat)
    requires n <= |actions| && Isolated(id, s, actions)
    ensures Isolated(id, s, actions[..n])
  {
    forall i | 0 <= i < n ensures SeesAll(After(id, s, actions[..n][..i]), actions[..n][i]) {
      assert actions[..n][..i] == actions[..i];
    }
  }

  lemma RunPrefix(id: int, s: State, actions: seq<Action>, n: nat)
    requires n <= |actions| && IsRun(id, s, actions)
    ensures IsRun(id, s, actions[..n])
  {
    forall i | 0 <= i < n ensures Enabled(After(id, s, actions[..n][..i]), actions[..n][i]) {
      assert actions[..n][..i] == actions[..i];
    }
  }

  /** The requests executed one after the other, each at its version. */
  function Serially(id: int, history: seq<Request>, versions: seq<int>): seq<AccountEnvelope>
    requires |history| == |versions|
  {
    if history == [] then []
    else
      var n := |history| - 1;
      var sofar := Serially(id, history[..n], versions[..n]);
      match Execute(sofar, id, history[n], versions[n])
      case Err(_) => sofar
      case Ok(next) => next
  }

  function Versions(stream: seq<AccountEnvelope>): (r: seq<int>)
    ensures |r| == |stream| && forall i :: 0 <= i < |r| ==> r[i] == stream[i].version
  {
    seq(|stream|, i requires 0 <= i < |stream| => stream[i].version)
  }

  /** The stream is what the history produces when run serially. */
  ghost predicate Serial(id: int, s: State) {
    && Increasing(s.stream)
    && |s.history| == |s.stream|
    && s.stream == Serially(id, s.history, Versions(s.stream))
  }

  /** What a client holds was decided on some prefix of the stream that ends at the version it expects. */
  ghost predicate DecidedAt(stream: seq<AccountEnvelope>, f: Inflight, k: int) {
    && 0 <= k <= |stream|
    && Decided(stream[..k], f.request) == Ok((f.event, f.expected))
    && f.expected == if k == 0 then Nothing else At(stream[k - 1].version)
  }

  ghost predicate Informed(s: State) {
    forall client :: client in s.inflight ==> exists k :: DecidedAt(s.stream, s.inflight[client], k)
  }

  /** What loading alone decides names the version of the last row, or an empty stream. */
  lemma DecidedExpects(stream: seq<AccountEnvelope>, request: Request)
    requires Decided(stream, request).Ok?
    ensures request.Create? ==> Decided(stream, request) == Decided([], request)
    ensures !request.Create? ==> stream != [] && Decided(stream, request).value.1 == At(stream[|stream| - 1].version)
  {
  }

  lemma BeginKeeps(id: int, s: State, client: int, request: Request, sees: set<int>)
    requires Informed(s) && SeesAll(s, Begin(client, request, sees))
    ensures Informed(Step(id, s, Begin(client, request, sees)))
  {
    VisibleAll(s.stream, sees);
    if Decided(s.stream, request).Ok? {
      DecidedExpects(s.stream, request);
      var (event, expected) := Decided(s.stream, request).value;
      var f := Inflight(request, expected, event);
      var k := if request.Create? then 0 else |s.stream|;
      assert s.stream[..|s.stream|] == s.stream && s.stream[..0] == [];
      assert DecidedAt(s.stream, f, k);
      var next := Step(id, s, Begin(client, request, sees));
      forall c | c in next.inflight ensures exists k :: DecidedAt(next.stream, next.inflight[c], k) {
        if c != client { assert next.inflight[c] == s.inflight[c]; }
      }
    }
  }

  lemma DecidedStays(stream: seq<AccountEnvelope>, env: AccountEnvelope, f: Inflight, k: int)
    requires DecidedAt(stream, f, k)
    ensures DecidedAt(stream + [env], f, k)
  {
    assert (stream + [env])[..k] == stream[..k];
  }

  lemma LastIsNewest(stream: seq<AccountEnvelope>)
    requires Increasing(stream)
    ensures forall k :: 0 <= k < |stream| - 1 ==> stream[k].version < stream[|stream| - 1].version
  {
  }

  /** A save succeeds only on the very stream that its request was decided on. */
  lemma SavedOnSame(stream: seq<AccountEnvelope>, f: Inflight, k: int, env: AccountEnvelope)
    requires Increasing(stream) && DecidedAt(stream, f, k) && Persist(stream, Some(f.expected), env).Ok?
    ensures k == |stream| && Decided(stream, f.request) == Ok((f.event, f.expected))
  {
    LastIsNewest(stream);
    assert stream[..|stream|] == stream;
  }

  lemma SeriallySnoc(id: int, stream: seq<AccountEnvelope>, history: seq<Request>, request: Request, env: AccountEnvelope)
    requires |history| == |stream| && stream == Serially(id, history, Versions(stream))
    requires Execute(stream, id, request, env.version) == Ok(stream + [env])
    ensures stream + [env] == Serially(id, history + [request], Versions(stream + [env]))
  {
    var h, v := history + [request], Versions(stream + [env]);
    assert h[..|stream|] == history && v[..|stream|] == Versions(stream);
  }

  lemma InformedStays(s: State, next: State, env: AccountEnvelope)
    requires Informed(s) && next.stream == s.stream + [env] && forall c :: c in next.inflight ==> c in s.inflight && next.inflight[c] == s.inflight[c]
    ensures Informed(next)
  {
    forall c | c in next.inflight ensures exists k :: DecidedAt(next.stream, next.inflight[c], k) {
      var k :| DecidedAt(s.stream, s.inflight[c], k);
      DecidedStays(s.stream, env, s.inflight[c], k);
    }
  }

  /** A successful save appends one row, as running its request alone on the same stream would. */
  lemma FinishSaves(id: int, s: State, f: Inflight, version: int)
    requires Increasing(s.stream) && (exists k :: DecidedAt(s.stream, f, k)) && forall i :: 0 <= i < |s.stream| ==> s.stream[i].version < version
    requires Persist(s.stream, Some(f.expected), Envelope(id, f.event, version)).Ok?
    ensures var next := s.stream + [Envelope(id, f.event, version)];
            && Persist(s.stream, Some(f.expected), Envelope(id, f.event, version)) == Ok(next)
            && Execute(s.stream, id, f.request, version) == Ok(next)
  {
    var k :| DecidedAt(s.stream, f, k);
    SavedOnSame(s.stream, f, k, Envelope(id, f.event, version));
    InsertLast(Envelope(id, f.event, version), s.stream);
  }

  lemma SaveKeepsSerial(id: int, s: State, next: State, request: Request, env: AccountEnvelope)
    requires Serial(id, s) && next.stream == s.stream + [env] && next.history == s.history + [request]
    requires Execute(s.stream, id, request, env.version) == Ok(next.stream) && forall i :: 0 <= i < |s.stream| ==> s.stream[i].version < env.version
    ensures Serial(id, next)
  {
    SeriallySnoc(id, s.stream, s.history, request, env);
  }

  lemma FinishKeeps(id: int, s: State, client: int, version: int, sees: set<int>)
    requires Serial(id, s) && Informed(s) && Enabled(s, Finish(client, version, sees)) && SeesAll(s, Finish(client, version, sees))
    ensures var next := Step(id, s, Finish(client, version, sees)); Serial(id, next) && Informed(next)
  {
    VisibleAll(s.stream, sees);
    if client in s.inflight {
      var f := s.inflight[client];
      var env := Envelope(id, f.event, version);
      if Persist(s.stream, Some(f.expected), env).Ok? {
        FinishSaves(id, s, f, version);
        var next := State(s.stream + [env], s.inflight - {client}, s.history + [f.request]);
        assert Step(id, s, Finish(client, version, sees)) == next;
        SaveKeepsSerial(id, s, next, f.request, env);
        InformedStays(s, next, env);
      }
    }
  }

  /**
   Serializability: however loads and saves of concurrent clients interleave, if each sees every save before
   it, the stream is the one that the successful requests produce when executed one at a time, in the order
   of their saves.
   */
  lemma {:induction false} Serializable(id: int, s: State, actions: seq<Action>)
    requires Serial(id, s) && Informed(s) && IsRun(id, s, actions) && Isolated(id, s, actions)
    ensures Serial(id, After(id, s, actions)) && Informed(After(id, s, actions))
  {
    if actions != [] {
      var n := |actions| - 1;
      RunPrefix(id, s, actions, n);
      IsolatedPrefix(id, s, actions, n);
      Serializable(id, s, actions[..n]);
      match actions[n]
      case Begin(client, request, sees) => BeginKeeps(id, After(id, s, actions[..n]), client, request, sees);
      case Finish(client, version, sees) => FinishKeeps(id, After(id, s, actions[..n]), client, version, sees);
    }
  }

  // ---------- saves that do not see each other ----------

  /** The event belongs to the request: it was decided on some account, or it is the creation. */
  ghost predicate Drafted(f: Inflight) {
    if f.request.Create? then f.event == Accounts.Created(f.request.name, f.request.isBot, f.request.nanoid, f.request.auth)
    else exists acc :: Decide(acc, f.request) == Ok(f.event)
  }

  ghost predicate Grown(s: State) {
    && Increasing(s.stream) && |s.history| == |s.stream|
    && forall client :: client in s.inflight ==> Drafted(s.inflight[client])
  }

  /** The step is a save that goes through, on the rows it sees. */
  ghost predicate Saves(id: int, s: State, action: Action) {
    && action.Finish? && action.client in s.inflight
    && var f := s.inflight[action.client];
       PersistSeeing(s.stream, Visible(s.stream, action.sees), Some(f.expected), Envelope(id, f.event, action.version)).Ok?
  }

  /** The save's request decides the same event on the newest stream. */
  predicate SameDecision(stream: seq<AccountEnvelope>, f: Inflight) {
    && Decided(stream, f.request).Ok? && Decided(stream, f.request).value.0 == f.event
    && (f.request.Create? ==> stream == [])
  }

  /** A save appends one row; any other step leaves stream and history alone. */
  lemma StepGrows(id: int, s: State, action: Action)
    requires Grown(s) && Enabled(s, action)
    ensures var next := Step(id, s, action);
            && Grown(next)
            && (Saves(id, s, action) ==>
                  var f := s.inflight[action.client];
                  next.stream == s.stream + [Envelope(id, f.event, action.version)] && next.history == s.history + [f.request])
            && (!Saves(id, s, action) ==> next.stream == s.stream && next.history == s.history)
  {
    if Saves(id, s, action) {
      InsertLast(Envelope(id, s.inflight[action.client].event, action.version), s.stream);
    } else if action.Begin? && Decided(Visible(s.stream, action.sees), action.request).Ok? {
      DecidedDrafts(Visible(s.stream, action.sees), action.request);
    }
  }

  lemma DecidedDrafts(stream: seq<AccountEnvelope>, request: Request)
    requires Decided(stream, request).Ok?
    ensures var (event, expected) := Decided(stream, request).value; Drafted(Inflight(request, expected, event))
  {
    if !request.Create? {
      var acc := Load(ACCOUNT, stream).value.value.aggregate;
      assert Decide(acc, request) == Ok(Decided(stream, request).value.0);
    }
  }

  /** A save keeps the stream serial exactly if its request decides the same on the newest stream. */
  lemma SaveExact(id: int, s: State, next: State, f: Inflight, version: int)
    requires Increasing(next.stream) && |s.history| == |s.stream|
    requires next.stream == s.stream + [Envelope(id, f.event, version)] && next.history == s.history + [f.request]
    ensures Serial(id, next) <==> Serial(id, s) && SameDecision(s.stream, f)
  {
    if Serial(id, next) { SerialBefore(id, s, next, f, version); }
    if Serial(id, s) && SameDecision(s.stream, f) {
      assert forall i :: 0 <= i < |s.stream| ==> next.stream[i] == s.stream[i];
      ExecutesSame(id, s.stream, f, version);
      SaveKeepsSerial(id, s, next, f.request, Envelope(id, f.event, version));
    }
  }

  lemma SerialBefore(id: int, s: State, next: State, f: Inflight, version: int)
    requires |s.history| == |s.stream| && Serial(id, next)
    requires next.stream == s.stream + [Envelope(id, f.event, version)] && next.history == s.history + [f.request]
    ensures Serial(id, s) && SameDecision(s.stream, f)
  {
    var n := |s.stream|;
    assert next.stream[..n] == s.stream && next.history[..n] == s.history && next.stream[n] == Envelope(id, f.event, version);
    assert forall i :: 0 <= i < n ==> s.stream[i] == next.stream[i];
    LastDecided(id, next.stream, next.history);
  }

  lemma ExecutesSame(id: int, stream: seq<AccountEnvelope>, f: Inflight, version: int)
    requires SameDecision(stream, f) && forall i :: 0 <= i < |stream| ==> stream[i].version < version
    ensures Execute(stream, id, f.request, version) == Ok(stream + [Envelope(id, f.event, version)])
  {
    DecidedExpects(stream, f.request);
    InsertLast(Envelope(id, f.event, version), stream);
  }

  ghost predicate SavesAlike(id: int, s: State, action: Action) {
    Saves(id, s, action) ==> SameDecision(s.stream, s.inflight[action.client])
  }

  lemma StepSerial(id: int, s: State, action: Action)
    requires Grown(s) && Enabled(s, action)
    ensures Grown(Step(id, s, action))
    ensures Serial(id, Step(id, s, action)) <==> Serial(id, s) && SavesAlike(id, s, action)
  {
    StepGrows(id, s, action);
    if Saves(id, s, action) { SaveExact(id, s, Step(id, s, action), s.inflight[action.client], action.version); }
  }

  /** Every save of the run that goes through decides the same on the stream it is appended to. */
  ghost predicate AllAlike(id: int, s: State, actions: seq<Action>) {
    actions != [] ==>
      var n := |actions| - 1;
      AllAlike(id, s, actions[..n]) && SavesAlike(id, After(id, s, actions[..n]), actions[n])
  }

  /**
   Serializability at any isolation level: whatever rows loads and inserts see, the stream is what the
   requests produce one at a time exactly if every save that went through decides the same on the stream
   it was appended to.
   */
  lemma {:induction false} SerialExactly(id: int, s: State, actions: seq<Action>)
    requires Grown(s) && IsRun(id, s, actions)
    ensures Grown(After(id, s, actions))
    ensures Serial(id, After(id, s, actions)) <==> Serial(id, s) && AllAlike(id, s, actions)
  {
    if actions != [] {
      var n := |actions| - 1;
      RunPrefix(id, s, actions, n);
      SerialExactly(id, s, actions[..n]);
      StepSerial(id, After(id, s, actions[..n]), actions[n]);
    }
  }

  /** The event of a request still fits the account: its guard passes, except that an update always fits. */
  predicate StillFits(acc: Account, request: Request) {
    match request
    case Create(_, _, _, _) => false
    case Update(_) => true
    case Deactivate => !acc.deleted
    case _ => Decide(acc, request).Ok?
  }

  predicate Fits(stream: seq<AccountEnvelope>, request: Request) {
    if request.Create? then stream == []
    else AccountFold(stream).Ok? && AccountFold(stream).value.Some? && StillFits(AccountFold(stream).value.value, request)
  }

  /** An event decided on whatever account applies to another one exactly if its request still fits that one. */
  lemma DraftedApplies(f: Inflight, acc: Account, id: int, version: int)
    requires Drafted(f)
    ensures Apply(Some(acc), Envelope(id, f.event, version)).Ok? <==> StillFits(acc, f.request)
  {
  }

  lemma DraftedNone(f: Inflight, id: int, version: int)
    requires Drafted(f)
    ensures Apply(None, Envelope(id, f.event, version)).Ok? <==> f.request.Create?
  {
  }

  lemma SaveReplays(id: int, stream: seq<AccountEnvelope>, f: Inflight, version: int)
    requires Drafted(f)
    ensures AccountFold(stream + [Envelope(id, f.event, version)]).Ok? <==> AccountFold(stream).Ok? && Fits(stream, f.request)
  {
    var env := Envelope(id, f.event, version);
    FoldSnoc(ACCOUNT, None, stream, env);
    if AccountFold(stream).Ok? {
      if stream != [] { AccountFoldSome(None, stream); }
      match AccountFold(stream).value
      case None => DraftedNone(f, id, version);
      case Some(acc) => DraftedApplies(f, acc, id, version);
    }
  }

  ghost predicate SavesFitting(id: int, s: State, action: Action) {
    Saves(id, s, action) ==> Fits(s.stream, s.inflight[action.client].request)
  }

  lemma StepReplays(id: int, s: State, action: Action)
    requires Grown(s) && Enabled(s, action)
    ensures AccountFold(Step(id, s, action).stream).Ok? <==> AccountFold(s.stream).Ok? && SavesFitting(id, s, action)
  {
    StepGrows(id, s, action);
    if Saves(id, s, action) { SaveReplays(id, s.stream, s.inflight[action.client], action.version); }
  }

  /** Every save of the run that goes through fits the account that the stream before it gives. */
  ghost predicate AllFitting(id: int, s: State, actions: seq<Action>) {
    actions != [] ==>
      var n := |actions| - 1;
      AllFitting(id, s, actions[..n]) && SavesFitting(id, After(id, s, actions[..n]), actions[n])
  }

  /**
   Replay at any isolation level: the stream loads exactly if every save that went through fits the account
   that the stream before it gives.
   */
  lemma {:induction false} ReplaysWhateverSeen(id: int, s: State, actions: seq<Action>)
    requires Grown(s) && IsRun(id, s, actions)
    ensures AccountFold(After(id, s, actions).stream).Ok? <==> AccountFold(s.stream).Ok? && AllFitting(id, s, actions)
  {
    if actions != [] {
      var n := |actions| - 1;
      RunPrefix(id, s, actions, n);
      ReplaysWhateverSeen(id, s, actions[..n]);
      SerialExactly(id, s, actions[..n]);
      StepReplays(id, After(id, s, actions[..n]), actions[n]);
    }
  }

  // ---------- replay ----------

  /** A deactivation was saved on an account that its own load showed deactivated already. */
  ghost predicate DeactivatedAgain(stream: seq<AccountEnvelope>, history: seq<Request>)
    requires |history| == |stream|
  {
    exists k :: 0 <= k < |stream| && history[k].Deactivate? && LoadsDeleted(stream[..k])
  }

  predicate LoadsDeleted(stream: seq<AccountEnvelope>) {
    AccountFold(stream).Ok? && AccountFold(stream).value.Some? && AccountFold(stream).value.value.deleted
  }

  /** The last event of a serial stream was decided on the stream before it. */
  lemma LastDecided(id: int, stream: seq<AccountEnvelope>, history: seq<Request>)
    requires Increasing(stream) && stream != [] && |history| == |stream| && stream == Serially(id, history, Versions(stream))
    ensures var n := |stream| - 1;
            && stream[..n] == Serially(id, history[..n], Versions(stream[..n]))
            && Decided(stream[..n], history[n]).Ok?
            && stream[n] == Envelope(id, Decided(stream[..n], history[n]).value.0, stream[n].version)
            && (history[n].Create? ==> n == 0)
  {
    var n := |stream| - 1;
    var versions := Versions(stream);
    var sofar := Serially(id, history[..n], versions[..n]);
    assert versions[..n] == Versions(stream[..n]);
    SeriallyLength(id, history[..n], versions[..n]);
    SeriallyBelow(id, history[..n], versions[..n], stream[n].version);
    var decided := Decided(sofar, history[n]).value;
    InsertLast(Envelope(id, decided.0, stream[n].version), sofar);
    assert stream == sofar + [Envelope(id, decided.0, stream[n].version)];
    assert stream[..n] == sofar;
  }

  lemma {:induction false} InsertGrows(env: AccountEnvelope, stream: seq<AccountEnvelope>)
    ensures |Insert(env, stream)| == |stream| + 1
    ensures forall e :: e in Insert(env, stream) ==> e == env || e in stream
  {
    if stream != [] && env.version > stream[0].version { InsertGrows(env, stream[1..]); }
  }

  lemma {:induction false} SeriallyLength(id: int, history: seq<Request>, versions: seq<int>)
    requires |history| == |versions|
    ensures |Serially(id, history, versions)| <= |history|
  {
    if history != [] {
      var n := |history| - 1;
      SeriallyLength(id, history[..n], versions[..n]);
      var sofar := Serially(id, history[..n], versions[..n]);
      var decided := Decided(sofar, history[n]);
      if decided.Ok? { InsertGrows(Envelope(id, decided.value.0, versions[n]), sofar); }
    }
  }

  lemma {:induction false} SeriallyBelow(id: int, history: seq<Request>, versions: seq<int>, bound: int)
    requires |history| == |versions| && forall i :: 0 <= i < |versions| ==> versions[i] < bound
    ensures forall e :: e in Serially(id, history, versions) ==> e.version < bound
  {
    if history != [] {
      var n := |history| - 1;
      SeriallyBelow(id, history[..n], versions[..n], bound);
      var sofar := Serially(id, history[..n], versions[..n]);
      var decided := Decided(sofar, history[n]);
      if decided.Ok? { InsertGrows(Envelope(id, decided.value.0, versions[n]), sofar); }
    }
  }

  lemma AgainSplit(stream: seq<AccountEnvelope>, history: seq<Request>)
    requires |history| == |stream| && stream != []
    ensures var n := |stream| - 1;
            DeactivatedAgain(stream, history) <==>
            DeactivatedAgain(stream[..n], history[..n]) || (history[n].Deactivate? && LoadsDeleted(stream[..n]))
  {
    var n := |stream| - 1;
    forall k | 0 <= k < n ensures stream[..n][..k] == stream[..k] {}
    if DeactivatedAgain(stream[..n], history[..n]) {
      var k :| 0 <= k < n && history[..n][k].Deactivate? && LoadsDeleted(stream[..n][..k]);
      assert history[k].Deactivate? && LoadsDeleted(stream[..k]);
    }
    if DeactivatedAgain(stream, history) {
      var k :| 0 <= k < |stream| && history[k].Deactivate? && LoadsDeleted(stream[..k]);
      if k < n { assert history[..n][k].Deactivate? && LoadsDeleted(stream[..n][..k]); }
    }
  }

  /** A serial stream replays exactly when no deactivation was saved on an account already deactivated. */
  lemma {:induction false} ReplaysExactly(id: int, stream: seq<AccountEnvelope>, history: seq<Request>)
    requires Increasing(stream) && |history| == |stream| && stream == Serially(id, history, Versions(stream))
    ensures AccountFold(stream).Ok? <==> !DeactivatedAgain(stream, history)
  {
    if stream != [] {
      var n := |stream| - 1;
      var init := stream[..n];
      LastDecided(id, stream, history);
      ReplaysExactly(id, init, history[..n]);
      AgainSplit(stream, history);
      assert stream == init + [stream[n]];
      FoldSnoc(ACCOUNT, None, init, stream[n]);
      if n > 0 {
        var acc := AccountFold(init).value.value;
        GuardsMatchAggregate(acc, history[n], id, stream[n].version);
      } else {
        assert init == [];
      }
    }
  }

  /**
   Over every run: the account's stream replays, unless a deactivation was saved on a load that already
   showed the account deactivated.
   */
  lemma EveryStreamReplays(id: int, actions: seq<Action>)
    requires IsRun(id, START, actions) && Isolated(id, START, actions)
    ensures var s := After(id, START, actions);
            |s.history| == |s.stream| && (AccountFold(s.stream).Ok? <==> !DeactivatedAgain(s.stream, s.history))
  {
    Serializable(id, START, actions);
    var s := After(id, START, actions);
    ReplaysExactly(id, s.stream, s.history);
  }

  /** A stream that no longer replays is frozen: no client's save changes it any more. */
  lemma {:induction false} BrokenForGood(id: int, s: State, actions: seq<Action>)
    requires Serial(id, s) && Informed(s) && IsRun(id, s, actions) && Isolated(id, s, actions) && AccountFold(s.stream).Err?
    ensures After(id, s, actions).stream == s.stream
  {
    if actions != [] {
      var n := |actions| - 1;
      RunPrefix(id, s, actions, n);
      IsolatedPrefix(id, s, actions, n);
      BrokenForGood(id, s, actions[..n]);
      Serializable(id, s, actions[..n]);
      var last := After(id, s, actions[..n]);
      VisibleAll(last.stream, actions[n].sees);
      if actions[n].Finish? && actions[n].client in last.inflight { RefusedOnBroken(id, last, actions[n].client, actions[n].version); }
    }
  }

  lemma RefusedOnBroken(id: int, s: State, client: int, version: int)
    requires Serial(id, s) && Informed(s) && AccountFold(s.stream).Err? && client in s.inflight
    ensures Persist(s.stream, Some(s.inflight[client].expected), Envelope(id, s.inflight[client].event, version)) == Err(Concurrency)
  {
    var f := s.inflight[client];
    var k :| DecidedAt(s.stream, f, k);
    BrokenIsNewer(s.stream, f, k);
  }

  /** What was decided before the stream broke expects an older version. */
  lemma BrokenIsNewer(stream: seq<AccountEnvelope>, f: Inflight, k: int)
    requires Increasing(stream) && AccountFold(stream).Err? && DecidedAt(stream, f, k)
    ensures !Admits(stream, Some(f.expected))
  {
    assert stream != [] && stream[..|stream|] == stream;
    LastIsNewest(stream);
  }

  /** On an account whose load shows it deactivated, one more deactivation goes through and breaks the stream. */
  lemma DeactivatingAgainBreaks(id: int, stream: seq<AccountEnvelope>, version: int)
    requires LoadsDeleted(stream) && forall i :: 0 <= i < |stream| ==> stream[i].version < version
    ensures var next := Execute(stream, id, Deactivate, version);
            next.Ok? && AccountFold(next.value) == Err(Internal)
  {
    var env := Envelope(id, Deactivated, version);
    assert stream != [];
    InsertLast(env, stream);
    FoldSnoc(ACCOUNT, None, stream, env);
  }

  /** For example: an account created at version 1 and deactivated at versions 2 and 3. */
  lemma DeactivatedTwiceExample(id: int)
    ensures var created, gone := Envelope(id, Accounts.Created("a", false, "n", 7), 1), Envelope(id, Deactivated, 2);
            && AccountFold([created, gone]).Ok?
            && Execute([created, gone], id, Deactivate, 3).Ok?
            && AccountFold(Execute([created, gone], id, Deactivate, 3).value) == Err(Internal)
  {
    var created, gone := Envelope(id, Accounts.Created("a", false, "n", 7), 1), Envelope(id, Deactivated, 2);
    FoldSnoc(ACCOUNT, None, [], created);
    assert [] + [created] == [created];
    FoldSnoc(ACCOUNT, None, [created], gone);
    assert [created] + [gone] == [created, gone];
    DeactivatingAgainBreaks(id, [created, gone], 3);
  }

  /** If versions were not handed out in order, a saved event could land before the creation and break the stream. */
  lemma StaleVersionBreaks(id: int, created: AccountEnvelope, version: int)
    requires created.event.Created? && version < created.version
    ensures var next := Persist([created], Some(At(created.version)), Envelope(id, Deactivated, version));
            next.Ok? && AccountFold(next.value) == Err(Internal)
  {
  }

  // ---------- two overlapping saves ----------

  /** What a statement sees that started after the rows of the stream were committed, and before a newer row was. */
  ghost predicate SeesUpTo(stream: seq<AccountEnvelope>, newer: int, sees: set<int>) {
    newer !in sees && forall i :: 0 <= i < |stream| ==> stream[i].version in sees && stream[i].version < newer
  }

  lemma VisibleBefore(stream: seq<AccountEnvelope>, env: AccountEnvelope, sees: set<int>)
    requires SeesUpTo(stream, env.version, sees)
    ensures Visible(stream, sees) == stream && Visible(stream + [env], sees) == stream
  {
    VisibleAll(stream, sees);
    assert (stream + [env])[..|stream|] == stream && (stream + [env])[|stream|] == env;
  }

  lemma BeginIs(id: int, s: State, client: int, request: Request, sees: set<int>)
    requires Visible(s.stream, sees) == s.stream && Decided(s.stream, request).Ok?
    ensures var (event, expected) := Decided(s.stream, request).value;
            Step(id, s, Begin(client, request, sees)) == s.(inflight := s.inflight[client := Inflight(request, expected, event)])
  {
  }

  /** Two clients that load and insert the same request, neither seeing the other's row. */
  ghost predicate Overlap(id: int, s: State, one: int, two: int, request: Request, first: int, second: int, sees: set<int>, begun: State, mid: State, next: State) {
    && SeesUpTo(s.stream, first, sees) && one != two && first < second
    && begun == Step(id, Step(id, s, Begin(one, request, sees)), Begin(two, request, sees))
    && mid == Step(id, begun, Finish(one, first, sees))
    && next == Step(id, mid, Finish(two, second, sees))
  }

  lemma BothBegin(id: int, s: State, one: int, two: int, f: Inflight, sees: set<int>) returns (begun: State)
    requires one != two && Decided(s.stream, f.request) == Ok((f.event, f.expected)) && Visible(s.stream, sees) == s.stream
    ensures begun == Step(id, Step(id, s, Begin(one, f.request, sees)), Begin(two, f.request, sees))
    ensures begun.stream == s.stream && begun.history == s.history
    ensures one in begun.inflight && begun.inflight[one] == f && two in begun.inflight && begun.inflight[two] == f
  {
    BeginIs(id, s, one, f.request, sees);
    var s1 := Step(id, s, Begin(one, f.request, sees));
    BeginIs(id, s1, two, f.request, sees);
    begun := Step(id, s1, Begin(two, f.request, sees));
  }

  lemma BothFinish(id: int, begun: State, one: int, two: int, f: Inflight, first: int, second: int, sees: set<int>) returns (mid: State, next: State)
    requires one != two && one in begun.inflight && begun.inflight[one] == f && two in begun.inflight && begun.inflight[two] == f
    requires SeesUpTo(begun.stream, first, sees) && first < second && Admits(begun.stream, Some(f.expected))
    ensures mid == Step(id, begun, Finish(one, first, sees)) && next == Step(id, mid, Finish(two, second, sees))
    ensures mid.stream == begun.stream + [Envelope(id, f.event, first)] && mid.history == begun.history + [f.request]
    ensures next.stream == mid.stream + [Envelope(id, f.event, second)] && next.history == mid.history + [f.request]
  {
    VisibleAll(begun.stream, sees);
    mid := Finished(id, begun, one, first, sees, f);
    next := FinishedUnseen(id, begun.stream, mid, two, Envelope(id, f.event, first), second, sees, f);
  }

  /** A save that does not see the row before it goes through as if that row were not there. */
  lemma FinishedUnseen(id: int, stream: seq<AccountEnvelope>, s: State, client: int, unseen: AccountEnvelope, version: int, sees: set<int>, f: Inflight) returns (next: State)
    requires client in s.inflight && s.inflight[client] == f && s.stream == stream + [unseen]
    requires SeesUpTo(stream, unseen.version, sees) && unseen.version < version && Admits(stream, Some(f.expected))
    ensures next == Step(id, s, Finish(client, version, sees))
    ensures next.stream == s.stream + [Envelope(id, f.event, version)] && next.history == s.history + [f.request]
  {
    VisibleBefore(stream, unseen, sees);
    AppendedBelow(stream, unseen, version);
    next := Finished(id, s, client, version, sees, f);
  }

  lemma AppendedBelow(stream: seq<AccountEnvelope>, env: AccountEnvelope, bound: int)
    requires env.version < bound && forall i :: 0 <= i < |stream| ==> stream[i].version < env.version
    ensures forall i :: 0 <= i < |stream + [env]| ==> (stream + [env])[i].version < bound
  {
  }

  lemma Finished(id: int, s: State, client: int, version: int, sees: set<int>, f: Inflight) returns (next: State)
    requires client in s.inflight && s.inflight[client] == f && Admits(Visible(s.stream, sees), Some(f.expected))
    requires forall i :: 0 <= i < |s.stream| ==> s.stream[i].version < version
    ensures next == Step(id, s, Finish(client, version, sees))
    ensures next == State(s.stream + [Envelope(id, f.event, version)], s.inflight - {client}, s.history + [f.request])
  {
    next := Step(id, s, Finish(client, version, sees));
    InsertLast(Envelope(id, f.event, version), s.stream);
  }

  lemma RefusedOnNewest(id: int, stream: seq<AccountEnvelope>, f: Inflight, first: int, second: int)
    requires !f.request.Create? && Decided(stream, f.request) == Ok((f.event, f.expected)) && forall i :: 0 <= i < |stream| ==> stream[i].version < first
    ensures Admits(stream, Some(f.expected))
    ensures Persist(stream + [Envelope(id, f.event, first)], Some(f.expected), Envelope(id, f.event, second)) == Err(Concurrency)
  {
    DecidedExpects(stream, f.request);
  }

  /** Both inserts go through, although on the newest stream the second one is refused. */
  lemma OverlapLands(id: int, s: State, one: int, two: int, f: Inflight, first: int, second: int, sees: set<int>) returns (begun: State, mid: State, next: State)
    requires one != two && !f.request.Create? && Decided(s.stream, f.request) == Ok((f.event, f.expected))
    requires SeesUpTo(s.stream, first, sees) && first < second
    ensures Overlap(id, s, one, two, f.request, first, second, sees, begun, mid, next)
    ensures mid.stream == s.stream + [Envelope(id, f.event, first)] && mid.history == s.history + [f.request]
    ensures next.stream == mid.stream + [Envelope(id, f.event, second)] && next.history == mid.history + [f.request]
    ensures Persist(mid.stream, Some(f.expected), Envelope(id, f.event, second)) == Err(Concurrency)
  {
    RefusedOnNewest(id, s.stream, f, first, second);
    VisibleAll(s.stream, sees);
    begun := BothBegin(id, s, one, two, f, sees);
    mid, next := BothFinish(id, begun, one, two, f, first, second, sees);
  }

  /** Two overlapping suspensions of one account: the stream that holds both no longer loads. */
  lemma OverlappingSuspensions(id: int, s: State, one: int, two: int, f: Inflight, first: int, second: int, sees: set<int>)
    returns (begun: State, mid: State, next: State)
    requires one != two && f.request.Suspend? && Decided(s.stream, f.request) == Ok((f.event, f.expected))
    requires SeesUpTo(s.stream, first, sees) && first < second
    ensures Overlap(id, s, one, two, f.request, first, second, sees, begun, mid, next) && AccountFold(next.stream) == Err(Internal)
  {
    begun, mid, next := OverlapLands(id, s, one, two, f, first, second, sees);
    SuspendedTwice(id, s.stream, f, first, second);
  }

  lemma SuspendedTwice(id: int, stream: seq<AccountEnvelope>, f: Inflight, first: int, second: int)
    requires f.request.Suspend? && Decided(stream, f.request) == Ok((f.event, f.expected))
    ensures AccountFold(stream + [Envelope(id, f.event, first)] + [Envelope(id, f.event, second)]) == Err(Internal)
  {
    FoldSnoc(ACCOUNT, None, stream, Envelope(id, f.event, first));
    FoldSnoc(ACCOUNT, None, stream + [Envelope(id, f.event, first)], Envelope(id, f.event, second));
  }

  /** Two overlapping updates that set the bot flag are harmless: the stream loads, and is what running them in turn gives. */
  lemma OverlappingUpdates(id: int, s: State, one: int, two: int, f: Inflight, first: int, second: int, sees: set<int>)
    returns (begun: State, mid: State, next: State)
    requires one != two && f.request.Update? && f.request.bot.Set? && Decided(s.stream, f.request) == Ok((f.event, f.expected))
    requires Serial(id, s) && SeesUpTo(s.stream, first, sees) && first < second
    ensures Overlap(id, s, one, two, f.request, first, second, sees, begun, mid, next) && Serial(id, next) && AccountFold(next.stream).Ok?
  {
    begun, mid, next := OverlapLands(id, s, one, two, f, first, second, sees);
    UpdatesSerial(id, s, mid, next, f, first, second);
  }

  lemma UpdatesSerial(id: int, s: State, mid: State, next: State, f: Inflight, first: int, second: int)
    requires Serial(id, s) && f.request.Update? && f.request.bot.Set? && SameDecision(s.stream, f)
    requires first < second && forall i :: 0 <= i < |s.stream| ==> s.stream[i].version < first
    requires mid.stream == s.stream + [Envelope(id, f.event, first)] && mid.history == s.history + [f.request]
    requires next.stream == mid.stream + [Envelope(id, f.event, second)] && next.history == mid.history + [f.request]
    ensures Serial(id, next) && AccountFold(next.stream).Ok?
  {
    UpdateSerial(id, s, mid, f, first);
    AppendedBelow(s.stream, Envelope(id, f.event, first), second);
    UpdateSerial(id, mid, next, f, second);
  }

  lemma UpdateSerial(id: int, s: State, next: State, f: Inflight, version: int)
    requires Serial(id, s) && f.request.Update? && f.request.bot.Set? && SameDecision(s.stream, f)
    requires forall i :: 0 <= i < |s.stream| ==> s.stream[i].version < version
    requires next.stream == s.stream + [Envelope(id, f.event, version)] && next.history == s.history + [f.request]
    ensures Serial(id, next) && SameDecision(next.stream, f) && AccountFold(next.stream).Ok?
  {
    UpdatedAlike(id, s.stream, f, version);
    SaveExact(id, s, next, f, version);
  }

  lemma UpdatedAlike(id: int, stream: seq<AccountEnvelope>, f: Inflight, version: int)
    requires f.request.Update? && f.request.bot.Set? && SameDecision(stream, f)
    ensures AccountFold(stream + [Envelope(id, f.event, version)]).Ok? && SameDecision(stream + [Envelope(id, f.event, version)], f)
  {
    FoldSnoc(ACCOUNT, None, stream, Envelope(id, f.event, version));
  }
}
