/** The account aggregate: its events, its commands and its state machine. */
module Accounts {
  import opened Kernel

  datatype Status =
    | Active
    | Suspended(reason: string, suspendedAt: int, expiresAt: Option<int>)
    | Banned(reason: string, bannedAt: int)

  /** `deleted` stands for the presence of a deactivation time, which is read from the clock. */
  datatype Account = Account(
    id: int, name: string, isBot: bool, status: Status, deleted: bool, version: int, nanoid: string, createdAt: int)

  datatype Event =
    | Created(name: string, isBot: bool, nanoid: string, authAccountId: int)
    | Updated(isBot: bool)
    | Deactivated
    | Suspended(reason: string, suspendedAt: int, expiresAt: Option<int>)
    | Unsuspended
    | Banned(reason: string, bannedAt: int)
    | Unbanned
    | Reactivated

  type AccountEnvelope = Envelope<Event>

  const EPOCH_MS: int := 1767225600000

  /** The creation time carried by a snowflake id: 41 timestamp bits above 22 machine and sequence bits. */
  function CreatedAt(id: int): int {
    ((id % 0x1_0000_0000_0000_0000) / 0x40_0000) % 0x200_0000_0000 + EPOCH_MS
  }

  /** An id made of a time, in milliseconds after the start of 2026, and 22 further bits tells that time. */
  lemma CreationTimeRead(offset: int, low: int)
    requires 0 <= offset < 0x200_0000_0000 && 0 <= low < 4194304
    ensures CreatedAt(offset * 4194304 + low) == 1767225600000 + offset
  {
    var id := offset * 4194304 + low;
    assert id % 0x1_0000_0000_0000_0000 == id;
    assert id / 4194304 == offset;
  }

  function Apply(entity: Option<Account>, env: AccountEnvelope): Result<Option<Account>> {
    match env.event
    case Created(name, isBot, nanoid, _) =>
      if entity.Some? then Err(Internal)
      else Ok(Some(Account(env.id, name, isBot, Active, false, env.version, nanoid, CreatedAt(env.id))))
    case Updated(isBot) =>
      if entity.None? then Err(Internal)
      else Ok(Some(entity.value.(isBot := isBot, version := env.version)))
    case Deactivated =>
      if entity.None? || entity.value.deleted then Err(Internal)
      else Ok(Some(entity.value.(deleted := true, version := env.version)))
    case Suspended(reason, at, expires) =>
      if entity.None? || !entity.value.status.Active? || entity.value.deleted then Err(Internal)
      else Ok(Some(entity.value.(status := Status.Suspended(reason, at, expires), version := env.version)))
    case Unsuspended =>
      if entity.None? || !entity.value.status.Suspended? then Err(Internal)
      else Ok(Some(entity.value.(status := Active, version := env.version)))
    case Banned(reason, at) =>
      if entity.None? || entity.value.status.Banned? || entity.value.deleted then Err(Internal)
      else Ok(Some(entity.value.(status := Status.Banned(reason, at), version := env.version)))
    case Unbanned =>
      if entity.None? || !entity.value.status.Banned? then Err(Internal)
      else Ok(Some(entity.value.(status := Active, version := env.version)))
    case Reactivated =>
      if entity.None? || !entity.value.deleted then Err(Internal)
      else Ok(Some(entity.value.(deleted := false, version := env.version)))
  }

  const ACCOUNT: Applier<Account, Event> :=
    Applier(Apply, (a: Account) => a.version, (a: Account) => a.deleted, (e: Event) => e.Deactivated?)

  lemma AccountLawful()
    ensures Lawful(ACCOUNT)
  {
  }

  function AccountFold(events: seq<AccountEnvelope>): Result<Option<Account>> {
    Fold(ACCOUNT, None, events)
  }

  predicate SetsBot(e: Event) { e.Created? || e.Updated? }
  predicate SetsStatus(e: Event) { e.Created? || e.Suspended? || e.Unsuspended? || e.Banned? || e.Unbanned? }
  predicate SetsDeleted(e: Event) { e.Created? || e.Deactivated? || e.Reactivated? }

  /** The status an event leaves behind. */
  function StatusAfter(e: Event): Status {
    match e
    case Suspended(reason, at, expires) => Status.Suspended(reason, at, expires)
    case Banned(reason, at) => Status.Banned(reason, at)
    case _ => Active
  }

  function Count(events: seq<AccountEnvelope>, p: Event -> bool): nat {
    if events == [] then 0
    else Count(events[..|events| - 1], p) + if p(events[|events| - 1].event) then 1 else 0
  }

  predicate IsDeactivated(e: Event) { e.Deactivated? }
  predicate IsReactivated(e: Event) { e.Reactivated? }

  /** What the first event fixes for good, and what the last event stamps. */
  ghost predicate OriginFixed(events: seq<AccountEnvelope>, acc: Account) {
    && events != []
    && events[0].event.Created?
    && (forall i :: 0 < i < |events| ==> !events[i].event.Created?)
    && acc.id == events[0].id
    && acc.name == events[0].event.name
    && acc.nanoid == events[0].event.nanoid
    && acc.createdAt == CreatedAt(events[0].id)
    && acc.version == events[|events| - 1].version
  }

  ghost predicate BotFixed(events: seq<AccountEnvelope>, acc: Account) {
    exists i :: LastAt(events, SetsBot, i) && acc.isBot == events[i].event.isBot
  }

  ghost predicate StatusFixed(events: seq<AccountEnvelope>, acc: Account) {
    exists i :: LastAt(events, SetsStatus, i) && acc.status == StatusAfter(events[i].event)
  }

  ghost predicate DeletedFixed(events: seq<AccountEnvelope>, acc: Account) {
    && (exists i :: LastAt(events, SetsDeleted, i) && acc.deleted == events[i].event.Deactivated?)
    && Count(events, IsDeactivated) == Count(events, IsReactivated) + if acc.deleted then 1 else 0
  }

  /** Which event of an accepted stream determined each part of the account. */
  ghost predicate Decomposes(events: seq<AccountEnvelope>, acc: Account) {
    OriginFixed(events, acc) && BotFixed(events, acc) && StatusFixed(events, acc) && DeletedFixed(events, acc)
  }

  lemma CountSnoc(init: seq<AccountEnvelope>, env: AccountEnvelope, p: Event -> bool)
    ensures Count(init + [env], p) == Count(init, p) + if p(env.event) then 1 else 0
  {
  }

  lemma BotSnoc(init: seq<AccountEnvelope>, acc: Account, env: AccountEnvelope, next: Account)
    requires BotFixed(init, acc) && Apply(Some(acc), env) == Ok(Some(next))
    ensures BotFixed(init + [env], next)
  {
    var i :| LastAt(init, SetsBot, i) && acc.isBot == init[i].event.isBot;
    LastAtSnoc(init, env, SetsBot, i);
  }

  lemma StatusSnoc(init: seq<AccountEnvelope>, acc: Account, env: AccountEnvelope, next: Account)
    requires StatusFixed(init, acc) && Apply(Some(acc), env) == Ok(Some(next))
    ensures StatusFixed(init + [env], next)
  {
    var i :| LastAt(init, SetsStatus, i) && acc.status == StatusAfter(init[i].event);
    LastAtSnoc(init, env, SetsStatus, i);
  }

  lemma DeletedSnoc(init: seq<AccountEnvelope>, acc: Account, env: AccountEnvelope, next: Account)
    requires DeletedFixed(init, acc) && Apply(Some(acc), env) == Ok(Some(next))
    ensures DeletedFixed(init + [env], next)
  {
    var i :| LastAt(init, SetsDeleted, i) && acc.deleted == init[i].event.Deactivated?;
    LastAtSnoc(init, env, SetsDeleted, i);
    CountSnoc(init, env, IsDeactivated);
    CountSnoc(init, env, IsReactivated);
  }

  lemma OriginSnoc(init: seq<AccountEnvelope>, acc: Account, env: AccountEnvelope, next: Account)
    requires OriginFixed(init, acc) && Apply(Some(acc), env) == Ok(Some(next))
    ensures OriginFixed(init + [env], next)
  {
  }

  /** Every accepted account stream decomposes: each part of the account is fixed by one identifiable event. */
  lemma {:induction false} FoldDecomposition(events: seq<AccountEnvelope>)
    requires events != [] && AccountFold(events).Ok?
    ensures AccountFold(events).value.Some?
    ensures Decomposes(events, AccountFold(events).value.value)
  {
    var n := |events| - 1;
    var init, env := events[..n], events[n];
    assert events == init + [env];
    FoldSnoc(ACCOUNT, None, init, env);
    if n == 0 {
      assert init == [];
      assert LastAt(events, SetsBot, 0) && LastAt(events, SetsStatus, 0) && LastAt(events, SetsDeleted, 0);
      CountSnoc([], env, IsDeactivated);
      CountSnoc([], env, IsReactivated);
    } else {
      FoldDecomposition(init);
      var acc, next := AccountFold(init).value.value, AccountFold(events).value.value;
      OriginSnoc(init, acc, env, next);
      BotSnoc(init, acc, env, next);
      StatusSnoc(init, acc, env, next);
      DeletedSnoc(init, acc, env, next);
    }
  }

  predicate IsSuspension(e: Event) { e.Suspended? }
  predicate IsBan(e: Event) { e.Banned? }
  predicate LeavesActive(e: Event) { e.Created? || e.Unsuspended? || e.Unbanned? }

  /** The event may follow this non-empty stream, judged by the last moderation and the last (de)activation in it. */
  ghost predicate MayFollow(events: seq<AccountEnvelope>, e: Event) {
    var gone := LastIs(events, SetsDeleted, IsDeactivated);
    match e
    case Created(_, _, _, _) => false
    case Updated(_) => true
    case Deactivated => !gone
    case Reactivated => gone
    case Suspended(_, _, _) => LastIs(events, SetsStatus, LeavesActive) && !gone
    case Unsuspended => LastIs(events, SetsStatus, IsSuspension)
    case Banned(_, _) => !LastIs(events, SetsStatus, IsBan) && !gone
    case Unbanned => LastIs(events, SetsStatus, IsBan)
  }

  /** A creation, and then only events that may follow. */
  ghost predicate WellFormed(events: seq<AccountEnvelope>) {
    forall i :: 0 <= i < |events| ==> if i == 0 then events[0].event.Created? else MayFollow(events[..i], events[i].event)
  }

  lemma WellFormedSnoc(init: seq<AccountEnvelope>, env: AccountEnvelope)
    ensures WellFormed(init + [env]) <==> WellFormed(init) && if init == [] then env.event.Created? else MayFollow(init, env.event)
  {
    var all := init + [env];
    assert all[..|init|] == init && all[|init|] == env;
    assert forall i :: 0 <= i < |init| ==> all[..i] == init[..i] && all[i] == init[i];
  }

  /** What an account accepts next is what may follow its stream. */
  lemma AppliesWhenFollowing(events: seq<AccountEnvelope>, acc: Account, env: AccountEnvelope)
    requires Decomposes(events, acc)
    ensures Apply(Some(acc), env).Ok? <==> MayFollow(events, env.event)
  {
    var i :| LastAt(events, SetsStatus, i) && acc.status == StatusAfter(events[i].event);
    var j :| LastAt(events, SetsDeleted, j) && acc.deleted == events[j].event.Deactivated?;
    LastIsAt(events, SetsStatus, LeavesActive, i);
    LastIsAt(events, SetsStatus, IsSuspension, i);
    LastIsAt(events, SetsStatus, IsBan, i);
    LastIsAt(events, SetsDeleted, IsDeactivated, j);
  }

  /** Exactly the well-formed account streams replay. */
  lemma {:induction false} ReplaysWhenWellFormed(events: seq<AccountEnvelope>)
    ensures AccountFold(events).Ok? <==> WellFormed(events)
  {
    if events != [] {
      var n := |events| - 1;
      var init, env := events[..n], events[n];
      assert events == init + [env];
      ReplaysWhenWellFormed(init);
      WellFormedSnoc(init, env);
      FoldSnoc(ACCOUNT, None, init, env);
      if n > 0 && AccountFold(init).Ok? {
        FoldDecomposition(init);
        AppliesWhenFollowing(init, AccountFold(init).value.value, env);
      }
    }
  }
}
