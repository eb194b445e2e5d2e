/** When every projector has reached the tail of its log, and that polling gets there. */
module Quiescence {
  import opened Kernel
  import opened EventLog
  import opened RowProjection
  import opened Accounts
  import opened Profiles
  import opened Metadatas
  import opened ChildProjector
  import opened AccountProjector
  import opened AccountRows
  import opened ReadModelStore
  import opened Views
  import opened Pipeline
  import opened Convergence

  // ---------- rows that are up to date ----------

  ghost predicate AtTail<Ev>(log: seq<SeqEvent<Ev>>, checkpoint: Option<int>) {
    log != [] ==> checkpoint == Some(log[|log| - 1].seqNo)
  }

  /** The row is what the aggregate's whole stream folds to. */
  ghost predicate UpToDate<E, Ev>(a: Applier<E, Ev>, id: int, v: View<E, Ev>) {
    SoundView(v) && Orderly(a, Of(v.log, id)) && Fold(a, None, Stream(v.log, id)) == Ok(v.row)
  }

  lemma UpToDateKeepsUp<E(!new), Ev(!new)>(a: Applier<E, Ev>, id: int, v: View<E, Ev>)
    requires Lawful(a) && UpToDate(a, id, v) && AtTail(v.log, v.checkpoint)
    ensures KeepsUp(a, id, v, 0)
  {
    var rows := Of(v.log, id);
    if v.log != [] {
      OfAtMost(v.log, id, v.log[|v.log| - 1].seqNo);
      assert rows[..|rows|] == rows;
      CoveringTracks(a, v.row, rows, |rows|, Position(v.checkpoint), Limit(v, 0), |rows|);
    }
  }

  /** At the tail, a poll of an up-to-date row changes nothing. */
  lemma QuietRow<E(!new), Ev(!new)>(a: Applier<E, Ev>, id: int, v: View<E, Ev>)
    requires Lawful(a) && UpToDate(a, id, v) && AtTail(v.log, v.checkpoint)
    ensures Polled(a, id, v) == v
  {
    if v.log == [] {
      assert Window(v.log, Position(v.checkpoint)) == [] && Stream(v.log, id) == [];
    } else {
      UpToDateKeepsUp(a, id, v);
      SettlesOnce(a, id, v, 0);
      StaysAtTail(v.log, v.checkpoint);
      CaughtAtTail(a, id, Polled(a, id, v), 0);
    }
  }

  lemma {:induction false} NewerNone<Ev>(version: int, events: seq<Envelope<Ev>>)
    requires forall i :: 0 <= i < |events| ==> events[i].version <= version
    ensures NewerThan(version, events) == []
  {
    if events != [] { NewerNone(version, events[1..]); }
  }

  /** Nothing is pending for a visible row that is up to date, wherever the checkpoint stands. */
  lemma NothingPending<E(!new), Ev(!new)>(a: Applier<E, Ev>, id: int, v: View<E, Ev>)
    requires Lawful(a) && UpToDate(a, id, v) && v.row.Some?
    ensures Pending(a, v.row, SortByVersion(Stream(Window(v.log, Position(v.checkpoint)), id))) == []
  {
    var sorted := SortByVersion(Stream(Window(v.log, Position(v.checkpoint)), id));
    var rows := Of(v.log, id);
    assert rows != [];
    FoldLastRow(a, rows, v.row);
    forall i | 0 <= i < |sorted| ensures sorted[i].version <= a.version(v.row.value) {
      var n := SortedIndex(v.log, Position(v.checkpoint), id, i);
      OfMembers(v.log, id);
      assert v.log[n] in rows;
      var k :| 0 <= k < |rows| && rows[k] == v.log[n];
      assert Envelopes(rows)[k] == rows[k].envelope && Envelopes(rows)[|rows| - 1] == rows[|rows| - 1].envelope;
    }
    NewerNone(a.version(v.row.value), sorted);
  }

  lemma UpToDateReadsTrue(s: State, a: int, now: int)
    requires UpToDate(ACCOUNT, a, AccountView(s, a))
    ensures AccountReadsTrue(s, a, now)
  {
    AccountLawful();
    if Get(s.tables.accounts, a).Some? { NothingPending(ACCOUNT, a, AccountView(s, a)); }
  }

  // ---------- children of deactivated accounts ----------

  /** The child is absent, and every account that its creation names is deactivated. */
  ghost predicate Orphaned<E, Ev>(c: Child<E, Ev>, log: seq<SeqEvent<Ev>>, rows: map<int, E>, accounts: map<int, Account>, id: int) {
    id !in rows && forall parent :: NamedParent(c, log, id, parent) ==> IsDeleted(accounts, parent)
  }

  /** A child poll that is not blind leaves such a child absent. */
  lemma OrphanStaysAbsent<E(!new), Ev(!new)>(c: Child<E, Ev>, log: seq<SeqEvent<Ev>>, checkpoint: Option<int>, rows: map<int, E>,
                                             accounts: map<int, Account>, faults: Faults, id: int)
    requires ParentLawful(c) && OneOwner(c, log) && Orphaned(c, log, rows, accounts, id)
    requires NoneBlind(c, log, checkpoint, rows, accounts, faults)
    ensures Orphaned(c, log, PolledTable(c, log, checkpoint, rows, accounts, faults), accounts, id)
  {
    var at := Position(checkpoint);
    assert Get(PolledTable(c, log, checkpoint, rows, accounts, faults), id) == ChildEntry(c, Window(log, at), rows, accounts, faults, id);
    FreshOrphan(c, log, at, rows, accounts, faults, id);
    WrittenParent(c, log, at, id, None);
  }

  /** A child is quiet if it is up to date, or absent under deactivated accounts. */
  ghost predicate ChildQuiet<E, Ev>(c: Child<E, Ev>, log: seq<SeqEvent<Ev>>, checkpoint: Option<int>, rows: map<int, E>, accounts: map<int, Account>, id: int) {
    UpToDate(c.applier, id, View(log, checkpoint, Get(rows, id))) || Orphaned(c, log, rows, accounts, id)
  }

  lemma QuietChildPoll<E(!new), Ev(!new)>(c: Child<E, Ev>, log: seq<SeqEvent<Ev>>, checkpoint: Option<int>, rows: map<int, E>, accounts: map<int, Account>, faults: Faults)
    requires Lawful(c.applier) && AlwaysSeen(c.applier) && ParentLawful(c) && OneOwner(c, log)
    requires AtTail(log, checkpoint) && NoneBlind(c, log, checkpoint, rows, accounts, faults)
    requires forall id :: ChildQuiet(c, log, checkpoint, rows, accounts, id)
    ensures PolledTable(c, log, checkpoint, rows, accounts, faults) == rows
  {
    var next := PolledTable(c, log, checkpoint, rows, accounts, faults);
    forall id ensures Get(next, id) == Get(rows, id) {
      assert ChildQuiet(c, log, checkpoint, rows, accounts, id);
      if UpToDate(c.applier, id, View(log, checkpoint, Get(rows, id))) {
        QuietRow(c.applier, id, View(log, checkpoint, Get(rows, id)));
        ChildPollCases(c, log, checkpoint, rows, accounts, faults, id);
      } else {
        OrphanStaysAbsent(c, log, checkpoint, rows, accounts, faults, id);
      }
    }
    SameRows(next, rows);
  }

  lemma QuietCheckpoint<Ev>(log: seq<SeqEvent<Ev>>, checkpoint: Option<int>)
    requires ValidLog(log) && AtTail(log, checkpoint)
    ensures PolledCheckpoint(log, checkpoint) == checkpoint
  {
    if log == [] { assert Window(log, Position(checkpoint)) == []; } else { StaysAtTail(log, checkpoint); }
  }

  // ---------- account polls ----------

  /** A group that deactivates its account leaves a deactivated row, whatever the row was. */
  lemma DeactivationLands(row: Option<Account>, sorted: seq<AccountEnvelope>, now: int)
    requires Outcome(row, sorted, now).Deactivation?
    ensures var next := RowAfter(row, Outcome(row, sorted, now)); next.Some? && next.value.deleted
  {
    var existing := Unfiltered(row, now);
    var pending := Pending(ACCOUNT, existing, sorted);
    if existing.Some? {
      assert pending != [];
      FoldVersion(existing, pending);
      NewerAbove(ACCOUNT.version(existing.value), sorted, |pending| - 1);
    }
  }

  /** Every account that a poll deactivates ends up deactivated. */
  lemma DeactivatingAreDeleted(t: Tables, batch: seq<SeqEvent<Accounts.Event>>, ids: set<int>, now: int, a: int)
    requires a in Deactivating(Plan(t, batch, ids, now))
    ensures IsDeleted(AfterPlan(t, Plan(t, batch, ids, now)).accounts, a)
  {
    var plan := Plan(t, batch, ids, now);
    assert plan[a] == GroupOf(t, batch, a, now);
    DeactivationLands(Get(t.accounts, a), SortByVersion(Stream(batch, a)), now);
    assert Get(AfterPlan(t, plan).accounts, a) == RowAfter(Get(t.accounts, a), plan[a]);
  }

  /** Cascading accounts that are already deactivated removes no child. */
  lemma NothingCascades(t: Tables, gone: set<int>)
    requires CascadeComplete(t) && forall a :: a in gone ==> IsDeleted(t.accounts, a)
    ensures ProfilesWithout(t.profiles, gone) == t.profiles && MetadataWithout(t.metadata, gone) == t.metadata
  {
    forall p | p in t.profiles ensures t.profiles[p].accountId !in gone {
      assert PROFILE_CHILD.parent(t.profiles[p]) == t.profiles[p].accountId;
    }
    forall m | m in t.metadata ensures t.metadata[m].accountId !in gone {
      assert METADATA_CHILD.parent(t.metadata[m]) == t.metadata[m].accountId;
    }
  }

  lemma QuietAccountRow(s: State, failed: set<int>, now: int, a: int)
    requires AtTail(s.accountLog, s.accountCheckpoint) && UpToDate(ACCOUNT, a, AccountView(s, a))
    ensures Get(PolledTables(s.tables, s.accountLog, s.accountCheckpoint, failed, now).accounts, a) == Get(s.tables.accounts, a)
  {
    AccountLawful();
    QuietRow(ACCOUNT, a, AccountView(s, a));
    UpToDateReadsTrue(s, a, now);
    AccountRowPolled(s.tables, s.accountLog, s.accountCheckpoint, failed, now, a);
  }

  lemma QuietAccountPoll(s: State, failed: set<int>, now: int)
    requires AtTail(s.accountLog, s.accountCheckpoint) && CascadeComplete(s.tables) && forall a :: UpToDate(ACCOUNT, a, AccountView(s, a))
    ensures var t, after := s.tables, PolledTables(s.tables, s.accountLog, s.accountCheckpoint, failed, now);
            after.accounts == t.accounts && after.profiles == t.profiles && after.metadata == t.metadata
  {
    var t, after := s.tables, PolledTables(s.tables, s.accountLog, s.accountCheckpoint, failed, now);
    forall a ensures Get(after.accounts, a) == Get(t.accounts, a) { QuietAccountRow(s, failed, now, a); }
    SameRows(after.accounts, t.accounts);
    var batch := Window(s.accountLog, Position(s.accountCheckpoint));
    var plan := Plan(t, batch, Ids(batch) - failed, now);
    forall a | a in Deactivating(plan) ensures IsDeleted(t.accounts, a) {
      DeactivatingAreDeleted(t, batch, Ids(batch) - failed, now, a);
    }
    NothingCascades(t, Deactivating(plan));
  }

  // ---------- quiet pipelines ----------

  /**
   Every projector is at the tail of its log, every account is up to date, and every child is up to date or
   absent under deactivated accounts.
   */
  ghost predicate Quiet(s: State) {
    && Sound(s) && Ownership(s) && CascadeComplete(s.tables)
    && AtTail(s.accountLog, s.accountCheckpoint) && AtTail(s.profileLog, s.profileCheckpoint) && AtTail(s.metadataLog, s.metadataCheckpoint)
    && (forall a :: UpToDate(ACCOUNT, a, AccountView(s, a)))
    && (forall p :: ChildQuiet(PROFILE_CHILD, s.profileLog, s.profileCheckpoint, s.tables.profiles, s.tables.accounts, p))
    && (forall m :: ChildQuiet(METADATA_CHILD, s.metadataLog, s.metadataCheckpoint, s.tables.metadata, s.tables.accounts, m))
  }

  predicate IsPoll(action: Action) {
    action.PollAccounts? || action.PollProfiles? || action.PollMetadata?
  }

  /**
   Polling a quiet pipeline changes no checkpoint and no account, profile or metadata row, even if writes
   fail, and even if lookups fail on groups that they would not have to stop.
   */
  lemma QuietPoll(s: State, action: Action)
    requires Quiet(s) && IsPoll(action) && LookupsWork(s, action)
    ensures var next := Step(s, action);
            next == s.(tables := s.tables.(follows := next.tables.follows, links := next.tables.links))
  {
    match action
    case PollAccounts(failed, now) =>
      QuietCheckpoint(s.accountLog, s.accountCheckpoint);
      QuietAccountPoll(s, failed, now);
    case PollProfiles(faults) =>
      ProfileLawful();
      ProfileParentLawful();
      QuietCheckpoint(s.profileLog, s.profileCheckpoint);
      QuietChildPoll(PROFILE_CHILD, s.profileLog, s.profileCheckpoint, s.tables.profiles, s.tables.accounts, faults);
    case PollMetadata(faults) =>
      MetadataLawful();
      MetadataParentLawful();
      QuietCheckpoint(s.metadataLog, s.metadataCheckpoint);
      QuietChildPoll(METADATA_CHILD, s.metadataLog, s.metadataCheckpoint, s.tables.metadata, s.tables.accounts, faults);
  }

  // ---------- after one clean account poll nothing moves at all ----------

  /** For a row with nothing pending, what kind of write its group makes does not depend on the time. */
  lemma SameKind(row: Option<Account>, sorted: seq<AccountEnvelope>, now: int, later: int)
    requires row.Some? && !row.value.deleted ==> Pending(ACCOUNT, row, sorted) == []
    ensures var p, q := Outcome(row, sorted, now), Outcome(row, sorted, later);
            p.Deactivation? == q.Deactivation? && p.Live? == q.Live? && (p.Live? ==> p.auth == q.auth)
  {
    if row.Some? && !row.value.deleted {
      assert Pending(ACCOUNT, Unfiltered(row, now), sorted) == [] && Pending(ACCOUNT, Unfiltered(row, later), sorted) == [];
    } else {
      assert Unfiltered(row, now) == Unfiltered(row, later);
    }
  }

  /** Writes that change no row, no link and no deactivation beyond a plan repeat it without effect. */
  lemma PlanRepeats(t: Tables, plan: map<int, GroupWrite>, again: map<int, GroupWrite>)
    requires AccountsAfter(AfterPlan(t, plan).accounts, again) == AfterPlan(t, plan).accounts
    requires Deactivating(again) <= Deactivating(plan) && LinksAdded(again) <= LinksAdded(plan)
    ensures AfterPlan(AfterPlan(t, plan), again) == AfterPlan(t, plan)
  {
    var u := AfterPlan(t, plan);
    assert u.links + LinksAdded(again) == u.links;
    CascadeRepeats(t.(accounts := u.accounts, links := u.links), Deactivating(plan), Deactivating(again));
  }

  lemma CascadeRepeats(t: Tables, gone: set<int>, again: set<int>)
    requires again <= gone
    ensures Cascaded(Cascaded(t, gone), again) == Cascaded(t, gone)
  {
    var u := Cascaded(t, gone);
    assert ProfilesWithout(u.profiles, again) == u.profiles;
    assert MetadataWithout(u.metadata, again) == u.metadata;
    assert FollowsWithout(u.follows, again) == u.follows;
  }

  lemma PlanWithin(t: Tables, u: Tables, batch: seq<SeqEvent<Accounts.Event>>, ids: set<int>, now: int, some: set<int>, later: int)
    requires t.accounts == u.accounts && some <= ids
    requires forall a :: a in ids && a in t.accounts && !t.accounts[a].deleted ==> Pending(ACCOUNT, Get(t.accounts, a), SortByVersion(Stream(batch, a))) == []
    ensures Deactivating(Plan(u, batch, some, later)) <= Deactivating(Plan(t, batch, ids, now))
    ensures LinksAdded(Plan(u, batch, some, later)) <= LinksAdded(Plan(t, batch, ids, now))
  {
    var plan, again := Plan(t, batch, ids, now), Plan(u, batch, some, later);
    forall a | a in again
      ensures a in plan && again[a].Deactivation? == plan[a].Deactivation? && again[a].Live? == plan[a].Live? && (again[a].Live? ==> again[a].auth == plan[a].auth)
    {
      SameKind(Get(t.accounts, a), SortByVersion(Stream(batch, a)), now, later);
    }
    forall l | l in LinksAdded(again) ensures l in LinksAdded(plan) {
      LinksAddedHas(again, l);
      LinksAddedHas(plan, l);
    }
  }

  lemma QuietStays(s: State, next: State)
    requires Quiet(s) && next == s.(tables := s.tables.(follows := next.tables.follows, links := next.tables.links))
    ensures Quiet(next)
  {
    forall a ensures UpToDate(ACCOUNT, a, AccountView(next, a)) { assert UpToDate(ACCOUNT, a, AccountView(s, a)); }
  }

  lemma AccountPollRepeats(s: State, now: int, failed: set<int>, later: int)
    requires Quiet(s)
    ensures var once := Step(s, PollAccounts({}, now)); Step(once, PollAccounts(failed, later)).tables == once.tables
  {
    var once := Step(s, PollAccounts({}, now));
    QuietPoll(s, PollAccounts({}, now));
    QuietStays(s, once);
    QuietAccountPoll(once, failed, later);
    var batch := Window(s.accountLog, Position(s.accountCheckpoint));
    forall a | a in s.tables.accounts ensures Pending(ACCOUNT, Get(s.tables.accounts, a), SortByVersion(Stream(batch, a))) == [] {
      AccountLawful();
      assert UpToDate(ACCOUNT, a, AccountView(s, a));
      NothingPending(ACCOUNT, a, AccountView(s, a));
    }
    PlanWithin(s.tables, once.tables, batch, Ids(batch) - {}, now, Ids(batch) - failed, later);
    PlanRepeats(s.tables, Plan(s.tables, batch, Ids(batch) - {}, now), Plan(once.tables, batch, Ids(batch) - failed, later));
  }

  /**
   Quiescence of the whole pipeline: after one account poll without failures, no poll of any projector
   changes anything at all, follows and links included, whatever writes fail in it.
   */
  lemma SettledPoll(s: State, now: int, action: Action)
    requires Quiet(s) && IsPoll(action) && LookupsWork(Step(s, PollAccounts({}, now)), action)
    ensures var once := Step(s, PollAccounts({}, now)); Step(once, action) == once
  {
    var once := Step(s, PollAccounts({}, now));
    QuietPoll(s, PollAccounts({}, now));
    QuietStays(s, once);
    QuietPoll(once, action);
    if action.PollAccounts? { AccountPollRepeats(s, now, action.failed, action.now); }
  }

  // ---------- polling gets there ----------

  const NO_FAULTS: Faults := Faults({}, {})

  /** The row keeps up with a stream that replays; once polled it covers at least what its checkpoint covers. */
  ghost predicate Settling<E, Ev>(a: Applier<E, Ev>, id: int, v: View<E, Ev>, polled: bool) {
    && Fold(a, None, Stream(v.log, id)).Ok?
    && exists reach :: KeepsUp(a, id, v, reach) && (polled ==> Caught(a, id, v, reach))
  }

  lemma SettlingPolls<E(!new), Ev(!new)>(a: Applier<E, Ev>, id: int, v: View<E, Ev>, polled: bool)
    requires Lawful(a) && Settling(a, id, v, polled)
    ensures Settling(a, id, Polled(a, id, v), true)
  {
    var reach :| KeepsUp(a, id, v, reach);
    SettlesOnce(a, id, v, reach);
  }

  /** At the tail a polled row is up to date, and on an empty log any row is. */
  lemma SettledUpToDate<E(!new), Ev(!new)>(a: Applier<E, Ev>, id: int, v: View<E, Ev>, polled: bool)
    requires Settling(a, id, v, polled) && AtTail(v.log, v.checkpoint) && (v.log != [] ==> polled)
    ensures UpToDate(a, id, v)
  {
    var reach :| KeepsUp(a, id, v, reach) && (polled ==> Caught(a, id, v, reach));
    if v.log != [] {
      CaughtAtTail(a, id, v, reach);
    } else {
      assert Of(v.log, id) == [] && Stream(v.log, id) == [];
    }
  }

  /** No suspension committed for the account has lapsed by this time. */
  ghost predicate NoLapse(log: seq<SeqEvent<Accounts.Event>>, a: int, now: int) {
    forall i :: 0 <= i < |log| && log[i].envelope.id == a && log[i].envelope.event.Suspended? && log[i].envelope.event.expiresAt.Some? ==>
      log[i].envelope.event.expiresAt.value > now
  }

  ghost predicate AccountReady(a: int, v: View<Account, Accounts.Event>, until: int, polled: bool) {
    Settling(ACCOUNT, a, v, polled) && (NoLapse(v.log, a, until) || UpToDate(ACCOUNT, a, v))
  }

  ghost predicate ChildReady<E, Ev>(c: Child<E, Ev>, log: seq<SeqEvent<Ev>>, checkpoint: Option<int>, rows: map<int, E>, accounts: map<int, Account>, id: int, polled: bool) {
    Settling(c.applier, id, View(log, checkpoint, Get(rows, id)), polled) || Orphaned(c, log, rows, accounts, id)
  }

  ghost predicate ChildrenReady<E(!new), Ev>(c: Child<E, Ev>, log: seq<SeqEvent<Ev>>, checkpoint: Option<int>, rows: map<int, E>, accounts: map<int, Account>, polled: bool) {
    forall id :: ChildReady(c, log, checkpoint, rows, accounts, id, polled)
  }

  /** Which projectors have polled at least once. */
  datatype Polled3 = Polled3(accounts: bool, profiles: bool, metadata: bool)

  ghost predicate Ready(s: State, until: int, polled: Polled3) {
    && Sound(s) && Ownership(s) && CascadeInvariant(s)
    && (forall a :: AccountReady(a, AccountView(s, a), until, polled.accounts))
    && ChildrenReady(PROFILE_CHILD, s.profileLog, s.profileCheckpoint, s.tables.profiles, s.tables.accounts, polled.profiles)
    && ChildrenReady(METADATA_CHILD, s.metadataLog, s.metadataCheckpoint, s.tables.metadata, s.tables.accounts, polled.metadata)
  }

  /**
   A state from which polling settles: every account keeps up with a stream that replays and is not behind
   on a suspension that lapses by then, and every child keeps up or is absent under deactivated accounts.
   */
  ghost predicate Settleable(s: State, until: int) {
    Ready(s, until, Polled3(false, false, false))
  }

  lemma TrackedNotExpired(a: int, v: View<Account, Accounts.Event>, reach: int, now: int)
    requires KeepsUp(ACCOUNT, a, v, reach) && NoLapse(v.log, a, now)
    ensures NotExpired(v.row, now)
  {
    var rows := Of(v.log, a);
    if v.row.Some? && !v.row.value.deleted && v.row.value.status.Suspended? {
      AccountLawful();
      if Closed(ACCOUNT, v.row, rows, Limit(v, reach)) { FoldLastRow(ACCOUNT, rows, v.row); }
      var k :| Reflects(ACCOUNT, v.row, rows, Position(v.checkpoint), Limit(v, reach), k);
      var envs := Envelopes(rows[..k]);
      FoldDecomposition(envs);
      var i :| LastAt(envs, SetsStatus, i) && v.row.value.status == StatusAfter(envs[i].event);
      var n := OfAt(v.log, a, i);
      assert v.log[n].envelope.event == envs[i].event;
    }
  }

  /** A poll keeps a row that shows a terminal event, as a deactivated account does. */
  lemma ClosedPollKeeps<E(!new), Ev(!new)>(a: Applier<E, Ev>, id: int, v: View<E, Ev>, reach: int)
    requires Lawful(a) && SoundView(v) && Orderly(a, Of(v.log, id)) && v.row.Some? && Closed(a, v.row, Of(v.log, id), reach)
    ensures Polled(a, id, v).row == v.row
  {
    var c := Position(v.checkpoint);
    EndIsVisible(v.log, v.checkpoint);
    var before, batch, rest := CutLog(v.log, id, c);
    BatchSorted(a, before, batch, rest);
    if rest == [] {
      assert before + batch + rest == before + batch;
      ClosedRefold(a, before, batch, v.row, reach);
    } else {
      ClosedAhead(a, v.row, before, batch, rest, reach);
    }
  }

  lemma HiddenStays(a: int, v: View<Account, Accounts.Event>, reach: int)
    requires KeepsUp(ACCOUNT, a, v, reach) && v.row.Some? && v.row.value.deleted
    ensures Polled(ACCOUNT, a, v).row == v.row
  {
    AccountLawful();
    ClosedPollKeeps(ACCOUNT, a, v, Limit(v, reach));
  }

  /** An account that is up to date stays as it is, wherever the checkpoint stands. */
  lemma UpToDateStays(a: int, v: View<Account, Accounts.Event>)
    requires UpToDate(ACCOUNT, a, v)
    ensures UpToDate(ACCOUNT, a, Polled(ACCOUNT, a, v)) && Polled(ACCOUNT, a, v).row == v.row
  {
    var rows := Of(v.log, a);
    AccountLawful();
    CheckpointAdvances(v.log, v.checkpoint);
    if v.row.None? {
      if Stream(v.log, a) != [] { AccountFoldSome(None, Stream(v.log, a)); }
      NothingRead(v.log, v.checkpoint, a);
    } else if v.row.value.deleted {
      FoldLastRow(ACCOUNT, rows, v.row);
      ClosedPollKeeps(ACCOUNT, a, v, rows[|rows| - 1].seqNo);
    } else {
      NothingPending(ACCOUNT, a, v);
    }
  }

  lemma NothingRead<Ev>(log: seq<SeqEvent<Ev>>, checkpoint: Option<int>, id: int)
    requires Of(log, id) == []
    ensures SortByVersion(Stream(Window(log, Position(checkpoint)), id)) == []
  {
    OfSplit(log, id, First(log, Position(checkpoint)), End(log, Position(checkpoint)));
  }

  lemma ReadyReadsTrue(s: State, a: int, now: int, until: int, polled: bool)
    requires AccountReady(a, AccountView(s, a), until, polled) && now <= until
    ensures AccountReadsTrue(s, a, now)
  {
    if UpToDate(ACCOUNT, a, AccountView(s, a)) {
      UpToDateReadsTrue(s, a, now);
    } else {
      var reach :| KeepsUp(ACCOUNT, a, AccountView(s, a), reach);
      TrackedNotExpired(a, AccountView(s, a), reach, now);
    }
  }

  /** A poll leaves a ready account ready, and a deactivated one deactivated. */
  lemma ReadyStaysReady(a: int, v: View<Account, Accounts.Event>, until: int, polled: bool)
    requires AccountReady(a, v, until, polled)
    ensures AccountReady(a, Polled(ACCOUNT, a, v), until, true)
    ensures v.row.Some? && v.row.value.deleted ==> Polled(ACCOUNT, a, v).row == v.row
  {
    AccountLawful();
    SettlingPolls(ACCOUNT, a, v, polled);
    if UpToDate(ACCOUNT, a, v) { UpToDateStays(a, v); }
    if v.row.Some? && v.row.value.deleted {
      var reach :| KeepsUp(ACCOUNT, a, v, reach);
      HiddenStays(a, v, reach);
    }
  }

  lemma AccountMovesOn(s: State, now: int, a: int, until: int, polled: bool)
    requires AccountReady(a, AccountView(s, a), until, polled) && now <= until
    ensures var next := Step(s, PollAccounts({}, now));
            && AccountReady(a, AccountView(next, a), until, true)
            && (IsDeleted(s.tables.accounts, a) ==> IsDeleted(next.tables.accounts, a))
  {
    ReadyReadsTrue(s, a, now, until, polled);
    AccountPolls(s, {}, now, a);
    ReadyStaysReady(a, AccountView(s, a), until, polled);
    var next := Step(s, PollAccounts({}, now));
    assert AccountView(next, a) == Polled(ACCOUNT, a, AccountView(s, a));
    if IsDeleted(s.tables.accounts, a) { assert Get(next.tables.accounts, a) == Get(s.tables.accounts, a); }
  }

  /** A child row that an account poll removes belonged to an account that the poll deactivated. */
  lemma RemovedWithAccount(t: Tables, batch: seq<SeqEvent<Accounts.Event>>, ids: set<int>, now: int, id: int)
    ensures var after := AfterPlan(t, Plan(t, batch, ids, now));
            && (Get(after.profiles, id) == Get(t.profiles, id) || (id in t.profiles && id !in after.profiles && IsDeleted(after.accounts, t.profiles[id].accountId)))
            && (Get(after.metadata, id) == Get(t.metadata, id) || (id in t.metadata && id !in after.metadata && IsDeleted(after.accounts, t.metadata[id].accountId)))
  {
    var plan := Plan(t, batch, ids, now);
    forall a | a in Deactivating(plan) ensures IsDeleted(AfterPlan(t, plan).accounts, a) {
      DeactivatingAreDeleted(t, batch, ids, now, a);
    }
  }

  /** An account poll leaves every child ready: kept, or removed together with the deactivation of its account. */
  lemma ChildrenStayReady<E(!new), Ev(!new)>(c: Child<E, Ev>, log: seq<SeqEvent<Ev>>, checkpoint: Option<int>, rows: map<int, E>, after: map<int, E>,
                                             accounts: map<int, Account>, later: map<int, Account>, polled: bool)
    requires OneOwner(c, log) && Owned(c, log, rows) && ChildrenReady(c, log, checkpoint, rows, accounts, polled)
    requires forall a :: IsDeleted(accounts, a) ==> IsDeleted(later, a)
    requires forall id :: Get(after, id) == Get(rows, id) || (id in rows && id !in after && IsDeleted(later, c.parent(rows[id])))
    ensures ChildrenReady(c, log, checkpoint, after, later, polled)
  {
    forall id ensures ChildReady(c, log, checkpoint, after, later, id, polled) {
      assert ChildReady(c, log, checkpoint, rows, accounts, id, polled);
      if Get(after, id) != Get(rows, id) {
        forall parent | NamedParent(c, log, id, parent) ensures IsDeleted(later, parent) {
          SameParent(c, log, id, parent, c.parent(rows[id]));
        }
      }
    }
  }

  lemma AccountPollReady(s: State, now: int, until: int, polled: Polled3)
    requires Ready(s, until, polled) && now <= until
    ensures Ready(Step(s, PollAccounts({}, now)), until, polled.(accounts := true))
  {
    var t, next := s.tables, Step(s, PollAccounts({}, now));
    StepKeepsSound(s, PollAccounts({}, now));
    StepKeepsCascade(s, PollAccounts({}, now));
    forall a ensures AccountReady(a, AccountView(next, a), until, true) && (IsDeleted(t.accounts, a) ==> IsDeleted(next.tables.accounts, a)) {
      assert AccountReady(a, AccountView(s, a), until, polled.accounts);
      AccountMovesOn(s, now, a, until, polled.accounts);
    }
    AccountPollSpares(s, now);
    ChildrenStayReady(PROFILE_CHILD, s.profileLog, s.profileCheckpoint, t.profiles, next.tables.profiles, t.accounts, next.tables.accounts, polled.profiles);
    ChildrenStayReady(METADATA_CHILD, s.metadataLog, s.metadataCheckpoint, t.metadata, next.tables.metadata, t.accounts, next.tables.accounts, polled.metadata);
  }

  lemma AccountPollSpares(s: State, now: int)
    ensures var t, u := s.tables, Step(s, PollAccounts({}, now)).tables;
            && (forall id :: Get(u.profiles, id) == Get(t.profiles, id) ||
                  (id in t.profiles && id !in u.profiles && IsDeleted(u.accounts, PROFILE_CHILD.parent(t.profiles[id]))))
            && (forall id :: Get(u.metadata, id) == Get(t.metadata, id) ||
                  (id in t.metadata && id !in u.metadata && IsDeleted(u.accounts, METADATA_CHILD.parent(t.metadata[id]))))
  {
    var t, u, batch := s.tables, Step(s, PollAccounts({}, now)).tables, Window(s.accountLog, Position(s.accountCheckpoint));
    forall id
      ensures Get(u.profiles, id) == Get(t.profiles, id) || (id in t.profiles && id !in u.profiles && IsDeleted(u.accounts, PROFILE_CHILD.parent(t.profiles[id])))
      ensures Get(u.metadata, id) == Get(t.metadata, id) || (id in t.metadata && id !in u.metadata && IsDeleted(u.accounts, METADATA_CHILD.parent(t.metadata[id])))
    {
      RemovedWithAccount(t, batch, Ids(batch) - {}, now, id);
    }
  }

  // ---------- the children's polls ----------

  ghost predicate DeadParents<E, Ev>(c: Child<E, Ev>, log: seq<SeqEvent<Ev>>, accounts: map<int, Account>, id: int) {
    forall parent :: NamedParent(c, log, id, parent) ==> IsDeleted(accounts, parent)
  }

  lemma LivingParents<E, Ev>(c: Child<E, Ev>, log: seq<SeqEvent<Ev>>, accounts: map<int, Account>, id: int)
    requires OneOwner(c, log) && !DeadParents(c, log, accounts, id)
    ensures forall parent :: NamedParent(c, log, id, parent) ==> !IsDeleted(accounts, parent)
  {
    var q :| NamedParent(c, log, id, q) && !IsDeleted(accounts, q);
    forall parent | NamedParent(c, log, id, parent) ensures parent == q { SameParent(c, log, id, parent, q); }
  }

  lemma DeadAreAbsent<E, Ev>(c: Child<E, Ev>, log: seq<SeqEvent<Ev>>, rows: map<int, E>, accounts: map<int, Account>, id: int)
    requires Owned(c, log, rows) && NoOrphans(c, rows, accounts)
    ensures DeadParents(c, log, accounts, id) ==> id !in rows
  {
    if id in rows { assert NamedParent(c, log, id, c.parent(rows[id])) && !IsDeleted(accounts, c.parent(rows[id])); }
  }

  /** A poll without faults leaves every child ready: absent under deactivated accounts, or one step on. */
  lemma ChildPollReady<E(!new), Ev(!new)>(c: Child<E, Ev>, log: seq<SeqEvent<Ev>>, checkpoint: Option<int>, rows: map<int, E>, accounts: map<int, Account>, polled: bool)
    requires Lawful(c.applier) && AlwaysSeen(c.applier) && ParentLawful(c) && OneOwner(c, log) && Owned(c, log, rows) && NoOrphans(c, rows, accounts)
    requires ChildrenReady(c, log, checkpoint, rows, accounts, polled)
    ensures ChildrenReady(c, log, PolledCheckpoint(log, checkpoint), PolledTable(c, log, checkpoint, rows, accounts, NO_FAULTS), accounts, true)
  {
    var next, after := PolledTable(c, log, checkpoint, rows, accounts, NO_FAULTS), PolledCheckpoint(log, checkpoint);
    forall id ensures ChildReady(c, log, after, next, accounts, id, true) {
      assert ChildReady(c, log, checkpoint, rows, accounts, id, polled);
      DeadAreAbsent(c, log, rows, accounts, id);
      if DeadParents(c, log, accounts, id) {
        OrphanStaysAbsent(c, log, checkpoint, rows, accounts, NO_FAULTS, id);
      } else {
        LivingParents(c, log, accounts, id);
        ChildPollIsMove(c, log, checkpoint, rows, accounts, NO_FAULTS, id);
        SettlingPolls(c.applier, id, View(log, checkpoint, Get(rows, id)), polled);
        assert View(log, after, Get(next, id)) == Polled(c.applier, id, View(log, checkpoint, Get(rows, id)));
      }
    }
  }

  lemma ProfilePollReady(s: State, until: int, polled: Polled3)
    requires Ready(s, until, polled)
    ensures Ready(Step(s, PollProfiles(NO_FAULTS)), until, polled.(profiles := true))
  {
    var next := Step(s, PollProfiles(NO_FAULTS));
    StepKeepsSound(s, PollProfiles(NO_FAULTS));
    StepKeepsCascade(s, PollProfiles(NO_FAULTS));
    ProfileLawful();
    ProfileParentLawful();
    ChildPollReady(PROFILE_CHILD, s.profileLog, s.profileCheckpoint, s.tables.profiles, s.tables.accounts, polled.profiles);
    forall a ensures AccountReady(a, AccountView(next, a), until, polled.accounts) { assert AccountReady(a, AccountView(s, a), until, polled.accounts); }
  }

  lemma MetadataPollReady(s: State, until: int, polled: Polled3)
    requires Ready(s, until, polled)
    ensures Ready(Step(s, PollMetadata(NO_FAULTS)), until, polled.(metadata := true))
  {
    var next := Step(s, PollMetadata(NO_FAULTS));
    StepKeepsSound(s, PollMetadata(NO_FAULTS));
    StepKeepsCascade(s, PollMetadata(NO_FAULTS));
    MetadataLawful();
    MetadataParentLawful();
    ChildPollReady(METADATA_CHILD, s.metadataLog, s.metadataCheckpoint, s.tables.metadata, s.tables.accounts, polled.metadata);
    forall a ensures AccountReady(a, AccountView(next, a), until, polled.accounts) { assert AccountReady(a, AccountView(s, a), until, polled.accounts); }
  }

  // ---------- polls in any order ----------

  /** A poll without faults, before a time. */
  predicate CleanPoll(action: Action, until: int) {
    match action
    case PollAccounts(failed, now) => failed == {} && now <= until
    case PollProfiles(faults) => faults == NO_FAULTS
    case PollMetadata(faults) => faults == NO_FAULTS
    case _ => false
  }

  function CountAccounts(actions: seq<Action>): nat {
    if actions == [] then 0
    else CountAccounts(actions[..|actions| - 1]) + if actions[|actions| - 1].PollAccounts? then 1 else 0
  }

  function CountProfiles(actions: seq<Action>): nat {
    if actions == [] then 0
    else CountProfiles(actions[..|actions| - 1]) + if actions[|actions| - 1].PollProfiles? then 1 else 0
  }

  function CountMetadata(actions: seq<Action>): nat {
    if actions == [] then 0
    else CountMetadata(actions[..|actions| - 1]) + if actions[|actions| - 1].PollMetadata? then 1 else 0
  }

  /** After `n` polls the checkpoint is at the tail, or moved by at least 900 a poll. */
  ghost predicate Gone<Ev>(log: seq<SeqEvent<Ev>>, start: Option<int>, n: nat, checkpoint: Option<int>) {
    log != [] ==> Reached(log, start, n, checkpoint)
  }

  lemma GoneNext<Ev>(log: seq<SeqEvent<Ev>>, start: Option<int>, n: nat, checkpoint: Option<int>)
    requires ValidLog(log) && ValidCheckpoint(log, checkpoint) && Gone(log, start, n, checkpoint)
    ensures Gone(log, start, n + 1, PolledCheckpoint(log, checkpoint))
  {
    if log != [] { ReachedNext(log, start, n + 1, checkpoint); }
  }

  /** How far the polls of a run have come from a state. */
  ghost predicate Advanced(s: State, t: State, accounts: nat, profiles: nat, metadata: nat) {
    && t.accountLog == s.accountLog && t.profileLog == s.profileLog && t.metadataLog == s.metadataLog
    && Gone(s.accountLog, s.accountCheckpoint, accounts, t.accountCheckpoint)
    && Gone(s.profileLog, s.profileCheckpoint, profiles, t.profileCheckpoint)
    && Gone(s.metadataLog, s.metadataCheckpoint, metadata, t.metadataCheckpoint)
  }

  lemma AdvancedNext(s: State, t: State, action: Action, until: int, accounts: nat, profiles: nat, metadata: nat)
    requires Sound(t) && Advanced(s, t, accounts, profiles, metadata) && CleanPoll(action, until)
    ensures Advanced(s, Step(t, action), if action.PollAccounts? then accounts + 1 else accounts,
                     if action.PollProfiles? then profiles + 1 else profiles, if action.PollMetadata? then metadata + 1 else metadata)
  {
    GoneNext(s.accountLog, s.accountCheckpoint, accounts, t.accountCheckpoint);
    GoneNext(s.profileLog, s.profileCheckpoint, profiles, t.profileCheckpoint);
    GoneNext(s.metadataLog, s.metadataCheckpoint, metadata, t.metadataCheckpoint);
  }

  lemma CleanPollReady(s: State, action: Action, until: int, polled: Polled3)
    requires Ready(s, until, polled) && CleanPoll(action, until)
    ensures Ready(Step(s, action), until, Polled3(polled.accounts || action.PollAccounts?, polled.profiles || action.PollProfiles?, polled.metadata || action.PollMetadata?))
  {
    match action
    case PollAccounts(_, now) => AccountPollReady(s, now, until, polled);
    case PollProfiles(_) => ProfilePollReady(s, until, polled);
    case PollMetadata(_) => MetadataPollReady(s, until, polled);
  }

  lemma {:induction false} PollsAdvance(s: State, actions: seq<Action>, until: int)
    requires Settleable(s, until) && forall i :: 0 <= i < |actions| ==> CleanPoll(actions[i], until)
    ensures Ready(After(s, actions), until, Polled3(CountAccounts(actions) > 0, CountProfiles(actions) > 0, CountMetadata(actions) > 0))
    ensures Advanced(s, After(s, actions), CountAccounts(actions), CountProfiles(actions), CountMetadata(actions))
  {
    if actions != [] {
      var n := |actions| - 1;
      var init := actions[..n];
      PollsAdvance(s, init, until);
      CleanPollReady(After(s, init), actions[n], until, Polled3(CountAccounts(init) > 0, CountProfiles(init) > 0, CountMetadata(init) > 0));
      AdvancedNext(s, After(s, init), actions[n], until, CountAccounts(init), CountProfiles(init), CountMetadata(init));
    }
  }

  /** The log is empty, or this many polls cover it. */
  ghost predicate Enough<Ev>(log: seq<SeqEvent<Ev>>, checkpoint: Option<int>, n: nat) {
    log != [] ==> n > 0 && Position(checkpoint) + 900 * n >= log[|log| - 1].seqNo
  }

  lemma EnoughReachesTail<Ev>(log: seq<SeqEvent<Ev>>, start: Option<int>, n: nat, checkpoint: Option<int>)
    requires ValidLog(log) && ValidCheckpoint(log, checkpoint) && Enough(log, start, n) && Gone(log, start, n, checkpoint)
    ensures AtTail(log, checkpoint)
  {
    if log != [] { AtMostTail(log, checkpoint); }
  }

  lemma ChildrenQuiet<E(!new), Ev(!new)>(c: Child<E, Ev>, log: seq<SeqEvent<Ev>>, checkpoint: Option<int>, rows: map<int, E>, accounts: map<int, Account>, polled: bool)
    requires ChildrenReady(c, log, checkpoint, rows, accounts, polled) && AtTail(log, checkpoint) && (log != [] ==> polled)
    ensures forall id :: ChildQuiet(c, log, checkpoint, rows, accounts, id)
  {
    forall id ensures ChildQuiet(c, log, checkpoint, rows, accounts, id) {
      assert ChildReady(c, log, checkpoint, rows, accounts, id, polled);
      if !Orphaned(c, log, rows, accounts, id) { SettledUpToDate(c.applier, id, View(log, checkpoint, Get(rows, id)), polled); }
    }
  }

  lemma ReadyIsQuiet(s: State, until: int, polled: Polled3)
    requires Ready(s, until, polled)
    requires AtTail(s.accountLog, s.accountCheckpoint) && AtTail(s.profileLog, s.profileCheckpoint) && AtTail(s.metadataLog, s.metadataCheckpoint)
    requires (s.accountLog != [] ==> polled.accounts) && (s.profileLog != [] ==> polled.profiles) && (s.metadataLog != [] ==> polled.metadata)
    ensures Quiet(s)
  {
    forall a ensures UpToDate(ACCOUNT, a, AccountView(s, a)) {
      assert AccountReady(a, AccountView(s, a), until, polled.accounts);
      SettledUpToDate(ACCOUNT, a, AccountView(s, a), polled.accounts);
    }
    ChildrenQuiet(PROFILE_CHILD, s.profileLog, s.profileCheckpoint, s.tables.profiles, s.tables.accounts, polled.profiles);
    ChildrenQuiet(METADATA_CHILD, s.metadataLog, s.metadataCheckpoint, s.tables.metadata, s.tables.accounts, polled.metadata);
  }

  /**
   Polling settles the pipeline: from every settleable state, polls without faults in any order, at any times,
   reach a quiet state as soon as each projector has polled often enough to cover its log. In that state every
   later poll changes nothing.
   */
  lemma QuietReached(s: State, actions: seq<Action>, until: int)
    requires Settleable(s, until) && forall i :: 0 <= i < |actions| ==> CleanPoll(actions[i], until)
    requires Enough(s.accountLog, s.accountCheckpoint, CountAccounts(actions))
    requires Enough(s.profileLog, s.profileCheckpoint, CountProfiles(actions)) && Enough(s.metadataLog, s.metadataCheckpoint, CountMetadata(actions))
    ensures Quiet(After(s, actions))
  {
    var t := After(s, actions);
    PollsAdvance(s, actions, until);
    EnoughReachesTail(s.accountLog, s.accountCheckpoint, CountAccounts(actions), t.accountCheckpoint);
    EnoughReachesTail(s.profileLog, s.profileCheckpoint, CountProfiles(actions), t.profileCheckpoint);
    EnoughReachesTail(s.metadataLog, s.metadataCheckpoint, CountMetadata(actions), t.metadataCheckpoint);
    ReadyIsQuiet(t, until, Polled3(CountAccounts(actions) > 0, CountProfiles(actions) > 0, CountMetadata(actions) > 0));
  }


  // ---------- plain runs settle ----------

  ghost predicate AccountPlain(actions: seq<Action>, a: int) {
    && (forall i :: 0 <= i < |actions| && actions[i].PollAccounts? ==> AccountReadsTrue(After(INIT, actions[..i]), a, actions[i].now))
    && (forall i :: 0 <= i < |actions| ==> Plain(ACCOUNT, a, AccountViews(actions, a)[i], AccountMoves(actions, a)[i]))
  }

  ghost predicate ProfilePlain(actions: seq<Action>, p: int) {
    forall i :: 0 <= i < |actions| ==> Plain(PROFILE, p, ProfileViews(actions, p)[i], ProfileMoves(actions, p)[i])
  }

  ghost predicate MetadataPlain(actions: seq<Action>, m: int) {
    forall i :: 0 <= i < |actions| ==> Plain(METADATA, m, MetadataViews(actions, m)[i], MetadataMoves(actions, m)[i])
  }

  /** Every stream of the state replays, and no account of it was ever deactivated. */
  ghost predicate AllReplay(s: State) {
    && (forall a :: AccountFold(Stream(s.accountLog, a)).Ok? && !EverDeactivated(s.accountLog, a))
    && (forall p :: Fold(PROFILE, None, Stream(s.profileLog, p)).Ok?)
    && (forall m :: Fold(METADATA, None, Stream(s.metadataLog, m)).Ok?)
  }

  /** From the start, a run with in-order events and no failures ends in a state from which polling settles. */
  lemma PlainRunSettles(actions: seq<Action>, until: int)
    requires IsRun(INIT, actions) && Ownership(After(INIT, actions)) && AllReplay(After(INIT, actions))
    requires forall i :: 0 <= i < |actions| ==> LookupsWork(After(INIT, actions[..i]), actions[i])
    requires forall id :: AccountPlain(actions, id) && ProfilePlain(actions, id) && MetadataPlain(actions, id)
    requires forall a :: NoLapse(After(INIT, actions).accountLog, a, until)
    ensures Settleable(After(INIT, actions), until)
  {
    var s := After(INIT, actions);
    CheckpointSoundness(actions);
    CascadeSafety(actions);
    forall a ensures AccountReady(a, AccountView(s, a), until, false) {
      assert AccountPlain(actions, a) && NoLapse(s.accountLog, a, until) && AccountFold(Stream(s.accountLog, a)).Ok?;
      PlainAccountsConverge(actions, a);
    }
    forall p ensures ChildReady(PROFILE_CHILD, s.profileLog, s.profileCheckpoint, s.tables.profiles, s.tables.accounts, p, false) {
      assert ProfilePlain(actions, p) && Fold(PROFILE, None, Stream(s.profileLog, p)).Ok?;
      PlainProfilesConverge(actions, p);
    }
    forall m ensures ChildReady(METADATA_CHILD, s.metadataLog, s.metadataCheckpoint, s.tables.metadata, s.tables.accounts, m, false) {
      assert MetadataPlain(actions, m) && Fold(METADATA, None, Stream(s.metadataLog, m)).Ok?;
      PlainMetadataConverge(actions, m);
    }
  }
}
