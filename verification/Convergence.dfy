/** Whole-run theorems: rows converge to their streams, and deleted rows stay deleted. */
module Convergence {
  import opened Kernel
  import opened EventLog
  import opened RowProjection
  import opened Accounts
  import opened Profiles
  import opened Metadatas
  import opened ChildProjector
  import opened AccountProjector
  import opened AccountRows
  import opened ReadModelStore
  import opened Views
  import opened Pipeline

  // ---------- the three kinds of rows as views ----------

  function AccountView(s: State, a: int): View<Account, Accounts.Event> {
    View(s.accountLog, s.accountCheckpoint, Get(s.tables.accounts, a))
  }

  function ProfileView(s: State, p: int): View<Profile, Profiles.Event> {
    View(s.profileLog, s.profileCheckpoint, Get(s.tables.profiles, p))
  }

  function MetadataView(s: State, m: int): View<Metadata, Metadatas.Event> {
    View(s.metadataLog, s.metadataCheckpoint, Get(s.tables.metadata, m))
  }

  function AccountMove(action: Action, a: int): Move<Accounts.Event> {
    match action
    case CommitAccount(e) => Committing(e)
    case WriteAccount(e) => Writing(e)
    case PollAccounts(failed, _) => Polling(a in failed)
    case _ => Idle
  }

  function ProfileMove(action: Action, p: int): Move<Profiles.Event> {
    match action
    case CommitProfile(e) => Committing(e)
    case WriteProfile(e) => Writing(e)
    case PollProfiles(faults) => Polling(p in faults.writes)
    case _ => Idle
  }

  function MetadataMove(action: Action, m: int): Move<Metadatas.Event> {
    match action
    case CommitMetadata(e) => Committing(e)
    case WriteMetadata(e) => Writing(e)
    case PollMetadata(faults) => Polling(m in faults.writes)
    case _ => Idle
  }

  // ---------- accounts that are never deactivated ----------

  /** A deactivation of the account is committed. */
  ghost predicate EverDeactivated(log: seq<SeqEvent<Accounts.Event>>, a: int) {
    exists i :: 0 <= i < |log| && log[i].envelope.id == a && log[i].envelope.event.Deactivated?
  }

  /** A fold that ends deactivated without having started so met a deactivation. */
  lemma {:induction false} FoldDeactivates(existing: Option<Account>, events: seq<AccountEnvelope>)
    requires existing.Some? ==> !existing.value.deleted
    requires Fold(ACCOUNT, existing, events).Ok? && Fold(ACCOUNT, existing, events).value.Some?
    requires Fold(ACCOUNT, existing, events).value.value.deleted
    ensures exists i :: 0 <= i < |events| && events[i].event.Deactivated?
    decreases |events|
  {
    assert events != [];
    assert ACCOUNT.apply(existing, events[0]) == Accounts.Apply(existing, events[0]);
    if !events[0].event.Deactivated? {
      FoldDeactivates(Accounts.Apply(existing, events[0]).value, events[1..]);
      var i :| 0 <= i < |events[1..]| && events[1..][i].event.Deactivated?;
      assert events[i + 1].event.Deactivated?;
    }
  }

  /** Only a committed deactivation makes a group deactivate its account. */
  lemma DeactivationCommitted(t: Tables, log: seq<SeqEvent<Accounts.Event>>, checkpoint: int, now: int, a: int)
    requires GroupOf(t, Window(log, checkpoint), a, now).Deactivation?
    ensures EverDeactivated(log, a)
  {
    var sorted := SortByVersion(Stream(Window(log, checkpoint), a));
    var existing := Unfiltered(Get(t.accounts, a), now);
    var pending := Pending(ACCOUNT, existing, sorted);
    FoldDeactivates(existing, pending);
    var i :| 0 <= i < |pending| && pending[i].event.Deactivated?;
    if existing.Some? { NewerSubset(ACCOUNT.version(existing.value), sorted, i); }
    var j :| 0 <= j < |sorted| && sorted[j] == pending[i];
    var n := SortedIndex(log, checkpoint, a, j);
  }

  ghost predicate DeletionsCommitted(s: State) {
    forall a :: IsDeleted(s.tables.accounts, a) ==> EverDeactivated(s.accountLog, a)
  }

  lemma CommitKeepsDeactivated(log: seq<SeqEvent<Accounts.Event>>, e: SeqEvent<Accounts.Event>, a: int)
    requires EverDeactivated(log, a)
    ensures EverDeactivated(Commit(log, e), a)
  {
    var i :| 0 <= i < |log| && log[i].envelope.id == a && log[i].envelope.event.Deactivated?;
    var j := CommitKeepsRows(log, e, i);
  }

  lemma PollKeepsDeletions(t: Tables, log: seq<SeqEvent<Accounts.Event>>, checkpoint: Option<int>, failed: set<int>, now: int)
    requires forall a :: IsDeleted(t.accounts, a) ==> EverDeactivated(log, a)
    ensures forall a :: IsDeleted(PolledTables(t, log, checkpoint, failed, now).accounts, a) ==> EverDeactivated(log, a)
  {
    var batch := Window(log, Position(checkpoint));
    forall a | IsDeleted(PolledTables(t, log, checkpoint, failed, now).accounts, a) ensures EverDeactivated(log, a) {
      if !IsDeleted(t.accounts, a) {
        CascadeAtomic(t, batch, Ids(batch) - failed, now, a);
        DeactivationCommitted(t, log, Position(checkpoint), now, a);
      }
    }
  }

  lemma StepKeepsDeletions(s: State, action: Action)
    requires DeletionsCommitted(s) && Enabled(s, action)
    ensures DeletionsCommitted(Step(s, action))
  {
    match action
    case CommitAccount(e) =>
      forall a | EverDeactivated(s.accountLog, a) ensures EverDeactivated(Commit(s.accountLog, e), a) {
        CommitKeepsDeactivated(s.accountLog, e, a);
      }
    case WriteAccount(e) =>
      assert forall a :: IsDeleted(Step(s, action).tables.accounts, a) ==> IsDeleted(s.tables.accounts, a);
      forall a | EverDeactivated(s.accountLog, a) ensures EverDeactivated(Commit(s.accountLog, e), a) {
        CommitKeepsDeactivated(s.accountLog, e, a);
      }
    case PollAccounts(failed, now) => PollKeepsDeletions(s.tables, s.accountLog, s.accountCheckpoint, failed, now);
    case _ =>
  }

  // ---------- children of living accounts ----------

  /** No account that a creation event of this child names is ever deactivated. */
  ghost predicate ParentsLive<E, Ev>(c: Child<E, Ev>, log: seq<SeqEvent<Ev>>, accountLog: seq<SeqEvent<Accounts.Event>>, id: int) {
    forall parent :: NamedParent(c, log, id, parent) ==> !EverDeactivated(accountLog, parent)
  }

  /** Under living parents a child poll is the plain row protocol. */
  lemma ChildPollIsMove<E(!new), Ev(!new)>(c: Child<E, Ev>, log: seq<SeqEvent<Ev>>, checkpoint: Option<int>, rows: map<int, E>,
                                           accounts: map<int, Account>, faults: Faults, id: int)
    requires AlwaysSeen(c.applier)
    requires forall parent :: NamedParent(c, log, id, parent) ==> !IsDeleted(accounts, parent)
    ensures Get(PolledTable(c, log, checkpoint, rows, accounts, faults), id) ==
            if id in faults.writes then Get(rows, id) else PolledRow(c.applier, log, id, Position(checkpoint), Get(rows, id))
  {
    var batch, row := Window(log, Position(checkpoint)), Get(rows, id);
    var sorted := SortByVersion(Stream(batch, id));
    OfEmptyIffAbsent(batch, id);
    assert Seen(c.applier, row) == row;
    if FirstParent(c, sorted).Some? {
      FirstParentIsEvent(c, sorted);
      var i :| 0 <= i < |sorted| && c.parentOf(sorted[i].event) == FirstParent(c, sorted);
      SortedFromLog(c, log, Position(checkpoint), id, i, FirstParent(c, sorted).value);
    }
    if id !in Ids(batch) { assert Stream(batch, id) == []; }
  }

  lemma {:induction false} FirstParentIsEvent<E, Ev>(c: Child<E, Ev>, events: seq<Envelope<Ev>>)
    requires FirstParent(c, events).Some?
    ensures exists i :: 0 <= i < |events| && c.parentOf(events[i].event) == FirstParent(c, events)
  {
    if c.parentOf(events[0].event).None? {
      FirstParentIsEvent(c, events[1..]);
      var i :| 0 <= i < |events[1..]| && c.parentOf(events[1..][i].event) == FirstParent(c, events[1..]);
      assert events[i + 1] == events[1..][i];
    }
  }

  /** An account poll leaves the children of accounts that are never deactivated alone. */
  lemma CascadeSparesLiving(t: Tables, log: seq<SeqEvent<Accounts.Event>>, checkpoint: Option<int>, failed: set<int>, now: int)
    ensures var after := PolledTables(t, log, checkpoint, failed, now);
            && (forall p :: p in t.profiles && !EverDeactivated(log, t.profiles[p].accountId) ==> Get(after.profiles, p) == Get(t.profiles, p))
            && (forall m :: m in t.metadata && !EverDeactivated(log, t.metadata[m].accountId) ==> Get(after.metadata, m) == Get(t.metadata, m))
            && (forall p :: p !in t.profiles ==> p !in after.profiles)
            && (forall m :: m !in t.metadata ==> m !in after.metadata)
  {
    var batch := Window(log, Position(checkpoint));
    var plan := Plan(t, batch, Ids(batch) - failed, now);
    forall a | a in Deactivating(plan) ensures EverDeactivated(log, a) {
      assert plan[a] == GroupOf(t, batch, a, now);
      DeactivationCommitted(t, log, Position(checkpoint), now, a);
    }
  }

  // ---------- the invariant behind the run theorems ----------

  ghost predicate RunInvariant(s: State) {
    && Sound(s) && DeletionsCommitted(s)
    && Owned(PROFILE_CHILD, s.profileLog, s.tables.profiles)
    && Owned(METADATA_CHILD, s.metadataLog, s.tables.metadata)
  }

  lemma StepKeepsOwned(s: State, action: Action)
    requires Owned(PROFILE_CHILD, s.profileLog, s.tables.profiles) && Owned(METADATA_CHILD, s.metadataLog, s.tables.metadata)
    ensures Owned(PROFILE_CHILD, Step(s, action).profileLog, Step(s, action).tables.profiles)
    ensures Owned(METADATA_CHILD, Step(s, action).metadataLog, Step(s, action).tables.metadata)
  {
    match action
    case CommitProfile(e) => CommitKeepsOwned(PROFILE_CHILD, s.profileLog, e, s.tables.profiles);
    case CommitMetadata(e) => CommitKeepsOwned(METADATA_CHILD, s.metadataLog, e, s.tables.metadata);
    case WriteProfile(e) =>
      ProfileParentLawful();
      WriteKeepsOwned(PROFILE_CHILD, s.profileLog, s.tables.profiles, e);
    case WriteMetadata(e) =>
      MetadataParentLawful();
      WriteKeepsOwned(METADATA_CHILD, s.metadataLog, s.tables.metadata, e);
    case PollProfiles(faults) =>
      ProfileParentLawful();
      ChildPollOwned(PROFILE_CHILD, s.profileLog, s.profileCheckpoint, s.tables.profiles, s.tables.accounts, faults);
    case PollMetadata(faults) =>
      MetadataParentLawful();
      ChildPollOwned(METADATA_CHILD, s.metadataLog, s.metadataCheckpoint, s.tables.metadata, s.tables.accounts, faults);
    case _ =>
  }

  lemma {:induction false} RunKeepsInvariant(s: State, actions: seq<Action>)
    requires IsRun(s, actions) && RunInvariant(s)
    ensures RunInvariant(After(s, actions))
  {
    if actions != [] {
      var n := |actions| - 1;
      RunPrefix(s, actions, n);
      RunKeepsInvariant(s, actions[..n]);
      var last := After(s, actions[..n]);
      StepKeepsSound(last, actions[n]);
      StepKeepsDeletions(last, actions[n]);
      StepKeepsOwned(last, actions[n]);
    }
  }

  // ---------- each step is a move of every view ----------

  /** Reading the account's row back in a poll at this time does no harm. */
  predicate AccountReadsTrue(s: State, a: int, now: int) {
    ReadsTrue(Get(s.tables.accounts, a), SortByVersion(Stream(Window(s.accountLog, Position(s.accountCheckpoint)), a)), now)
  }

  lemma AccountIdles(s: State, action: Action, a: int)
    requires AccountMove(action, a).Idle?
    ensures AccountView(Step(s, action), a) == AccountView(s, a)
  {
  }

  lemma AccountWrites(s: State, action: Action, a: int)
    requires action.CommitAccount? || action.WriteAccount?
    ensures AccountView(Step(s, action), a) == Moved(ACCOUNT, a, AccountView(s, a), AccountMove(action, a))
  {
  }

  lemma AccountPolls(s: State, failed: set<int>, now: int, a: int)
    requires AccountReadsTrue(s, a, now)
    ensures AccountView(Step(s, PollAccounts(failed, now)), a) == Moved(ACCOUNT, a, AccountView(s, a), Polling(a in failed))
  {
    AccountRowPolled(s.tables, s.accountLog, s.accountCheckpoint, failed, now, a);
    AccountPollView(s, failed, now, a);
  }

  lemma AccountPollView(s: State, failed: set<int>, now: int, a: int)
    ensures AccountView(Step(s, PollAccounts(failed, now)), a) ==
            View(s.accountLog, PolledCheckpoint(s.accountLog, s.accountCheckpoint), Get(PolledTables(s.tables, s.accountLog, s.accountCheckpoint, failed, now).accounts, a))
  {
  }

  lemma AccountStepMoves(s: State, action: Action, a: int)
    requires action.PollAccounts? ==> AccountReadsTrue(s, a, action.now)
    ensures AccountView(Step(s, action), a) == Moved(ACCOUNT, a, AccountView(s, a), AccountMove(action, a))
  {
    if action.PollAccounts? {
      AccountPolls(s, action.failed, action.now, a);
    } else if AccountMove(action, a).Idle? {
      AccountIdles(s, action, a);
    } else {
      AccountWrites(s, action, a);
    }
  }

  lemma MetadataSpared(s: State, failed: set<int>, now: int, m: int)
    requires Owned(METADATA_CHILD, s.metadataLog, s.tables.metadata) && ParentsLive(METADATA_CHILD, s.metadataLog, s.accountLog, m)
    ensures Get(PolledTables(s.tables, s.accountLog, s.accountCheckpoint, failed, now).metadata, m) == Get(s.tables.metadata, m)
  {
    CascadeSparesLiving(s.tables, s.accountLog, s.accountCheckpoint, failed, now);
    if m in s.tables.metadata { assert NamedParent(METADATA_CHILD, s.metadataLog, m, METADATA_CHILD.parent(s.tables.metadata[m])); }
  }

  lemma MetadataPolls(s: State, faults: Faults, m: int)
    requires DeletionsCommitted(s) && ParentsLive(METADATA_CHILD, s.metadataLog, s.accountLog, m)
    ensures Get(PolledTable(METADATA_CHILD, s.metadataLog, s.metadataCheckpoint, s.tables.metadata, s.tables.accounts, faults), m) ==
            if m in faults.writes then Get(s.tables.metadata, m) else PolledRow(METADATA, s.metadataLog, m, Position(s.metadataCheckpoint), Get(s.tables.metadata, m))
  {
    ChildPollIsMove(METADATA_CHILD, s.metadataLog, s.metadataCheckpoint, s.tables.metadata, s.tables.accounts, faults, m);
  }

  lemma MetadataIdles(s: State, action: Action, m: int)
    requires !action.PollAccounts? && MetadataMove(action, m).Idle?
    ensures MetadataView(Step(s, action), m) == MetadataView(s, m)
  {
  }

  lemma MetadataWrites(s: State, action: Action, m: int)
    requires action.CommitMetadata? || action.WriteMetadata?
    ensures MetadataView(Step(s, action), m) == Moved(METADATA, m, MetadataView(s, m), MetadataMove(action, m))
  {
  }

  lemma MetadataStepMoves(s: State, action: Action, m: int)
    requires DeletionsCommitted(s) && Owned(METADATA_CHILD, s.metadataLog, s.tables.metadata) && ParentsLive(METADATA_CHILD, s.metadataLog, s.accountLog, m)
    ensures MetadataView(Step(s, action), m) == Moved(METADATA, m, MetadataView(s, m), MetadataMove(action, m))
  {
    if action.PollAccounts? {
      MetadataSpared(s, action.failed, action.now, m);
    } else if action.PollMetadata? {
      MetadataPolls(s, action.faults, m);
    } else if MetadataMove(action, m).Idle? {
      MetadataIdles(s, action, m);
    } else {
      MetadataWrites(s, action, m);
    }
  }

  lemma ProfileSpared(s: State, failed: set<int>, now: int, p: int)
    requires Owned(PROFILE_CHILD, s.profileLog, s.tables.profiles) && ParentsLive(PROFILE_CHILD, s.profileLog, s.accountLog, p)
    ensures Get(PolledTables(s.tables, s.accountLog, s.accountCheckpoint, failed, now).profiles, p) == Get(s.tables.profiles, p)
  {
    CascadeSparesLiving(s.tables, s.accountLog, s.accountCheckpoint, failed, now);
    if p in s.tables.profiles { assert NamedParent(PROFILE_CHILD, s.profileLog, p, PROFILE_CHILD.parent(s.tables.profiles[p])); }
  }

  lemma ProfilePolls(s: State, faults: Faults, p: int)
    requires DeletionsCommitted(s) && ParentsLive(PROFILE_CHILD, s.profileLog, s.accountLog, p)
    ensures Get(PolledTable(PROFILE_CHILD, s.profileLog, s.profileCheckpoint, s.tables.profiles, s.tables.accounts, faults), p) ==
            if p in faults.writes then Get(s.tables.profiles, p) else PolledRow(PROFILE, s.profileLog, p, Position(s.profileCheckpoint), Get(s.tables.profiles, p))
  {
    ChildPollIsMove(PROFILE_CHILD, s.profileLog, s.profileCheckpoint, s.tables.profiles, s.tables.accounts, faults, p);
  }

  lemma ProfileIdles(s: State, action: Action, p: int)
    requires !action.PollAccounts? && ProfileMove(action, p).Idle?
    ensures ProfileView(Step(s, action), p) == ProfileView(s, p)
  {
  }

  lemma ProfileWrites(s: State, action: Action, p: int)
    requires action.CommitProfile? || action.WriteProfile?
    ensures ProfileView(Step(s, action), p) == Moved(PROFILE, p, ProfileView(s, p), ProfileMove(action, p))
  {
  }

  lemma ProfileStepMoves(s: State, action: Action, p: int)
    requires DeletionsCommitted(s) && Owned(PROFILE_CHILD, s.profileLog, s.tables.profiles) && ParentsLive(PROFILE_CHILD, s.profileLog, s.accountLog, p)
    ensures ProfileView(Step(s, action), p) == Moved(PROFILE, p, ProfileView(s, p), ProfileMove(action, p))
  {
    if action.PollAccounts? {
      ProfileSpared(s, action.failed, action.now, p);
    } else if action.PollProfiles? {
      ProfilePolls(s, action.faults, p);
    } else if ProfileMove(action, p).Idle? {
      ProfileIdles(s, action, p);
    } else {
      ProfileWrites(s, action, p);
    }
  }

  // ---------- convergence over every run ----------

  lemma StepNeedsParentsLive<E, Ev>(c: Child<E, Ev>, log: seq<SeqEvent<Ev>>, e: SeqEvent<Ev>, accountLog: seq<SeqEvent<Accounts.Event>>, id: int)
    requires ParentsLive(c, Commit(log, e), accountLog, id)
    ensures ParentsLive(c, log, accountLog, id)
  {
    forall parent | NamedParent(c, log, id, parent) ensures !EverDeactivated(accountLog, parent) {
      var i :| 0 <= i < |log| && log[i].envelope.id == id && c.parentOf(log[i].envelope.event) == Some(parent);
      var j := CommitKeepsRows(log, e, i);
      assert NamedParent(c, Commit(log, e), id, parent);
    }
  }

  lemma AccountCommitNeedsParentsLive<E, Ev>(c: Child<E, Ev>, log: seq<SeqEvent<Ev>>, accountLog: seq<SeqEvent<Accounts.Event>>, e: SeqEvent<Accounts.Event>, id: int)
    requires ParentsLive(c, log, Commit(accountLog, e), id)
    ensures ParentsLive(c, log, accountLog, id)
  {
    forall parent | NamedParent(c, log, id, parent) ensures !EverDeactivated(accountLog, parent) {
      if EverDeactivated(accountLog, parent) { CommitKeepsDeactivated(accountLog, e, parent); }
    }
  }

  lemma MetadataNeedsParentsLive(s: State, action: Action, m: int)
    requires ParentsLive(METADATA_CHILD, Step(s, action).metadataLog, Step(s, action).accountLog, m)
    ensures ParentsLive(METADATA_CHILD, s.metadataLog, s.accountLog, m)
  {
    match action
    case CommitMetadata(e) => StepNeedsParentsLive(METADATA_CHILD, s.metadataLog, e, s.accountLog, m);
    case WriteMetadata(e) => StepNeedsParentsLive(METADATA_CHILD, s.metadataLog, e, s.accountLog, m);
    case CommitAccount(e) => AccountCommitNeedsParentsLive(METADATA_CHILD, s.metadataLog, s.accountLog, e, m);
    case WriteAccount(e) => AccountCommitNeedsParentsLive(METADATA_CHILD, s.metadataLog, s.accountLog, e, m);
    case _ =>
  }

  lemma ProfileNeedsParentsLive(s: State, action: Action, p: int)
    requires ParentsLive(PROFILE_CHILD, Step(s, action).profileLog, Step(s, action).accountLog, p)
    ensures ParentsLive(PROFILE_CHILD, s.profileLog, s.accountLog, p)
  {
    match action
    case CommitProfile(e) => StepNeedsParentsLive(PROFILE_CHILD, s.profileLog, e, s.accountLog, p);
    case WriteProfile(e) => StepNeedsParentsLive(PROFILE_CHILD, s.profileLog, e, s.accountLog, p);
    case CommitAccount(e) => AccountCommitNeedsParentsLive(PROFILE_CHILD, s.profileLog, s.accountLog, e, p);
    case WriteAccount(e) => AccountCommitNeedsParentsLive(PROFILE_CHILD, s.profileLog, s.accountLog, e, p);
    case _ =>
  }

  /** The account's views and moves along a run. */
  function AccountViews(actions: seq<Action>, a: int): seq<View<Account, Accounts.Event>> {
    seq(|actions| + 1, i requires 0 <= i <= |actions| => AccountView(After(INIT, actions[..i]), a))
  }

  function AccountMoves(actions: seq<Action>, a: int): seq<Move<Accounts.Event>> {
    seq(|actions|, i requires 0 <= i < |actions| => AccountMove(actions[i], a))
  }

  lemma AccountPathStep(actions: seq<Action>, a: int, i: nat)
    requires IsRun(INIT, actions)
    requires forall i :: 0 <= i < |actions| && actions[i].PollAccounts? ==> AccountReadsTrue(After(INIT, actions[..i]), a, actions[i].now)
    requires i < |actions|
    ensures AccountView(After(INIT, actions[..i + 1]), a) == Moved(ACCOUNT, a, AccountView(After(INIT, actions[..i]), a), AccountMove(actions[i], a))
  {
    AfterOne(INIT, actions, i);
    RunPrefix(INIT, actions, i);
    AccountStepMoves(After(INIT, actions[..i]), actions[i], a);
  }

  lemma AccountPath(actions: seq<Action>, a: int)
    requires IsRun(INIT, actions)
    requires forall i :: 0 <= i < |actions| && actions[i].PollAccounts? ==> AccountReadsTrue(After(INIT, actions[..i]), a, actions[i].now)
    ensures Path(ACCOUNT, a, AccountViews(actions, a), AccountMoves(actions, a))
    ensures AccountViews(actions, a)[|actions|] == AccountView(After(INIT, actions), a)
  {
    assert actions[..|actions|] == actions && actions[..0] == [];
    forall i | 0 <= i < |actions|
      ensures AccountView(After(INIT, actions[..i + 1]), a) == Moved(ACCOUNT, a, AccountView(After(INIT, actions[..i]), a), AccountMove(actions[i], a))
    {
      AccountPathStep(actions, a, i);
    }
  }

  /** The profile's views and moves along a run. */
  function ProfileViews(actions: seq<Action>, p: int): seq<View<Profile, Profiles.Event>> {
    seq(|actions| + 1, i requires 0 <= i <= |actions| => ProfileView(After(INIT, actions[..i]), p))
  }

  function ProfileMoves(actions: seq<Action>, p: int): seq<Move<Profiles.Event>> {
    seq(|actions|, i requires 0 <= i < |actions| => ProfileMove(actions[i], p))
  }

  lemma {:induction false} ProfileParentsLiveBefore(actions: seq<Action>, i: nat, p: int)
    requires i <= |actions| && ParentsLive(PROFILE_CHILD, After(INIT, actions).profileLog, After(INIT, actions).accountLog, p)
    ensures ParentsLive(PROFILE_CHILD, After(INIT, actions[..i]).profileLog, After(INIT, actions[..i]).accountLog, p)
    decreases |actions|
  {
    if i < |actions| {
      var n := |actions| - 1;
      ProfileNeedsParentsLive(After(INIT, actions[..n]), actions[n], p);
      ProfileParentsLiveBefore(actions[..n], i, p);
      assert actions[..n][..i] == actions[..i];
    } else {
      assert actions[..i] == actions;
    }
  }

  lemma ProfilePathStep(actions: seq<Action>, p: int, i: nat)
    requires IsRun(INIT, actions)
    requires ParentsLive(PROFILE_CHILD, After(INIT, actions).profileLog, After(INIT, actions).accountLog, p)
    requires i < |actions|
    ensures ProfileView(After(INIT, actions[..i + 1]), p) == Moved(PROFILE, p, ProfileView(After(INIT, actions[..i]), p), ProfileMove(actions[i], p))
  {
    AfterOne(INIT, actions, i);
    RunPrefix(INIT, actions, i);
    RunKeepsInvariant(INIT, actions[..i]);
    ProfileParentsLiveBefore(actions, i, p);
    ProfileStepMoves(After(INIT, actions[..i]), actions[i], p);
  }

  lemma ProfilePath(actions: seq<Action>, p: int)
    requires IsRun(INIT, actions)
    requires ParentsLive(PROFILE_CHILD, After(INIT, actions).profileLog, After(INIT, actions).accountLog, p)
    ensures Path(PROFILE, p, ProfileViews(actions, p), ProfileMoves(actions, p))
    ensures ProfileViews(actions, p)[|actions|] == ProfileView(After(INIT, actions), p)
  {
    assert actions[..|actions|] == actions && actions[..0] == [];
    forall i | 0 <= i < |actions|
      ensures ProfileView(After(INIT, actions[..i + 1]), p) == Moved(PROFILE, p, ProfileView(After(INIT, actions[..i]), p), ProfileMove(actions[i], p))
    {
      ProfilePathStep(actions, p, i);
    }
  }

  /** The metadata entry's views and moves along a run. */
  function MetadataViews(actions: seq<Action>, m: int): seq<View<Metadata, Metadatas.Event>> {
    seq(|actions| + 1, i requires 0 <= i <= |actions| => MetadataView(After(INIT, actions[..i]), m))
  }

  function MetadataMoves(actions: seq<Action>, m: int): seq<Move<Metadatas.Event>> {
    seq(|actions|, i requires 0 <= i < |actions| => MetadataMove(actions[i], m))
  }

  lemma {:induction false} MetadataParentsLiveBefore(actions: seq<Action>, i: nat, m: int)
    requires i <= |actions| && ParentsLive(METADATA_CHILD, After(INIT, actions).metadataLog, After(INIT, actions).accountLog, m)
    ensures ParentsLive(METADATA_CHILD, After(INIT, actions[..i]).metadataLog, After(INIT, actions[..i]).accountLog, m)
    decreases |actions|
  {
    if i < |actions| {
      var n := |actions| - 1;
      MetadataNeedsParentsLive(After(INIT, actions[..n]), actions[n], m);
      MetadataParentsLiveBefore(actions[..n], i, m);
      assert actions[..n][..i] == actions[..i];
    } else {
      assert actions[..i] == actions;
    }
  }

  lemma MetadataPathStep(actions: seq<Action>, m: int, i: nat)
    requires IsRun(INIT, actions)
    requires ParentsLive(METADATA_CHILD, After(INIT, actions).metadataLog, After(INIT, actions).accountLog, m)
    requires i < |actions|
    ensures MetadataView(After(INIT, actions[..i + 1]), m) == Moved(METADATA, m, MetadataView(After(INIT, actions[..i]), m), MetadataMove(actions[i], m))
  {
    AfterOne(INIT, actions, i);
    RunPrefix(INIT, actions, i);
    RunKeepsInvariant(INIT, actions[..i]);
    MetadataParentsLiveBefore(actions, i, m);
    MetadataStepMoves(After(INIT, actions[..i]), actions[i], m);
  }

  lemma MetadataPath(actions: seq<Action>, m: int)
    requires IsRun(INIT, actions)
    requires ParentsLive(METADATA_CHILD, After(INIT, actions).metadataLog, After(INIT, actions).accountLog, m)
    ensures Path(METADATA, m, MetadataViews(actions, m), MetadataMoves(actions, m))
    ensures MetadataViews(actions, m)[|actions|] == MetadataView(After(INIT, actions), m)
  {
    assert actions[..|actions|] == actions && actions[..0] == [];
    forall i | 0 <= i < |actions|
      ensures MetadataView(After(INIT, actions[..i + 1]), m) == Moved(METADATA, m, MetadataView(After(INIT, actions[..i]), m), MetadataMove(actions[i], m))
    {
      MetadataPathStep(actions, m, i);
    }
  }

  /**
   Convergence of accounts over every run. While events committed without their row are deliverable,
   directly written rows are newest, and skipped groups stay inside the window, every poll that writes the
   account leaves its row the fold of at least all its events up to the checkpoint, exactly when those
   events replay; and of exactly those once the checkpoint has passed the newest direct write.
   */
  lemma AccountsConverge(actions: seq<Action>, a: int)
    requires IsRun(INIT, actions)
    requires forall i :: 0 <= i < |actions| && actions[i].PollAccounts? ==> AccountReadsTrue(After(INIT, actions[..i]), a, actions[i].now)
    requires forall i :: 0 <= i < |actions| ==>
               Served(ACCOUNT, a, AccountViews(actions, a)[i], AccountMoves(actions, a)[i], ReachOf(a, AccountMoves(actions, a)[..i]))
    ensures var v, moves := AccountView(After(INIT, actions), a), AccountMoves(actions, a);
            && KeepsUp(ACCOUNT, a, v, ReachOf(a, moves))
            && (moves != [] && moves[|moves| - 1] == Polling(false) ==> Settles(ACCOUNT, a, v, ReachOf(a, moves)))
  {
    AccountLawful();
    AccountPath(actions, a);
    ServedPath(ACCOUNT, a, AccountViews(actions, a), AccountMoves(actions, a));
  }

  /** The same with in-order events and no failure, for accounts whose events replay. */
  lemma PlainAccountsConverge(actions: seq<Action>, a: int)
    requires IsRun(INIT, actions)
    requires forall i :: 0 <= i < |actions| && actions[i].PollAccounts? ==> AccountReadsTrue(After(INIT, actions[..i]), a, actions[i].now)
    requires forall i :: 0 <= i < |actions| ==> Plain(ACCOUNT, a, AccountViews(actions, a)[i], AccountMoves(actions, a)[i])
    ensures var v, moves := AccountView(After(INIT, actions), a), AccountMoves(actions, a);
            && KeepsUp(ACCOUNT, a, v, ReachOf(a, moves))
            && (moves != [] && moves[|moves| - 1].Polling? ==>
                  Caught(ACCOUNT, a, v, ReachOf(a, moves)) && (ReachOf(a, moves) <= Position(v.checkpoint) ==> Converged(ACCOUNT, a, v)))
  {
    AccountLawful();
    AccountPath(actions, a);
    PlainPath(ACCOUNT, a, AccountViews(actions, a), AccountMoves(actions, a));
  }

  /** Convergence of profiles over every run in which no account that their creation names is deactivated. */
  lemma ProfilesConverge(actions: seq<Action>, p: int)
    requires IsRun(INIT, actions)
    requires ParentsLive(PROFILE_CHILD, After(INIT, actions).profileLog, After(INIT, actions).accountLog, p)
    requires forall i :: 0 <= i < |actions| ==>
               Served(PROFILE, p, ProfileViews(actions, p)[i], ProfileMoves(actions, p)[i], ReachOf(p, ProfileMoves(actions, p)[..i]))
    ensures var v, moves := ProfileView(After(INIT, actions), p), ProfileMoves(actions, p);
            && KeepsUp(PROFILE, p, v, ReachOf(p, moves))
            && (moves != [] && moves[|moves| - 1] == Polling(false) ==> Settles(PROFILE, p, v, ReachOf(p, moves)))
  {
    ProfileLawful();
    ProfilePath(actions, p);
    ServedPath(PROFILE, p, ProfileViews(actions, p), ProfileMoves(actions, p));
  }

  /** The same with in-order events and no failure. */
  lemma PlainProfilesConverge(actions: seq<Action>, p: int)
    requires IsRun(INIT, actions)
    requires ParentsLive(PROFILE_CHILD, After(INIT, actions).profileLog, After(INIT, actions).accountLog, p)
    requires forall i :: 0 <= i < |actions| ==> Plain(PROFILE, p, ProfileViews(actions, p)[i], ProfileMoves(actions, p)[i])
    ensures var v, moves := ProfileView(After(INIT, actions), p), ProfileMoves(actions, p);
            && KeepsUp(PROFILE, p, v, ReachOf(p, moves))
            && (moves != [] && moves[|moves| - 1].Polling? ==>
                  Caught(PROFILE, p, v, ReachOf(p, moves)) && (ReachOf(p, moves) <= Position(v.checkpoint) ==> Converged(PROFILE, p, v)))
  {
    ProfileLawful();
    ProfilePath(actions, p);
    PlainPath(PROFILE, p, ProfileViews(actions, p), ProfileMoves(actions, p));
  }

  /** Convergence of metadata over every run in which no account that its creation names is deactivated. */
  lemma MetadataConverges(actions: seq<Action>, m: int)
    requires IsRun(INIT, actions)
    requires ParentsLive(METADATA_CHILD, After(INIT, actions).metadataLog, After(INIT, actions).accountLog, m)
    requires forall i :: 0 <= i < |actions| ==>
               Served(METADATA, m, MetadataViews(actions, m)[i], MetadataMoves(actions, m)[i], ReachOf(m, MetadataMoves(actions, m)[..i]))
    ensures var v, moves := MetadataView(After(INIT, actions), m), MetadataMoves(actions, m);
            && KeepsUp(METADATA, m, v, ReachOf(m, moves))
            && (moves != [] && moves[|moves| - 1] == Polling(false) ==> Settles(METADATA, m, v, ReachOf(m, moves)))
  {
    MetadataLawful();
    MetadataPath(actions, m);
    ServedPath(METADATA, m, MetadataViews(actions, m), MetadataMoves(actions, m));
  }

  /** The same with in-order events and no failure. */
  lemma PlainMetadataConverge(actions: seq<Action>, m: int)
    requires IsRun(INIT, actions)
    requires ParentsLive(METADATA_CHILD, After(INIT, actions).metadataLog, After(INIT, actions).accountLog, m)
    requires forall i :: 0 <= i < |actions| ==> Plain(METADATA, m, MetadataViews(actions, m)[i], MetadataMoves(actions, m)[i])
    ensures var v, moves := MetadataView(After(INIT, actions), m), MetadataMoves(actions, m);
            && KeepsUp(METADATA, m, v, ReachOf(m, moves))
            && (moves != [] && moves[|moves| - 1].Polling? ==>
                  Caught(METADATA, m, v, ReachOf(m, moves)) && (ReachOf(m, moves) <= Position(v.checkpoint) ==> Converged(METADATA, m, v)))
  {
    MetadataLawful();
    MetadataPath(actions, m);
    PlainPath(METADATA, m, MetadataViews(actions, m), MetadataMoves(actions, m));
  }

  // ---------- deleted stays deleted ----------

  /** Whatever the guard and the faults do, a child poll either keeps a row or moves it by the row protocol. */
  lemma ChildPollCases<E(!new), Ev(!new)>(c: Child<E, Ev>, log: seq<SeqEvent<Ev>>, checkpoint: Option<int>, rows: map<int, E>,
                                          accounts: map<int, Account>, faults: Faults, id: int)
    requires AlwaysSeen(c.applier)
    ensures var next := Get(PolledTable(c, log, checkpoint, rows, accounts, faults), id);
            next == Get(rows, id) || next == PolledRow(c.applier, log, id, Position(checkpoint), Get(rows, id))
  {
  }

  lemma ClosedMetadataAbsent(m: int, v: View<Metadata, Metadatas.Event>)
    requires ClosedView(METADATA, m, v)
    ensures v.row == None
  {
    MetadataLawful();
    FoldLastRow(METADATA, Of(v.log, m), v.row);
  }

  lemma DeletedMetadataStep(s: State, action: Action, m: int)
    requires Enabled(s, action) && ClosedView(METADATA, m, MetadataView(s, m))
    requires action.CommitMetadata? || action.WriteMetadata? ==> action.metadata.envelope.id != m
    ensures ClosedView(METADATA, m, MetadataView(Step(s, action), m))
  {
    var v := MetadataView(s, m);
    MetadataLawful();
    ClosedMetadataAbsent(m, v);
    ClosedForGood(METADATA, m, v, MetadataMove(action, m));
    match action
    case PollAccounts(failed, now) => CascadeSparesLiving(s.tables, s.accountLog, s.accountCheckpoint, failed, now);
    case PollMetadata(faults) =>
      ChildPollCases(METADATA_CHILD, s.metadataLog, s.metadataCheckpoint, s.tables.metadata, s.tables.accounts, faults, m);
      ClosedForGood(METADATA, m, v, Polling(true));
      ClosedForGood(METADATA, m, v, Polling(false));
    case _ =>
  }

  /**
   No resurrection: once a deletion is behind the checkpoint and the row is gone, no run brings the row
   back, whatever else commits, polls, fails or re-reads, as long as nothing more is committed for it.
   */
  lemma {:induction false} NoResurrection(s: State, actions: seq<Action>, m: int)
    requires IsRun(s, actions) && ClosedView(METADATA, m, MetadataView(s, m))
    requires forall i :: 0 <= i < |actions| && (actions[i].CommitMetadata? || actions[i].WriteMetadata?) ==> actions[i].metadata.envelope.id != m
    ensures ClosedView(METADATA, m, MetadataView(After(s, actions), m))
    ensures m !in After(s, actions).tables.metadata
  {
    if actions != [] {
      var n := |actions| - 1;
      RunPrefix(s, actions, n);
      NoResurrection(s, actions[..n], m);
      DeletedMetadataStep(After(s, actions[..n]), actions[n], m);
    }
    ClosedMetadataAbsent(m, MetadataView(After(s, actions), m));
  }

  lemma ClosedAccountHidden(a: int, v: View<Account, Accounts.Event>, now: int)
    requires ClosedView(ACCOUNT, a, v)
    ensures v.row.Some? && v.row.value.deleted && NotExpired(v.row, now)
  {
    AccountLawful();
    FoldLastRow(ACCOUNT, Of(v.log, a), v.row);
    AccountFoldSome(None, Stream(v.log, a));
  }

  lemma DeactivatedStep(s: State, action: Action, a: int)
    requires Enabled(s, action) && ClosedView(ACCOUNT, a, AccountView(s, a))
    requires action.CommitAccount? || action.WriteAccount? ==> action.account.envelope.id != a
    ensures ClosedView(ACCOUNT, a, AccountView(Step(s, action), a))
    ensures Get(Step(s, action).tables.accounts, a) == Get(s.tables.accounts, a)
  {
    AccountLawful();
    ClosedAccountHidden(a, AccountView(s, a), if action.PollAccounts? then action.now else 0);
    AccountStepMoves(s, action, a);
    ClosedForGood(ACCOUNT, a, AccountView(s, a), AccountMove(action, a));
  }

  /** A deactivated account row likewise stands through every run that commits nothing more for the account. */
  lemma {:induction false} DeactivationStands(s: State, actions: seq<Action>, a: int)
    requires IsRun(s, actions) && ClosedView(ACCOUNT, a, AccountView(s, a))
    requires forall i :: 0 <= i < |actions| && (actions[i].CommitAccount? || actions[i].WriteAccount?) ==> actions[i].account.envelope.id != a
    ensures ClosedView(ACCOUNT, a, AccountView(After(s, actions), a))
    ensures IsDeleted(s.tables.accounts, a) && Get(After(s, actions).tables.accounts, a) == Get(s.tables.accounts, a)
  {
    ClosedAccountHidden(a, AccountView(s, a), 0);
    if actions != [] {
      var n := |actions| - 1;
      RunPrefix(s, actions, n);
      DeactivationStands(s, actions[..n], a);
      DeactivatedStep(After(s, actions[..n]), actions[n], a);
    }
  }

  /**
   A field deleted by the use case itself comes back if a poll reads its creation and not its deletion: here
   because more rows than one poll reads lie between the two.
   */
  lemma DirectDeletionExample(m: int, log: seq<SeqEvent<Metadatas.Event>>, between: seq<SeqEvent<Metadatas.Event>>)
    requires |between| >= BATCH_LIMIT && forall i :: 0 <= i < |between| ==> between[i].envelope.id != m
    requires |log| == |between| + 2 && log == [log[0]] + between + [log[|log| - 1]] && ValidLog(log)
    requires log[0].envelope.id == m && log[0].envelope.event.Created?
    requires log[|log| - 1].envelope == Envelope(m, Metadatas.Deleted, log[0].envelope.version + 1)
    ensures Fold(METADATA, None, Stream(log, m)) == Ok(None)
    ensures Polled(METADATA, m, View(log, None, None)).row.Some?
  {
    var first, last := log[0], log[|log| - 1];
    OfConcat([first] + between, [last], m);
    OfConcat([first], between, m);
    OfNone(between, m);
    OfAll([first], m);
    OfAll([last], m);
    assert Of(log, m) == [first] + [last];
    var envs := Stream(log, m);
    assert envs == [first.envelope] + [last.envelope] && [first.envelope] == [] + [first.envelope];
    FoldSnoc(METADATA, None, [], first.envelope);
    FoldSnoc(METADATA, None, [first.envelope], last.envelope);
    MetadataLawful();
    assert Below(log, -WINDOW) == 0;
    EndIsVisible<Metadatas.Event>(log, None);
    DirectDeletionComesBack(METADATA, m, View(log, None, None));
  }
}
