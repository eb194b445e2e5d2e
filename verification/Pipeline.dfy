/** The whole projection pipeline as a state machine: commits to three logs interleaved with polls of three projectors. */
module Pipeline {
  import opened Kernel
  import opened EventLog
  import opened RowProjection
  import opened Accounts
  import opened Profiles
  import opened Metadatas
  import opened ChildProjector
  import opened AccountProjector
  import opened ReadModelStore
  import opened Views

  datatype State = State(
    accountLog: seq<SeqEvent<Accounts.Event>>, profileLog: seq<SeqEvent<Profiles.Event>>, metadataLog: seq<SeqEvent<Metadatas.Event>>,
    accountCheckpoint: Option<int>, profileCheckpoint: Option<int>, metadataCheckpoint: Option<int>,
    tables: Tables)

  const INIT: State := State([], [], [], None, None, None, Tables(map[], map[], map[], map[], {}))

  /**
   A use case commits an event only, or also writes the row in the same transaction. Polls are atomic;
   `failed` and `faults` are whatever goes wrong in them. Follows also change from outside.
   */
  datatype Action =
    | CommitAccount(account: SeqEvent<Accounts.Event>)
    | CommitProfile(profile: SeqEvent<Profiles.Event>)
    | CommitMetadata(metadata: SeqEvent<Metadatas.Event>)
    | WriteAccount(account: SeqEvent<Accounts.Event>)
    | WriteProfile(profile: SeqEvent<Profiles.Event>)
    | WriteMetadata(metadata: SeqEvent<Metadatas.Event>)
    | PollAccounts(failed: set<int>, now: int)
    | PollProfiles(faults: Faults)
    | PollMetadata(faults: Faults)
    | ChangeFollows(follows: map<int, Follow>)

  /** A table after a use case rewrote the row of its event's aggregate. */
  function WrittenRows<E, Ev>(a: Applier<E, Ev>, log: seq<SeqEvent<Ev>>, rows: map<int, E>, e: SeqEvent<Ev>): map<int, E> {
    var written := WrittenRow(a, log, e);
    if written.Ok? then Put(rows, e.envelope.id, written.value) else rows
  }

  /** Creating an account links it to its creator. */
  function CreatorLink(e: SeqEvent<Accounts.Event>): set<Link> {
    if e.envelope.event.Created? then {Link(e.envelope.id, e.envelope.event.authAccountId)} else {}
  }

  function Step(s: State, action: Action): State {
    match action
    case CommitAccount(e) => s.(accountLog := Commit(s.accountLog, e))
    case CommitProfile(e) => s.(profileLog := Commit(s.profileLog, e))
    case CommitMetadata(e) => s.(metadataLog := Commit(s.metadataLog, e))
    case WriteAccount(e) =>
      s.(accountLog := Commit(s.accountLog, e),
         tables := s.tables.(accounts := WrittenRows(ACCOUNT, s.accountLog, s.tables.accounts, e), links := s.tables.links + CreatorLink(e)))
    case WriteProfile(e) =>
      s.(profileLog := Commit(s.profileLog, e), tables := s.tables.(profiles := WrittenRows(PROFILE, s.profileLog, s.tables.profiles, e)))
    case WriteMetadata(e) =>
      s.(metadataLog := Commit(s.metadataLog, e), tables := s.tables.(metadata := WrittenRows(METADATA, s.metadataLog, s.tables.metadata, e)))
    case PollAccounts(failed, now) =>
      s.(tables := PolledTables(s.tables, s.accountLog, s.accountCheckpoint, failed, now),
         accountCheckpoint := PolledCheckpoint(s.accountLog, s.accountCheckpoint))
    case PollProfiles(faults) =>
      s.(tables := s.tables.(profiles := PolledTable(PROFILE_CHILD, s.profileLog, s.profileCheckpoint, s.tables.profiles, s.tables.accounts, faults)),
         profileCheckpoint := PolledCheckpoint(s.profileLog, s.profileCheckpoint))
    case PollMetadata(faults) =>
      s.(tables := s.tables.(metadata := PolledTable(METADATA_CHILD, s.metadataLog, s.metadataCheckpoint, s.tables.metadata, s.tables.accounts, faults)),
         metadataCheckpoint := PolledCheckpoint(s.metadataLog, s.metadataCheckpoint))
    case ChangeFollows(follows) => s.(tables := s.tables.(follows := follows))
  }

  ghost predicate Enabled(s: State, action: Action) {
    match action
    case CommitAccount(e) => Fresh(s.accountLog, e)
    case CommitProfile(e) => Fresh(s.profileLog, e)
    case CommitMetadata(e) => Fresh(s.metadataLog, e)
    case WriteAccount(e) => AccountWritable(s, e)
    case WriteProfile(e) => ChildWritable(PROFILE_CHILD, s.profileLog, s.tables.profiles, s.tables.accounts, e)
    case WriteMetadata(e) => ChildWritable(METADATA_CHILD, s.metadataLog, s.tables.metadata, s.tables.accounts, e)
    case _ => true
  }

  /**
   A use case inserts the row of a new account, or updates that of an account whose row and stream are
   live; otherwise it fails as a whole.
   */
  ghost predicate AccountWritable(s: State, e: SeqEvent<Accounts.Event>) {
    var id, written := e.envelope.id, WrittenRow(ACCOUNT, s.accountLog, e);
    && Fresh(s.accountLog, e) && written.Ok? && written.value.Some? && !written.value.value.deleted
    && if e.envelope.event.Created? then id !in s.tables.accounts else id in s.tables.accounts && !s.tables.accounts[id].deleted
  }

  /** A use case inserts the row of a new child of a live account, or changes a row that exists. */
  ghost predicate ChildWritable<E, Ev>(c: Child<E, Ev>, log: seq<SeqEvent<Ev>>, rows: map<int, E>, accounts: map<int, Account>, e: SeqEvent<Ev>) {
    var id, parent := e.envelope.id, c.parentOf(e.envelope.event);
    && Fresh(log, e) && WrittenRow(c.applier, log, e).Ok?
    && if parent.Some? then id !in rows && parent.value in accounts && !accounts[parent.value].deleted else id in rows
  }

  function After(s: State, actions: seq<Action>): State {
    if actions == [] then s else Step(After(s, actions[..|actions| - 1]), actions[|actions| - 1])
  }

  lemma AfterOne(s: State, actions: seq<Action>, i: nat)
    requires i < |actions|
    ensures After(s, actions[..i + 1]) == Step(After(s, actions[..i]), actions[i])
  {
    assert actions[..i + 1][..i] == actions[..i];
  }

  lemma {:induction false} AfterConcat(s: State, xs: seq<Action>, ys: seq<Action>)
    ensures After(s, xs + ys) == After(After(s, xs), ys)
    decreases |ys|
  {
    if ys == [] {
      assert xs + ys == xs;
    } else {
      var n := |ys| - 1;
      AfterConcat(s, xs, ys[..n]);
      assert (xs + ys)[..|xs + ys| - 1] == xs + ys[..n];
    }
  }

  ghost predicate IsRun(s: State, actions: seq<Action>) {
    forall i :: 0 <= i < |actions| ==> Enabled(After(s, actions[..i]), actions[i])
  }

  lemma RunPrefix(s: State, actions: seq<Action>, n: nat)
    requires n <= |actions| && IsRun(s, actions)
    ensures IsRun(s, actions[..n])
  {
    forall i | 0 <= i < n ensures Enabled(After(s, actions[..n][..i]), actions[..n][i]) {
      assert actions[..n][..i] == actions[..i];
    }
  }

  // ---------- checkpoints ----------

  ghost predicate Sound(s: State) {
    && ValidLog(s.accountLog) && ValidCheckpoint(s.accountLog, s.accountCheckpoint)
    && ValidLog(s.profileLog) && ValidCheckpoint(s.profileLog, s.profileCheckpoint)
    && ValidLog(s.metadataLog) && ValidCheckpoint(s.metadataLog, s.metadataCheckpoint)
  }

  lemma StepKeepsSound(s: State, action: Action)
    requires Sound(s) && Enabled(s, action)
    ensures Sound(Step(s, action))
  {
    match action
    case CommitAccount(e) => CommitKeepsCheckpoint(s.accountLog, e, s.accountCheckpoint);
    case CommitProfile(e) => CommitKeepsCheckpoint(s.profileLog, e, s.profileCheckpoint);
    case CommitMetadata(e) => CommitKeepsCheckpoint(s.metadataLog, e, s.metadataCheckpoint);
    case WriteAccount(e) => CommitKeepsCheckpoint(s.accountLog, e, s.accountCheckpoint);
    case WriteProfile(e) => CommitKeepsCheckpoint(s.profileLog, e, s.profileCheckpoint);
    case WriteMetadata(e) => CommitKeepsCheckpoint(s.metadataLog, e, s.metadataCheckpoint);
    case PollAccounts(_, _) => CheckpointAdvances(s.accountLog, s.accountCheckpoint);
    case PollProfiles(_) => CheckpointAdvances(s.profileLog, s.profileCheckpoint);
    case PollMetadata(_) => CheckpointAdvances(s.metadataLog, s.metadataCheckpoint);
    case ChangeFollows(_) =>
  }

  /** In every reachable state each checkpoint is absent or names a committed row of its log. */
  lemma {:induction false} CheckpointSoundness(actions: seq<Action>)
    requires IsRun(INIT, actions)
    ensures Sound(After(INIT, actions))
  {
    if actions != [] {
      var n := |actions| - 1;
      RunPrefix(INIT, actions, n);
      CheckpointSoundness(actions[..n]);
      StepKeepsSound(After(INIT, actions[..n]), actions[n]);
    }
  }

  // ---------- cascade ----------

  predicate IsDeleted(accounts: map<int, Account>, a: int) {
    a in accounts && accounts[a].deleted
  }

  /** No child row of a deactivated account exists. */
  ghost predicate NoOrphans<E, Ev>(c: Child<E, Ev>, rows: map<int, E>, accounts: map<int, Account>) {
    forall k :: k in rows ==> !IsDeleted(accounts, c.parent(rows[k]))
  }

  ghost predicate CascadeComplete(t: Tables) {
    NoOrphans(PROFILE_CHILD, t.profiles, t.accounts) && NoOrphans(METADATA_CHILD, t.metadata, t.accounts)
  }

  /** The creation events of one child all name the same account. */
  ghost predicate OneOwner<E, Ev>(c: Child<E, Ev>, log: seq<SeqEvent<Ev>>) {
    forall i, j :: 0 <= i < |log| && 0 <= j < |log| && log[i].envelope.id == log[j].envelope.id
                   && c.parentOf(log[i].envelope.event).Some? && c.parentOf(log[j].envelope.event).Some?
                   ==> c.parentOf(log[i].envelope.event) == c.parentOf(log[j].envelope.event)
  }

  /** Some committed creation event names this account as the parent of this child. */
  ghost predicate NamedParent<E, Ev>(c: Child<E, Ev>, log: seq<SeqEvent<Ev>>, id: int, parent: int) {
    exists i :: 0 <= i < |log| && log[i].envelope.id == id && c.parentOf(log[i].envelope.event) == Some(parent)
  }

  ghost predicate Owned<E, Ev>(c: Child<E, Ev>, log: seq<SeqEvent<Ev>>, rows: map<int, E>) {
    forall k :: k in rows ==> NamedParent(c, log, k, c.parent(rows[k]))
  }

  /** A creation event sets the parent; every other event keeps it. */
  ghost predicate ParentLawful<E(!new), Ev(!new)>(c: Child<E, Ev>) {
    forall x: Option<E>, env: Envelope<Ev> {:trigger c.applier.apply(x, env)} ::
      c.applier.apply(x, env).Ok? && c.applier.apply(x, env).value.Some? ==>
        var y := c.applier.apply(x, env).value.value;
        if c.parentOf(env.event).Some? then c.parent(y) == c.parentOf(env.event).value
        else x.Some? && c.parent(y) == c.parent(x.value)
  }

  lemma ProfileParentLawful()
    ensures ParentLawful(PROFILE_CHILD)
  {
  }

  lemma MetadataParentLawful()
    ensures ParentLawful(METADATA_CHILD)
  {
  }

  /** A folded child inherits its parent from the row it started from or from a creation event it folded. */
  lemma {:induction false} FoldParent<E(!new), Ev(!new)>(c: Child<E, Ev>, existing: Option<E>, events: seq<Envelope<Ev>>)
    requires ParentLawful(c)
    requires Fold(c.applier, existing, events).Ok? && Fold(c.applier, existing, events).value.Some?
    ensures var y := Fold(c.applier, existing, events).value.value;
            || (existing.Some? && c.parent(y) == c.parent(existing.value))
            || (exists i :: 0 <= i < |events| && c.parentOf(events[i].event) == Some(c.parent(y)))
    decreases |events|
  {
    if events != [] {
      var next := c.applier.apply(existing, events[0]).value;
      FoldParent(c, next, events[1..]);
      var y := Fold(c.applier, existing, events).value.value;
      if !(next.Some? && c.parent(y) == c.parent(next.value)) {
        var i :| 0 <= i < |events[1..]| && c.parentOf(events[1..][i].event) == Some(c.parent(y));
        assert events[i + 1] == events[1..][i];
      }
    }
  }

  lemma {:induction false} FirstParentFound<E, Ev>(c: Child<E, Ev>, events: seq<Envelope<Ev>>)
    requires exists i :: 0 <= i < |events| && c.parentOf(events[i].event).Some?
    ensures FirstParent(c, events).Some?
    ensures exists i :: 0 <= i < |events| && c.parentOf(events[i].event) == FirstParent(c, events)
  {
    if c.parentOf(events[0].event).None? {
      var i :| 0 <= i < |events| && c.parentOf(events[i].event).Some?;
      assert events[1..][i - 1] == events[i];
      FirstParentFound(c, events[1..]);
      var j :| 0 <= j < |events[1..]| && c.parentOf(events[1..][j].event) == FirstParent(c, events[1..]);
      assert events[j + 1] == events[1..][j];
    }
  }

  /** Where in the log an envelope stands that a poll folds. */
  lemma SortedIndex<Ev>(log: seq<SeqEvent<Ev>>, checkpoint: int, id: int, i: nat) returns (n: nat)
    requires i < |SortByVersion(Stream(Window(log, checkpoint), id))|
    ensures First(log, checkpoint) <= n < |log| && log[n].envelope.id == id
    ensures log[n].envelope == SortByVersion(Stream(Window(log, checkpoint), id))[i]
  {
    var batch := Window(log, checkpoint);
    var group := Stream(batch, id);
    SortSorts(group);
    assert SortByVersion(group)[i] in multiset(SortByVersion(group));
    assert SortByVersion(group)[i] in group;
    var k :| 0 <= k < |group| && group[k] == SortByVersion(group)[i];
    n := OfAt(batch, id, k);
    assert log[First(log, checkpoint) + n] == batch[n];
    n := First(log, checkpoint) + n;
  }

  /** A creation event folded for a child was committed for it. */
  lemma SortedFromLog<E, Ev>(c: Child<E, Ev>, log: seq<SeqEvent<Ev>>, checkpoint: int, id: int, i: nat, parent: int)
    requires var sorted := SortByVersion(Stream(Window(log, checkpoint), id));
             i < |sorted| && c.parentOf(sorted[i].event) == Some(parent)
    ensures NamedParent(c, log, id, parent)
  {
    var n := SortedIndex(log, checkpoint, id, i);
  }

  lemma SameParent<E, Ev>(c: Child<E, Ev>, log: seq<SeqEvent<Ev>>, id: int, p: int, q: int)
    requires OneOwner(c, log) && NamedParent(c, log, id, p) && NamedParent(c, log, id, q)
    ensures p == q
  {
  }

  lemma {:induction false} NewerSubset<Ev>(version: int, events: seq<Envelope<Ev>>, i: nat)
    requires i < |NewerThan(version, events)|
    ensures exists j :: 0 <= j < |events| && events[j] == NewerThan(version, events)[i]
  {
    if events[0].version > version && i == 0 {
      assert events[0] == NewerThan(version, events)[0];
    } else {
      var k := if events[0].version > version then i - 1 else i;
      NewerSubset(version, events[1..], k);
      var j :| 0 <= j < |events[1..]| && events[1..][j] == NewerThan(version, events[1..])[k];
      assert events[j + 1] == events[1..][j];
    }
  }

  /** The parent of a row that a poll wrote was named by a committed creation event. */
  lemma WrittenParent<E(!new), Ev(!new)>(c: Child<E, Ev>, log: seq<SeqEvent<Ev>>, checkpoint: int, id: int, row: Option<E>)
    requires ParentLawful(c)
    requires row.Some? ==> NamedParent(c, log, id, c.parent(row.value))
    ensures var sorted := SortByVersion(Stream(Window(log, checkpoint), id));
            var next := NextRow(c.applier, row, row, sorted);
            next.Some? ==> NamedParent(c, log, id, c.parent(next.value))
  {
    var sorted := SortByVersion(Stream(Window(log, checkpoint), id));
    var pending := Pending(c.applier, row, sorted);
    var next := NextRow(c.applier, row, row, sorted);
    if next.Some? && next != row {
      FoldParent(c, row, pending);
      var y := Fold(c.applier, row, pending).value.value;
      if !(row.Some? && c.parent(y) == c.parent(row.value)) {
        var i :| 0 <= i < |pending| && c.parentOf(pending[i].event) == Some(c.parent(y));
        if row.Some? { NewerSubset(c.applier.version(row.value), sorted, i); }
        var j :| 0 <= j < |sorted| && sorted[j] == pending[i];
        SortedFromLog(c, log, checkpoint, id, j, c.parent(y));
      }
    }
  }

  /** A failed parent lookup lets a group through that would materialize a row under a deactivated account. */
  ghost predicate Blind<E, Ev>(c: Child<E, Ev>, batch: seq<SeqEvent<Ev>>, rows: map<int, E>, accounts: map<int, Account>, faults: Faults, id: int) {
    var sorted := SortByVersion(Stream(batch, id));
    var parent := FirstParent(c, sorted);
    && id in Ids(batch) && id !in faults.writes && id !in rows
    && Fold(c.applier, None, sorted).Ok? && Fold(c.applier, None, sorted).value.Some?
    && parent.Some? && parent.value in faults.lookups && IsDeleted(accounts, parent.value)
  }

  ghost predicate NoneBlind<E, Ev>(c: Child<E, Ev>, log: seq<SeqEvent<Ev>>, checkpoint: Option<int>, rows: map<int, E>, accounts: map<int, Account>, faults: Faults) {
    forall id :: id in Ids(Window(log, Position(checkpoint))) ==> !Blind(c, Window(log, Position(checkpoint)), rows, accounts, faults, id)
  }

  /** The parent of a freshly folded child is the one that the guard looks up. */
  lemma FoldedParent<E(!new), Ev(!new)>(c: Child<E, Ev>, log: seq<SeqEvent<Ev>>, checkpoint: int, id: int)
    requires ParentLawful(c) && OneOwner(c, log)
    requires var folded := Fold(c.applier, None, SortByVersion(Stream(Window(log, checkpoint), id)));
             folded.Ok? && folded.value.Some?
    ensures var sorted := SortByVersion(Stream(Window(log, checkpoint), id));
            FirstParent(c, sorted) == Some(c.parent(Fold(c.applier, None, sorted).value.value))
  {
    var sorted := SortByVersion(Stream(Window(log, checkpoint), id));
    var y := Fold(c.applier, None, sorted).value.value;
    FoldParent(c, None, sorted);
    var i :| 0 <= i < |sorted| && c.parentOf(sorted[i].event) == Some(c.parent(y));
    FirstParentFound(c, sorted);
    var j :| 0 <= j < |sorted| && c.parentOf(sorted[j].event) == FirstParent(c, sorted);
    SortedFromLog(c, log, checkpoint, id, i, c.parent(y));
    SortedFromLog(c, log, checkpoint, id, j, FirstParent(c, sorted).value);
    SameParent(c, log, id, c.parent(y), FirstParent(c, sorted).value);
  }

  /** A row that appears in a poll is an orphan exactly when its group was blind. */
  lemma FreshOrphan<E(!new), Ev(!new)>(c: Child<E, Ev>, log: seq<SeqEvent<Ev>>, checkpoint: int, rows: map<int, E>, accounts: map<int, Account>, faults: Faults, id: int)
    requires ParentLawful(c) && OneOwner(c, log) && id !in rows
    ensures var batch := Window(log, checkpoint);
            var next := ChildEntry(c, batch, rows, accounts, faults, id);
            Blind(c, batch, rows, accounts, faults, id) <==> next.Some? && IsDeleted(accounts, c.parent(next.value))
  {
    var batch := Window(log, checkpoint);
    var sorted := SortByVersion(Stream(batch, id));
    var folded := Fold(c.applier, None, sorted);
    if folded.Ok? && folded.value.Some? { FoldedParent(c, log, checkpoint, id); }
  }

  /** A row that was there keeps its parent. */
  lemma OldParent<E(!new), Ev(!new)>(c: Child<E, Ev>, log: seq<SeqEvent<Ev>>, checkpoint: int, rows: map<int, E>, accounts: map<int, Account>, faults: Faults, id: int)
    requires ParentLawful(c) && OneOwner(c, log) && Owned(c, log, rows) && id in rows
    ensures var next := ChildEntry(c, Window(log, checkpoint), rows, accounts, faults, id);
            next.Some? ==> c.parent(next.value) == c.parent(rows[id])
  {
    var next := ChildEntry(c, Window(log, checkpoint), rows, accounts, faults, id);
    WrittenParent(c, log, checkpoint, id, Some(rows[id]));
    if next.Some? && next.value != rows[id] {
      SameParent(c, log, id, c.parent(rows[id]), c.parent(next.value));
    }
  }

  lemma ChildPollOwned<E(!new), Ev(!new)>(c: Child<E, Ev>, log: seq<SeqEvent<Ev>>, checkpoint: Option<int>, rows: map<int, E>, accounts: map<int, Account>, faults: Faults)
    requires ParentLawful(c) && Owned(c, log, rows)
    ensures Owned(c, log, PolledTable(c, log, checkpoint, rows, accounts, faults))
  {
    var next := PolledTable(c, log, checkpoint, rows, accounts, faults);
    forall k | k in next ensures NamedParent(c, log, k, c.parent(next[k])) {
      assert Get(next, k) == ChildEntry(c, Window(log, Position(checkpoint)), rows, accounts, faults, k);
      WrittenParent(c, log, Position(checkpoint), k, Get(rows, k));
    }
  }

  /** Whatever writes fail, a child poll leaves no orphan exactly when no group of its batch was blind. */
  lemma ChildPollNoOrphans<E(!new), Ev(!new)>(c: Child<E, Ev>, log: seq<SeqEvent<Ev>>, checkpoint: Option<int>, rows: map<int, E>, accounts: map<int, Account>, faults: Faults)
    requires ParentLawful(c) && OneOwner(c, log) && Owned(c, log, rows) && NoOrphans(c, rows, accounts)
    ensures NoOrphans(c, PolledTable(c, log, checkpoint, rows, accounts, faults), accounts) <==>
            NoneBlind(c, log, checkpoint, rows, accounts, faults)
  {
    var at := Position(checkpoint);
    var batch := Window(log, at);
    var next := PolledTable(c, log, checkpoint, rows, accounts, faults);
    forall k ensures Blind(c, batch, rows, accounts, faults, k) <==> k in next && IsDeleted(accounts, c.parent(next[k])) {
      assert Get(next, k) == ChildEntry(c, batch, rows, accounts, faults, k);
      if k in rows { OldParent(c, log, at, rows, accounts, faults, k); } else { FreshOrphan(c, log, at, rows, accounts, faults, k); }
    }
  }

  /** An account poll removes the children of every account that it deactivates. */
  lemma AccountPollNoOrphans(t: Tables, batch: seq<SeqEvent<Accounts.Event>>, ids: set<int>, now: int)
    requires CascadeComplete(t)
    ensures CascadeComplete(AfterPlan(t, Plan(t, batch, ids, now)))
  {
    var after := AfterPlan(t, Plan(t, batch, ids, now));
    forall a | IsDeleted(after.accounts, a) && !IsDeleted(t.accounts, a)
      ensures forall p :: p in after.profiles ==> after.profiles[p].accountId != a
      ensures forall m :: m in after.metadata ==> after.metadata[m].accountId != a
    {
      CascadeAtomic(t, batch, ids, now, a);
    }
  }

  ghost predicate Ownership(s: State) {
    OneOwner(PROFILE_CHILD, s.profileLog) && OneOwner(METADATA_CHILD, s.metadataLog)
  }

  ghost predicate CascadeInvariant(s: State) {
    && CascadeComplete(s.tables)
    && Owned(PROFILE_CHILD, s.profileLog, s.tables.profiles)
    && Owned(METADATA_CHILD, s.metadataLog, s.tables.metadata)
  }

  ghost predicate LookupsWork(s: State, action: Action) {
    match action
    case PollProfiles(faults) => NoneBlind(PROFILE_CHILD, s.profileLog, s.profileCheckpoint, s.tables.profiles, s.tables.accounts, faults)
    case PollMetadata(faults) => NoneBlind(METADATA_CHILD, s.metadataLog, s.metadataCheckpoint, s.tables.metadata, s.tables.accounts, faults)
    case _ => true
  }

  /** Every committed row stays committed. */
  lemma CommitKeepsRows<Ev>(log: seq<SeqEvent<Ev>>, e: SeqEvent<Ev>, i: nat) returns (j: nat)
    requires i < |log|
    ensures j < |Commit(log, e)| && Commit(log, e)[j] == log[i]
  {
    j := if i < Below(log, e.seqNo) then i else i + 1;
  }

  lemma CommitKeepsOwned<E, Ev>(c: Child<E, Ev>, log: seq<SeqEvent<Ev>>, e: SeqEvent<Ev>, rows: map<int, E>)
    requires Owned(c, log, rows)
    ensures Owned(c, Commit(log, e), rows)
  {
    forall k | k in rows ensures NamedParent(c, Commit(log, e), k, c.parent(rows[k])) {
      var i :| 0 <= i < |log| && log[i].envelope.id == k && c.parentOf(log[i].envelope.event) == Some(c.parent(rows[k]));
      var j := CommitKeepsRows(log, e, i);
    }
  }

  lemma CommitNeedsOneOwner<E, Ev>(c: Child<E, Ev>, log: seq<SeqEvent<Ev>>, e: SeqEvent<Ev>)
    requires OneOwner(c, Commit(log, e))
    ensures OneOwner(c, log)
  {
    forall i, j | 0 <= i < |log| && 0 <= j < |log| && log[i].envelope.id == log[j].envelope.id
                  && c.parentOf(log[i].envelope.event).Some? && c.parentOf(log[j].envelope.event).Some?
      ensures c.parentOf(log[i].envelope.event) == c.parentOf(log[j].envelope.event)
    {
      var p := CommitKeepsRows(log, e, i);
      var q := CommitKeepsRows(log, e, j);
    }
  }

  /** The parent of a row that a use case wrote was named by a committed creation event. */
  lemma RewrittenParent<E(!new), Ev(!new)>(c: Child<E, Ev>, log: seq<SeqEvent<Ev>>, e: SeqEvent<Ev>)
    requires ParentLawful(c) && WrittenRow(c.applier, log, e).Ok? && WrittenRow(c.applier, log, e).value.Some?
    ensures NamedParent(c, Commit(log, e), e.envelope.id, c.parent(WrittenRow(c.applier, log, e).value.value))
  {
    var id, next := e.envelope.id, Commit(log, e);
    var stream := Stream(next, id);
    var sorted := SortByVersion(stream);
    var y := WrittenRow(c.applier, log, e).value.value;
    FoldParent(c, None, sorted);
    var i :| 0 <= i < |sorted| && c.parentOf(sorted[i].event) == Some(c.parent(y));
    SortSorts(stream);
    assert sorted[i] in multiset(sorted);
    assert sorted[i] in stream;
    var k :| 0 <= k < |stream| && stream[k] == sorted[i];
    var n := OfAt(next, id, k);
  }

  lemma WriteKeepsOwned<E(!new), Ev(!new)>(c: Child<E, Ev>, log: seq<SeqEvent<Ev>>, rows: map<int, E>, e: SeqEvent<Ev>)
    requires ParentLawful(c) && Owned(c, log, rows)
    ensures Owned(c, Commit(log, e), WrittenRows(c.applier, log, rows, e))
  {
    CommitKeepsOwned(c, log, e, rows);
    if WrittenRow(c.applier, log, e).Ok? && WrittenRow(c.applier, log, e).value.Some? { RewrittenParent(c, log, e); }
  }

  /**
   A use case that writes a child row itself. Whatever it checked before, the write leaves an orphan exactly if
   it materializes a new child and the account that the child names is deactivated by then.
   */
  lemma WriteOrphansExactly<E(!new), Ev(!new)>(c: Child<E, Ev>, log: seq<SeqEvent<Ev>>, rows: map<int, E>, accounts: map<int, Account>, e: SeqEvent<Ev>)
    requires ParentLawful(c) && OneOwner(c, Commit(log, e)) && Owned(c, log, rows) && NoOrphans(c, rows, accounts)
    requires WrittenRow(c.applier, log, e).Ok? && (c.parentOf(e.envelope.event).Some? <==> e.envelope.id !in rows)
    ensures var parent := c.parentOf(e.envelope.event);
            NoOrphans(c, WrittenRows(c.applier, log, rows, e), accounts) <==>
            !(parent.Some? && WrittenRow(c.applier, log, e).value.Some? && IsDeleted(accounts, parent.value))
  {
    var id, next := e.envelope.id, Commit(log, e);
    var written, after := WrittenRow(c.applier, log, e).value, WrittenRows(c.applier, log, rows, e);
    CommitKeepsOwned(c, log, e, rows);
    if written.Some? {
      RewrittenParent(c, log, e);
      if id in rows {
        SameParent(c, next, id, c.parent(written.value), c.parent(rows[id]));
      } else {
        assert next[Below(log, e.seqNo)] == e;
        SameParent(c, next, id, c.parent(written.value), c.parentOf(e.envelope.event).value);
        assert id in after && after[id] == written.value;
      }
    }
  }

  lemma WriteNoOrphans<E(!new), Ev(!new)>(c: Child<E, Ev>, log: seq<SeqEvent<Ev>>, rows: map<int, E>, accounts: map<int, Account>, e: SeqEvent<Ev>)
    requires ParentLawful(c) && OneOwner(c, Commit(log, e)) && Owned(c, log, rows) && NoOrphans(c, rows, accounts)
    requires ChildWritable(c, log, rows, accounts, e)
    ensures NoOrphans(c, WrittenRows(c.applier, log, rows, e), accounts)
  {
    WriteOrphansExactly(c, log, rows, accounts, e);
  }

  lemma StepKeepsCascade(s: State, action: Action)
    requires CascadeInvariant(s) && Ownership(s) && Ownership(Step(s, action)) && LookupsWork(s, action) && Enabled(s, action)
    ensures CascadeInvariant(Step(s, action))
  {
    match action
    case CommitAccount(_) =>
    case CommitProfile(e) => CommitKeepsOwned(PROFILE_CHILD, s.profileLog, e, s.tables.profiles);
    case CommitMetadata(e) => CommitKeepsOwned(METADATA_CHILD, s.metadataLog, e, s.tables.metadata);
    case WriteAccount(e) => assert forall a :: IsDeleted(Step(s, action).tables.accounts, a) ==> IsDeleted(s.tables.accounts, a);
    case WriteProfile(e) =>
      ProfileParentLawful();
      WriteKeepsOwned(PROFILE_CHILD, s.profileLog, s.tables.profiles, e);
      WriteNoOrphans(PROFILE_CHILD, s.profileLog, s.tables.profiles, s.tables.accounts, e);
    case WriteMetadata(e) =>
      MetadataParentLawful();
      WriteKeepsOwned(METADATA_CHILD, s.metadataLog, s.tables.metadata, e);
      WriteNoOrphans(METADATA_CHILD, s.metadataLog, s.tables.metadata, s.tables.accounts, e);
    case PollAccounts(failed, now) =>
      var batch := Window(s.accountLog, Position(s.accountCheckpoint));
      AccountPollNoOrphans(s.tables, batch, Ids(batch) - failed, now);
    case PollProfiles(faults) =>
      ProfileParentLawful();
      ChildPollOwned(PROFILE_CHILD, s.profileLog, s.profileCheckpoint, s.tables.profiles, s.tables.accounts, faults);
      ChildPollNoOrphans(PROFILE_CHILD, s.profileLog, s.profileCheckpoint, s.tables.profiles, s.tables.accounts, faults);
    case PollMetadata(faults) =>
      MetadataParentLawful();
      ChildPollOwned(METADATA_CHILD, s.metadataLog, s.metadataCheckpoint, s.tables.metadata, s.tables.accounts, faults);
      ChildPollNoOrphans(METADATA_CHILD, s.metadataLog, s.metadataCheckpoint, s.tables.metadata, s.tables.accounts, faults);
    case ChangeFollows(_) =>
  }

  lemma StepNeedsOwnership(s: State, action: Action)
    requires Ownership(Step(s, action))
    ensures Ownership(s)
  {
    match action
    case CommitProfile(e) => CommitNeedsOneOwner(PROFILE_CHILD, s.profileLog, e);
    case CommitMetadata(e) => CommitNeedsOneOwner(METADATA_CHILD, s.metadataLog, e);
    case WriteProfile(e) => CommitNeedsOneOwner(PROFILE_CHILD, s.profileLog, e);
    case WriteMetadata(e) => CommitNeedsOneOwner(METADATA_CHILD, s.metadataLog, e);
    case _ =>
  }

  /**
   Cascade safety over every run: whatever commits and polls interleave and whatever writes fail, no
   profile or metadata row of a deactivated account exists.
   */
  lemma {:induction false} CascadeSafety(actions: seq<Action>)
    requires IsRun(INIT, actions)
    requires forall i :: 0 <= i < |actions| ==> LookupsWork(After(INIT, actions[..i]), actions[i])
    requires Ownership(After(INIT, actions))
    ensures CascadeInvariant(After(INIT, actions))
  {
    if actions != [] {
      var n := |actions| - 1;
      var s := After(INIT, actions[..n]);
      StepNeedsOwnership(s, actions[n]);
      RunPrefix(INIT, actions, n);
      forall i | 0 <= i < n ensures LookupsWork(After(INIT, actions[..n][..i]), actions[..n][i]) {
        assert actions[..n][..i] == actions[..i];
      }
      CascadeSafety(actions[..n]);
      StepKeepsCascade(s, actions[n]);
    }
  }

  lemma {:induction false} OneRow(log: seq<SeqEvent<Metadatas.Event>>)
    requires |log| == 1 && log[0].seqNo >= 1
    ensures Window(log, 0) == log && Ids(log) == {log[0].envelope.id}
    ensures SortByVersion(Stream(log, log[0].envelope.id)) == [log[0].envelope]
  {
    var env := log[0].envelope;
    assert log[1..] == [] && Of(log[1..], env.id) == [];
    assert Of(log, env.id) == log;
    assert Stream(log, env.id) == [env];
    assert [env][1..] == [] && SortByVersion([env][1..]) == [];
    assert log[0].envelope.id in Ids(log);
  }

  /** One failed parent lookup is enough to bring back a row that a cascade removed. */
  lemma LookupFaultResurrects(t: Tables, a: int, m: int)
    requires IsDeleted(t.accounts, a) && m !in t.metadata
    ensures var log := [SeqEvent(1, Envelope(m, Metadatas.Created(a, "label", "content", "nanoid"), 1))];
            !NoOrphans(METADATA_CHILD, PolledTable(METADATA_CHILD, log, None, t.metadata, t.accounts, Faults({}, {a})), t.accounts)
  {
    var env := Envelope(m, Metadatas.Created(a, "label", "content", "nanoid"), 1);
    var log := [SeqEvent(1, env)];
    OneRow(log);
    assert [env][1..] == [];
    assert Fold(METADATA, None, [env]) == Fold(METADATA, Metadatas.Apply(None, env).value, []);
    var next := PolledTable(METADATA_CHILD, log, None, t.metadata, t.accounts, Faults({}, {a}));
    assert Get(next, m) == ChildEntry(METADATA_CHILD, log, t.metadata, t.accounts, Faults({}, {a}), m);
    assert next[m].accountId == a;
  }

  // ---------- links ----------

  /** A committed creation of the account names the auth account. */
  ghost predicate NamedCreator(log: seq<SeqEvent<Accounts.Event>>, l: Link) {
    exists i :: 0 <= i < |log| && log[i].envelope.id == l.account && log[i].envelope.event.Created? && log[i].envelope.event.authAccountId == l.auth
  }

  ghost predicate LinksNamed(s: State) {
    forall l :: l in s.tables.links ==> NamedCreator(s.accountLog, l)
  }

  lemma CommitKeepsCreators(log: seq<SeqEvent<Accounts.Event>>, e: SeqEvent<Accounts.Event>, l: Link)
    requires NamedCreator(log, l)
    ensures NamedCreator(Commit(log, e), l)
  {
    var i :| 0 <= i < |log| && log[i].envelope.id == l.account && log[i].envelope.event.Created? && log[i].envelope.event.authAccountId == l.auth;
    var _ := CommitKeepsRows(log, e, i);
  }

  lemma PolledLinkNamed(t: Tables, log: seq<SeqEvent<Accounts.Event>>, checkpoint: Option<int>, failed: set<int>, now: int, l: Link)
    requires l in PolledTables(t, log, checkpoint, failed, now).links
    ensures l in t.links || NamedCreator(log, l)
  {
    LinksExactly(t, log, checkpoint, failed, now, l);
    if l !in t.links {
      var sorted := SortByVersion(Stream(Window(log, Position(checkpoint)), l.account));
      var i :| FirstCreation(sorted, i) && sorted[i].event.authAccountId == l.auth;
      var n := SortedIndex(log, Position(checkpoint), l.account, i);
    }
  }

  lemma StepKeepsLinks(s: State, action: Action)
    requires LinksNamed(s)
    ensures LinksNamed(Step(s, action)) && s.tables.links <= Step(s, action).tables.links
    ensures action.WriteAccount? && action.account.envelope.event.Created? ==>
              Link(action.account.envelope.id, action.account.envelope.event.authAccountId) in Step(s, action).tables.links
  {
    var next := Step(s, action);
    match action
    case CommitAccount(e) => forall l | l in next.tables.links ensures NamedCreator(next.accountLog, l) { CommitKeepsCreators(s.accountLog, e, l); }
    case WriteAccount(e) =>
      forall l | l in next.tables.links ensures NamedCreator(next.accountLog, l) {
        if l in s.tables.links { CommitKeepsCreators(s.accountLog, e, l); } else { assert next.accountLog[Below(s.accountLog, e.seqNo)] == e; }
      }
    case PollAccounts(failed, now) =>
      forall l | l in next.tables.links ensures NamedCreator(next.accountLog, l) {
        PolledLinkNamed(s.tables, s.accountLog, s.accountCheckpoint, failed, now, l);
      }
    case _ =>
  }

  /** In every reachable state each auth link is the one that a committed creation of its account names, and no step removes a link. */
  lemma {:induction false} LinksNameCreators(actions: seq<Action>)
    ensures LinksNamed(After(INIT, actions))
  {
    if actions != [] {
      LinksNameCreators(actions[..|actions| - 1]);
      StepKeepsLinks(After(INIT, actions[..|actions| - 1]), actions[|actions| - 1]);
    }
  }
}
