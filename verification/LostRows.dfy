/** Rows that no poll repairs: groups that left the window unprojected, and lapsed suspensions that were lifted. */
module LostRows {
  import opened Kernel
  import opened EventLog
  import opened RowProjection
  import opened Accounts
  import opened Profiles
  import opened Metadatas
  import opened ChildProjector
  import opened AccountProjector
  import opened AccountRows
  import opened ReadModelStore
  import opened Views
  import opened Pipeline
  import opened Convergence

  // ---------- creations that left the window ----------

  /** Only a creation event is accepted on nothing. */
  ghost predicate Founded<E(!new), Ev(!new)>(c: Child<E, Ev>) {
    forall env: Envelope<Ev> {:trigger c.applier.apply(None, env)} :: c.applier.apply(None, env).Ok? ==> c.parentOf(env.event).Some?
  }

  /** Every creation of the child lies behind the window. */
  ghost predicate LeftWindow<E, Ev>(c: Child<E, Ev>, log: seq<SeqEvent<Ev>>, checkpoint: Option<int>, id: int) {
    forall i :: 0 <= i < |log| && log[i].envelope.id == id && c.parentOf(log[i].envelope.event).Some? ==>
      log[i].seqNo <= Position(checkpoint) - WINDOW
  }

  /** No poll materializes an absent row whose creation has left the window. */
  lemma LostPoll<E(!new), Ev(!new)>(c: Child<E, Ev>, log: seq<SeqEvent<Ev>>, checkpoint: Option<int>, rows: map<int, E>,
                                    accounts: map<int, Account>, faults: Faults, id: int)
    requires Founded(c) && ValidLog(log) && ValidCheckpoint(log, checkpoint) && LeftWindow(c, log, checkpoint, id) && id !in rows
    ensures id !in PolledTable(c, log, checkpoint, rows, accounts, faults)
    ensures LeftWindow(c, log, PolledCheckpoint(log, checkpoint), id)
  {
    var at := Position(checkpoint);
    CheckpointAdvances(log, checkpoint);
    LostNext(c, log, checkpoint, id);
    assert Get(PolledTable(c, log, checkpoint, rows, accounts, faults), id) == ChildEntry(c, Window(log, at), rows, accounts, faults, id);
  }

  lemma LostNext<E(!new), Ev(!new)>(c: Child<E, Ev>, log: seq<SeqEvent<Ev>>, checkpoint: Option<int>, id: int)
    requires Founded(c) && ValidLog(log) && LeftWindow(c, log, checkpoint, id)
    ensures NextRow(c.applier, None, None, SortByVersion(Stream(Window(log, Position(checkpoint)), id))) == None
  {
    var at := Position(checkpoint);
    var sorted := SortByVersion(Stream(Window(log, at), id));
    if sorted != [] {
      var n := SortedIndex(log, at, id, 0);
      assert log[n].seqNo > at - WINDOW;
      assert c.applier.apply(None, sorted[0]).Err?;
    }
  }

  lemma CommitStaysLeft<E, Ev>(c: Child<E, Ev>, log: seq<SeqEvent<Ev>>, checkpoint: Option<int>, id: int, e: SeqEvent<Ev>)
    requires LeftWindow(c, log, checkpoint, id) && (e.envelope.id == id ==> c.parentOf(e.envelope.event).None?)
    ensures LeftWindow(c, Commit(log, e), checkpoint, id)
  {
    var next, at := Commit(log, e), Below(log, e.seqNo);
    forall i | 0 <= i < |next| ensures next[i] == if i < at then log[i] else if i == at then e else log[i - 1] {}
  }

  ghost predicate LostMetadata(s: State, m: int) {
    m !in s.tables.metadata && LeftWindow(METADATA_CHILD, s.metadataLog, s.metadataCheckpoint, m)
  }

  ghost predicate LostProfile(s: State, p: int) {
    p !in s.tables.profiles && LeftWindow(PROFILE_CHILD, s.profileLog, s.profileCheckpoint, p)
  }

  /** The action creates this metadata entry anew. */
  predicate CreatesMetadata(action: Action, m: int) {
    (action.CommitMetadata? || action.WriteMetadata?) && action.metadata.envelope.id == m && action.metadata.envelope.event.Created?
  }

  predicate CreatesProfile(action: Action, p: int) {
    (action.CommitProfile? || action.WriteProfile?) && action.profile.envelope.id == p && action.profile.envelope.event.Created?
  }

  lemma LostMetadataStep(s: State, action: Action, m: int)
    requires Sound(s) && Enabled(s, action) && LostMetadata(s, m) && !CreatesMetadata(action, m)
    ensures LostMetadata(Step(s, action), m)
  {
    match action
    case CommitMetadata(e) => CommitStaysLeft(METADATA_CHILD, s.metadataLog, s.metadataCheckpoint, m, e);
    case WriteMetadata(e) => CommitStaysLeft(METADATA_CHILD, s.metadataLog, s.metadataCheckpoint, m, e);
    case PollAccounts(failed, now) => CascadeSparesLiving(s.tables, s.accountLog, s.accountCheckpoint, failed, now);
    case PollMetadata(faults) =>
      LostPoll(METADATA_CHILD, s.metadataLog, s.metadataCheckpoint, s.tables.metadata, s.tables.accounts, faults, m);
    case _ =>
  }

  lemma LostProfileStep(s: State, action: Action, p: int)
    requires Sound(s) && Enabled(s, action) && LostProfile(s, p) && !CreatesProfile(action, p)
    ensures LostProfile(Step(s, action), p)
  {
    match action
    case CommitProfile(e) => CommitStaysLeft(PROFILE_CHILD, s.profileLog, s.profileCheckpoint, p, e);
    case WriteProfile(e) => CommitStaysLeft(PROFILE_CHILD, s.profileLog, s.profileCheckpoint, p, e);
    case PollAccounts(failed, now) => CascadeSparesLiving(s.tables, s.accountLog, s.accountCheckpoint, failed, now);
    case PollProfiles(faults) =>
      LostPoll(PROFILE_CHILD, s.profileLog, s.profileCheckpoint, s.tables.profiles, s.tables.accounts, faults, p);
    case _ =>
  }

  /** A deactivated account whose creations all lie behind the window. */
  ghost predicate LostAccount(s: State, a: int) {
    IsDeleted(s.tables.accounts, a) && CreationsBehind(s.accountLog, a, Position(s.accountCheckpoint) - WINDOW)
  }

  ghost predicate CreationsBehind(log: seq<SeqEvent<Accounts.Event>>, a: int, bound: int) {
    forall i :: 0 <= i < |log| && log[i].envelope.id == a && log[i].envelope.event.Created? ==> log[i].seqNo <= bound
  }

  predicate CreatesAccount(action: Action, a: int) {
    (action.CommitAccount? || action.WriteAccount?) && action.account.envelope.id == a && action.account.envelope.event.Created?
  }

  /** A deactivated row reads as absent, and only a creation is accepted on nothing. */
  lemma HiddenRefuses(row: Account, sorted: seq<AccountEnvelope>, now: int)
    requires row.deleted && sorted != [] && !sorted[0].event.Created?
    ensures Outcome(Some(row), sorted, now).Skip?
  {
    assert ACCOUNT.apply(None, sorted[0]).Err?;
  }

  lemma LostAccountPoll(s: State, failed: set<int>, now: int, a: int)
    requires Sound(s) && LostAccount(s, a)
    ensures Get(PolledTables(s.tables, s.accountLog, s.accountCheckpoint, failed, now).accounts, a) == Get(s.tables.accounts, a)
    ensures CreationsBehind(s.accountLog, a, Position(PolledCheckpoint(s.accountLog, s.accountCheckpoint)) - WINDOW)
  {
    var log, at := s.accountLog, Position(s.accountCheckpoint);
    CheckpointAdvances(log, s.accountCheckpoint);
    PolledAccount(s.tables, log, s.accountCheckpoint, failed, now, a);
    if a in Ids(Window(log, at)) {
      var sorted := LostSorted(log, at, a);
      HiddenRefuses(s.tables.accounts[a], sorted, now);
    }
  }

  /** A poll of an account whose creations lie behind the window reads none of them. */
  lemma LostSorted(log: seq<SeqEvent<Accounts.Event>>, at: int, a: int) returns (sorted: seq<AccountEnvelope>)
    requires ValidLog(log) && a in Ids(Window(log, at))
    requires CreationsBehind(log, a, at - WINDOW)
    ensures sorted == SortByVersion(Stream(Window(log, at), a)) && sorted != [] && !sorted[0].event.Created?
  {
    var group := Stream(Window(log, at), a);
    sorted := SortByVersion(group);
    OfEmptyIffAbsent(Window(log, at), a);
    SortSorts(group);
    assert group != [] && group[0] in multiset(sorted);
    var n := SortedIndex(log, at, a, 0);
    assert log[n].seqNo > at - WINDOW;
  }

  lemma LostAccountStep(s: State, action: Action, a: int)
    requires Sound(s) && Enabled(s, action) && LostAccount(s, a) && !CreatesAccount(action, a)
    ensures LostAccount(Step(s, action), a) && Get(Step(s, action).tables.accounts, a) == Get(s.tables.accounts, a)
  {
    match action
    case CommitAccount(e) => CommitLeavesCreations(s.accountLog, e, a, Position(s.accountCheckpoint) - WINDOW);
    case WriteAccount(e) => CommitLeavesCreations(s.accountLog, e, a, Position(s.accountCheckpoint) - WINDOW);
    case PollAccounts(failed, now) => LostAccountPoll(s, failed, now, a);
    case _ =>
  }

  lemma CommitLeavesCreations(log: seq<SeqEvent<Accounts.Event>>, e: SeqEvent<Accounts.Event>, a: int, bound: int)
    requires CreationsBehind(log, a, bound) && !(e.envelope.id == a && e.envelope.event.Created?)
    ensures CreationsBehind(Commit(log, e), a, bound)
  {
    var next, at := Commit(log, e), Below(log, e.seqNo);
    forall i | 0 <= i < |next| ensures next[i] == if i < at then log[i] else if i == at then e else log[i - 1] {}
  }

  /**
   Lost for good: in every run that does not create it anew, an absent child whose creation has left the
   window stays absent, and a deactivated account whose creation has left the window keeps its row as it is,
   whatever is committed for it, a reactivation included.
   */
  lemma {:induction false} LostForGood(s: State, actions: seq<Action>, id: int)
    requires Sound(s) && IsRun(s, actions)
    ensures Sound(After(s, actions))
    ensures LostMetadata(s, id) && (forall i :: 0 <= i < |actions| ==> !CreatesMetadata(actions[i], id)) ==> LostMetadata(After(s, actions), id)
    ensures LostProfile(s, id) && (forall i :: 0 <= i < |actions| ==> !CreatesProfile(actions[i], id)) ==> LostProfile(After(s, actions), id)
    ensures LostAccount(s, id) && (forall i :: 0 <= i < |actions| ==> !CreatesAccount(actions[i], id)) ==>
              LostAccount(After(s, actions), id) && Get(After(s, actions).tables.accounts, id) == Get(s.tables.accounts, id)
  {
    if actions != [] {
      var n := |actions| - 1;
      var last := After(s, actions[..n]);
      RunPrefix(s, actions, n);
      LostForGood(s, actions[..n], id);
      StepKeepsSound(last, actions[n]);
      if LostMetadata(last, id) && !CreatesMetadata(actions[n], id) { LostMetadataStep(last, actions[n], id); }
      if LostProfile(last, id) && !CreatesProfile(actions[n], id) { LostProfileStep(last, actions[n], id); }
      if LostAccount(last, id) && !CreatesAccount(actions[n], id) { LostAccountStep(last, actions[n], id); }
    }
  }

  /**
   A skipped group that is lost: the write of a new entry fails in a poll that also reads a row more than
   the window ahead. The entry's stream folds to a row, but no later poll will ever write it.
   */
  lemma SkippedGroupLost(s: State, created: SeqEvent<Metadatas.Event>, ahead: SeqEvent<Metadatas.Event>)
    requires Sound(s) && s.metadataLog == [created, ahead] && s.metadataCheckpoint == None
    requires created.envelope.event.Created? && ahead.envelope.id != created.envelope.id && ahead.seqNo - WINDOW >= created.seqNo
    requires created.envelope.id !in s.tables.metadata
    ensures var m := created.envelope.id;
            var next := Step(s, PollMetadata(Faults({m}, {})));
            && Fold(METADATA, None, Stream(next.metadataLog, m)).Ok? && Fold(METADATA, None, Stream(next.metadataLog, m)).value.Some?
            && LostMetadata(next, m)
  {
    var m, log := created.envelope.id, s.metadataLog;
    CreationFolds(created, ahead);
    WindowAll(log, 0);
    EndIsVisible<Metadatas.Event>(log, None);
    var next := Step(s, PollMetadata(Faults({m}, {})));
    assert Get(next.tables.metadata, m) == ChildEntry(METADATA_CHILD, log, s.tables.metadata, s.tables.accounts, Faults({m}, {}), m);
  }

  lemma CreationFolds(created: SeqEvent<Metadatas.Event>, ahead: SeqEvent<Metadatas.Event>)
    requires created.envelope.event.Created? && ahead.envelope.id != created.envelope.id
    ensures var folded := Fold(METADATA, None, Stream([created, ahead], created.envelope.id)); folded.Ok? && folded.value.Some?
  {
    var m := created.envelope.id;
    assert [created, ahead] == [created] + [ahead];
    OfConcat([created], [ahead], m);
    OfAll([created], m);
    OfNone([ahead], m);
    assert Stream([created, ahead], m) == [] + [created.envelope];
    FoldSnoc(METADATA, None, [], created.envelope);
  }

  // ---------- a lapsed suspension that was lifted ----------

  ghost predicate LiftStuck(s: State, a: int, stored: Account, j: nat, now: int) {
    Get(s.tables.accounts, a) == Some(stored) && LiftWaits(Of(s.accountLog, a), stored, j, now)
  }

  /** The next account poll reads events of the account, but no longer the lifting, its row `j`. */
  ghost predicate ReadsWithout(s: State, a: int, j: nat) {
    j < |Of(s.accountLog, a)| && Of(s.accountLog, a)[j].seqNo <= Position(s.accountCheckpoint) - WINDOW && Of(Window(s.accountLog, Position(s.accountCheckpoint)), a) != []
  }

  /** Later events of the account are committed in order, without its row, and no poll reads them without the lifting. */
  ghost predicate KeepsStuck(s: State, action: Action, a: int, j: nat, now: int) {
    match action
    case CommitAccount(e) =>
      e.envelope.id == a ==>
        forall i :: 0 <= i < |Of(s.accountLog, a)| ==> Of(s.accountLog, a)[i].seqNo < e.seqNo && Of(s.accountLog, a)[i].envelope.version < e.envelope.version
    case WriteAccount(e) => e.envelope.id != a
    case PollAccounts(_, at) => at >= now && !ReadsWithout(s, a, j)
    case _ => true
  }

  lemma StuckPoll(s: State, failed: set<int>, at: int, a: int, stored: Account, j: nat)
    requires Sound(s) && LiftStuck(s, a, stored, j, at) && !ReadsWithout(s, a, j)
    ensures Get(PolledTables(s.tables, s.accountLog, s.accountCheckpoint, failed, at).accounts, a) == Some(stored)
  {
    var log, checkpoint := s.accountLog, Position(s.accountCheckpoint);
    EndIsVisible(log, s.accountCheckpoint);
    PolledAccount(s.tables, log, s.accountCheckpoint, failed, at, a);
    var before, batch, rest := CutLog(log, a, checkpoint);
    CutTells(before, batch, rest, checkpoint, Last(log, checkpoint));
    LiftPolled(before, batch, rest, stored, j, at);
  }

  lemma StuckCommit(log: seq<SeqEvent<Accounts.Event>>, e: SeqEvent<Accounts.Event>, a: int, stored: Account, j: nat, now: int)
    requires ValidLog(log) && LiftWaits(Of(log, a), stored, j, now)
    requires e.envelope.id == a ==> forall i :: 0 <= i < |Of(log, a)| ==> Of(log, a)[i].seqNo < e.seqNo && Of(log, a)[i].envelope.version < e.envelope.version
    ensures LiftWaits(Of(Commit(log, e), a), stored, j, now)
  {
    if e.envelope.id == a {
      OfCommitLast(log, e);
      EnvelopesConcat(Of(log, a), [e]);
    } else {
      var _ := OfCommit(log, e, a);
    }
  }

  lemma OfCommitLast(log: seq<SeqEvent<Accounts.Event>>, e: SeqEvent<Accounts.Event>)
    requires ValidLog(log) && forall i :: 0 <= i < |Of(log, e.envelope.id)| ==> Of(log, e.envelope.id)[i].seqNo < e.seqNo
    ensures Of(Commit(log, e), e.envelope.id) == Of(log, e.envelope.id) + [e]
  {
    var at, id := Below(log, e.seqNo), e.envelope.id;
    assert log == log[..at] + log[at..];
    OfConcat(log[..at], log[at..], id);
    OfInsert(log[..at], e, log[at..], id);
    OfAbove(log[at..], id, e.seqNo);
    InsertedLast(Of(log[..at], id), Of(log[at..], id), e);
  }

  lemma InsertedLast(l: seq<SeqEvent<Accounts.Event>>, r: seq<SeqEvent<Accounts.Event>>, e: SeqEvent<Accounts.Event>)
    requires forall i :: 0 <= i < |l + r| ==> (l + r)[i].seqNo < e.seqNo
    requires forall i :: 0 <= i < |r| ==> r[i].seqNo > e.seqNo
    ensures l + [e] + r == l + r + [e]
  {
    var rows := l + r;
    BelowAreFirst(l, r, e.seqNo);
    if rows != [] { assert rows[|rows| - 1].seqNo < e.seqNo; }
    assert |rows| <= |l|;
  }

  lemma BelowAreFirst(l: seq<SeqEvent<Accounts.Event>>, r: seq<SeqEvent<Accounts.Event>>, bound: int)
    requires forall i :: 0 <= i < |r| ==> r[i].seqNo > bound
    ensures forall i :: 0 <= i < |l + r| && (l + r)[i].seqNo < bound ==> i < |l|
  {
    forall i | |l| <= i < |l + r| ensures (l + r)[i] == r[i - |l|] {}
  }

  lemma StuckStep(s: State, action: Action, a: int, stored: Account, j: nat, now: int)
    requires Sound(s) && Enabled(s, action) && LiftStuck(s, a, stored, j, now) && KeepsStuck(s, action, a, j, now)
    ensures LiftStuck(Step(s, action), a, stored, j, now)
  {
    match action
    case CommitAccount(e) => StuckCommit(s.accountLog, e, a, stored, j, now);
    case WriteAccount(e) => StuckCommit(s.accountLog, e, a, stored, j, now);
    case PollAccounts(failed, at) => StuckPoll(s, failed, at, a, stored, j);
    case _ =>
  }

  /** Every step of the run keeps the row stuck. */
  ghost predicate AllKeepStuck(s: State, actions: seq<Action>, a: int, j: nat, now: int) {
    actions != [] ==>
      var n := |actions| - 1;
      AllKeepStuck(s, actions[..n], a, j, now) && KeepsStuck(After(s, actions[..n]), actions[n], a, j, now)
  }

  /**
   A lapsed suspension that was lifted stays in the row through every run, until a poll reads a later event
   of the account without the lifting, or a use case rewrites the row.
   */
  lemma {:induction false} LapsedLiftStays(s: State, actions: seq<Action>, a: int, stored: Account, j: nat, now: int)
    requires Sound(s) && IsRun(s, actions) && LiftStuck(s, a, stored, j, now) && AllKeepStuck(s, actions, a, j, now)
    ensures Sound(After(s, actions)) && LiftStuck(After(s, actions), a, stored, j, now)
  {
    if actions != [] {
      var n := |actions| - 1;
      RunPrefix(s, actions, n);
      LapsedLiftStays(s, actions[..n], a, stored, j, now);
      StepKeepsSound(After(s, actions[..n]), actions[n]);
      StuckStep(After(s, actions[..n]), actions[n], a, stored, j, now);
    }
  }
}
