/** The projection database as the projectors change it: in place, statement by statement, under savepoints. */
module ReadModelStore {
  import opened Kernel
  import opened EventLog
  import opened RowProjection
  import opened Accounts
  import opened Profiles
  import opened Metadatas
  import opened ChildProjector
  import opened AccountProjector

  const PROFILE_CHILD: Child<Profile, Profiles.Event> := Child(PROFILE, Profiles.ParentOf, (p: Profile) => p.accountId)
  const METADATA_CHILD: Child<Metadata, Metadatas.Event> := Child(METADATA, Metadatas.ParentOf, (m: Metadata) => m.accountId)

  /** The profile table's unique key: at most one profile per account. */
  predicate UniqueOwner(rows: map<int, Profile>) {
    forall p, q :: p in rows && q in rows && rows[p].accountId == rows[q].accountId ==> p == q
  }

  /** The metadata table has no constraint besides its key. */
  predicate NoConstraint(rows: map<int, Metadata>) { true }

  /** One statement less may succeed. */
  function Spent(budget: Option<nat>): Option<nat> {
    if budget.Some? && budget.value > 0 then Some(budget.value - 1) else budget
  }

  /** Deletes listed rows one by one until the budget of statements is spent. */
  method DeleteEach<E>(stored: map<int, E>, listed: set<int>, budget: Option<nat>)
    returns (rows: map<int, E>, ok: bool, left: Option<nat>)
    ensures budget.None? ==> ok && left.None?
    ensures ok ==> rows == stored - listed
  {
    rows, ok, left := stored, true, budget;
    var list := listed;
    while list != {}
      invariant list <= listed
      invariant forall k :: Get(rows, k) == if k in listed && k !in list then None else Get(stored, k)
      invariant budget.None? ==> left.None?
      decreases |list|
    {
      if left == Some(0) { return rows, false, left; }
      var k := AnyOf(list);
      rows, list, left := Put(rows, k, None), list - {k}, Spent(left);
    }
    SameRows(rows, stored - listed);
  }

  /** The row that a group writes for a profile. */
  function ProfileWritten(events: seq<SeqEvent<Profiles.Event>>, stored: map<int, Profile>, accounts: map<int, Account>, lookups: set<int>, p: int): Option<Profile> {
    ChildRow(PROFILE_CHILD, Get(stored, p), Stream(events, p), accounts, lookups)
  }

  /** Another profile of the same account is stored, or is written in the same poll. */
  ghost predicate Contested(events: seq<SeqEvent<Profiles.Event>>, stored: map<int, Profile>, accounts: map<int, Account>, lookups: set<int>, p: int) {
    var row := ProfileWritten(events, stored, accounts, lookups, p);
    row.Some? && exists k :: k != p && OwnsToo(events, stored, accounts, lookups, k, row.value.accountId)
  }

  predicate OwnsToo(events: seq<SeqEvent<Profiles.Event>>, stored: map<int, Profile>, accounts: map<int, Account>, lookups: set<int>, k: int, a: int) {
    var row := ProfileWritten(events, stored, accounts, lookups, k);
    (k in stored && stored[k].accountId == a) || (row.Some? && row.value.accountId == a)
  }

  /** The unique key refuses a profile only in favour of another one of the same account. */
  lemma RefusedIsContested(events: seq<SeqEvent<Profiles.Event>>, stored: map<int, Profile>, accounts: map<int, Account>, lookups: set<int>, p: int)
    requires Refused(PROFILE_CHILD, UniqueOwner, events, stored, accounts, lookups, p)
    ensures Contested(events, stored, accounts, lookups, p)
  {
    var rows :| RefusedBy(PROFILE_CHILD, UniqueOwner, events, stored, accounts, lookups, p, rows);
    var next := Put(rows, p, ProfileWritten(events, stored, accounts, lookups, p));
    var i, j :| i in next && j in next && next[i].accountId == next[j].accountId && i != j;
    forall k ensures Get(next, k) == if k == p then ProfileWritten(events, stored, accounts, lookups, p) else Get(rows, k) {}
    assert Get(next, i) == Some(next[i]) && Get(next, j) == Some(next[j]);
    var other := if i == p then j else i;
    assert Get(rows, other) == Get(stored, other) || Get(rows, other) == ProfileWritten(events, stored, accounts, lookups, other);
    assert OwnsToo(events, stored, accounts, lookups, other, next[p].accountId);
  }

  lemma NeverRefused(events: seq<SeqEvent<Metadatas.Event>>, stored: map<int, Metadata>, accounts: map<int, Account>, lookups: set<int>, m: int)
    ensures !Refused(METADATA_CHILD, NoConstraint, events, stored, accounts, lookups, m)
  {
  }

  class Database {
    var accountLog: seq<SeqEvent<Accounts.Event>>
    var profileLog: seq<SeqEvent<Profiles.Event>>
    var metadataLog: seq<SeqEvent<Metadatas.Event>>
    var accountCheckpoint: Option<int>
    var profileCheckpoint: Option<int>
    var metadataCheckpoint: Option<int>
    var accounts: map<int, Account>
    var profiles: map<int, Profile>
    var metadata: map<int, Metadata>
    var follows: map<int, Follow>
    var links: set<Link>

    ghost predicate Valid() reads this { UniqueOwner(profiles) }

    ghost function Contents(): Tables reads this {
      Tables(accounts, profiles, metadata, follows, links)
    }

    /** Deletes the profile of an account, if it has one. */
    method DeleteProfileOf(a: int)
      requires Valid()
      modifies this`profiles
      ensures profiles == ProfilesWithout(old(profiles), {a})
    {
      var found := set p | p in profiles && profiles[p].accountId == a;
      assert ProfilesWithout(profiles, {a}) == profiles - found;
      if found != {} {
        var p := AnyOf(found);
        OnlyOne(profiles, a, found, p);
        profiles := profiles - {p};
      }
    }

    /** Deletes the metadata rows of an account one by one; `budget` statements succeed. */
    method DeleteMetadataOf(a: int, budget: Option<nat>) returns (ok: bool, left: Option<nat>)
      modifies this`metadata
      ensures budget.None? ==> ok && left.None?
      ensures ok ==> metadata == MetadataWithout(old(metadata), {a})
    {
      var listed := set m | m in metadata && metadata[m].accountId == a;
      assert MetadataWithout(metadata, {a}) == metadata - listed;
      metadata, ok, left := DeleteEach(metadata, listed, budget);
    }

    /** Deletes the follows of an account, then its approved followers. */
    method DeleteFollowsOf(a: int, budget: Option<nat>) returns (ok: bool)
      modifies this`follows
      ensures budget.None? ==> ok
      ensures ok ==> follows == FollowsWithout(old(follows), {a})
    {
      var followings := set f | f in follows && follows[f].source == Local(a);
      var left;
      follows, ok, left := DeleteEach(follows, followings, budget);
      if !ok { return; }
      var followers := set f | f in follows && follows[f].destination == Local(a) && follows[f].approved;
      FollowsOf(old(follows), a, followings, followers);
      follows, ok, left := DeleteEach(follows, followers, left);
    }

    /** The write of one account group: stops at the failing statement and leaves the rest undone. */
    method WriteGroup(a: int, entity: Option<Account>, auth: Option<int>, budget: Option<nat>) returns (ok: bool)
      requires Valid()
      modifies this`accounts, this`profiles, this`metadata, this`follows, this`links
      ensures budget.None? ==> ok
      ensures ok ==> Contents() == Written(old(Contents()), a,
                                           if entity.None? then Skip
                                           else if entity.value.deleted then Deactivation(entity.value)
                                           else Live(entity.value, auth))
    {
      if entity.None? { return true; }
      if budget == Some(0) { return false; }
      accounts := Put(accounts, a, Upsert(ACCOUNT, Get(accounts, a), entity.value));
      var left := Spent(budget);
      if entity.value.deleted {
        if left == Some(0) { return false; }
        DeleteProfileOf(a);
        left := Spent(left);
        ok, left := DeleteMetadataOf(a, left);
        if !ok { return; }
        ok := DeleteFollowsOf(a, left);
      } else if auth.Some? {
        if left == Some(0) { return false; }
        links := links + {Link(a, auth.value)};
        ok := true;
      } else {
        ok := true;
      }
    }

    /**
     Projects the group of one account under a savepoint: reads the row back, folds the pending events,
     writes, and rolls everything back when a statement of the write fails.
     */
    method ProjectAccountGroup(a: int, group: seq<AccountEnvelope>, now: int, budget: Option<nat>) returns (ok: bool)
      requires Valid()
      modifies this`accounts, this`profiles, this`metadata, this`follows, this`links
      ensures Valid()
      ensures budget.None? ==> ok
      ensures Contents() == if ok then Written(old(Contents()), a, Outcome(Get(old(accounts), a), SortByVersion(group), now))
                            else old(Contents())
    {
      var envelopes := SortByVersion(group);
      var auth := CreatedAuth(envelopes);
      var existing := Unfiltered(Get(accounts, a), now);
      var pending := Pending(ACCOUNT, existing, envelopes);
      if pending == [] && auth.None? { return true; }
      var entity, foldFailed := FoldPending(ACCOUNT, existing, pending);
      if foldFailed { return true; }
      var savedAccounts, savedProfiles, savedMetadata, savedFollows, savedLinks := accounts, profiles, metadata, follows, links;
      ok := WriteGroup(a, entity, auth, budget);
      if !ok {
        accounts, profiles, metadata, follows, links := savedAccounts, savedProfiles, savedMetadata, savedFollows, savedLinks;
      } else {
        WrittenKeepsUnique(old(Contents()), a, Outcome(Get(old(accounts), a), envelopes, now));
      }
    }

    /** Projects the groups of a batch in an arbitrary order; `failed` names those rolled back. */
    method ProjectAccountGroups(events: seq<SeqEvent<Accounts.Event>>, now: int, faults: map<int, nat>) returns (failed: set<int>)
      requires Valid()
      modifies this`accounts, this`profiles, this`metadata, this`follows, this`links
      ensures Valid() && failed <= faults.Keys
      ensures Contents() == AfterPlan(old(Contents()), Plan(old(Contents()), events, Ids(events) - failed, now))
    {
      failed := {};
      var groups := GroupByAggregate(events);
      var remaining := groups.Keys;
      ghost var start := Contents();
      ghost var done: set<int> := {};
      PlanNone(start, events, now);
      while remaining != {}
        invariant Valid() && failed <= faults.Keys
        invariant forall x :: x in groups <==> x in remaining || x in done || x in failed
        invariant forall x :: !(x in remaining && x in done) && !(x in remaining && x in failed) && !(x in done && x in failed)
        invariant Contents() == AfterPlan(start, Plan(start, events, done, now))
        decreases |remaining|
      {
        var a := AnyOf(remaining);
        remaining := remaining - {a};
        var ok := ProjectAccountGroup(a, groups[a], now, if a in faults then Some(faults[a]) else None);
        if ok {
          PlanExtends(start, events, done, a, now);
          done := done + {a};
        } else {
          failed := failed + {a};
        }
      }
      forall x ensures x in done <==> x in Ids(events) - failed {}
      assert done == Ids(events) - failed;
    }

    /** One poll of the account projector. `faults` says which statement of a group's write fails. */
    method ProjectBatch(now: int, faults: map<int, nat>) returns (returned: int, failed: set<int>)
      requires Valid()
      modifies this`accounts, this`profiles, this`metadata, this`follows, this`links, this`accountCheckpoint
      ensures Valid() && failed <= faults.Keys
      ensures Contents() == PolledTables(old(Contents()), accountLog, old(accountCheckpoint), failed, now)
      ensures accountCheckpoint == PolledCheckpoint(accountLog, old(accountCheckpoint))
      ensures returned == if Window(accountLog, Position(old(accountCheckpoint))) == [] then Position(old(accountCheckpoint))
                          else Last(accountLog, Position(old(accountCheckpoint)))
    {
      var position := Position(accountCheckpoint);
      var events := Window(accountLog, position);
      failed := ProjectAccountGroups(events, now, faults);
      if events == [] { return position, failed; }
      LastOfWindow(accountLog, position);
      var maxSeq := events[|events| - 1].seqNo;
      accountCheckpoint := Advance(accountCheckpoint, maxSeq);
      return maxSeq, failed;
    }

    /** One poll of the profile projector. */
    method ProjectProfileBatch(faults: Faults) returns (returned: int, failed: set<int>)
      requires Valid()
      modifies this`profiles, this`profileCheckpoint
      ensures Valid()
      ensures var events := Window(profileLog, Position(old(profileCheckpoint)));
              forall p :: p in failed ==> p in Ids(events) && (p in faults.writes || Contested(events, old(profiles), accounts, faults.lookups, p))
      ensures profiles == PolledTable(PROFILE_CHILD, profileLog, old(profileCheckpoint), old(profiles), accounts, faults.(writes := failed))
      ensures profileCheckpoint == PolledCheckpoint(profileLog, old(profileCheckpoint))
      ensures returned == if Window(profileLog, Position(old(profileCheckpoint))) == [] then Position(old(profileCheckpoint))
                          else Last(profileLog, Position(old(profileCheckpoint)))
    {
      profiles, profileCheckpoint, returned, failed :=
        ProjectChildBatch(PROFILE_CHILD, UniqueOwner, profileLog, profileCheckpoint, profiles, accounts, faults);
      ghost var events := Window(profileLog, Position(old(profileCheckpoint)));
      forall p | Refused(PROFILE_CHILD, UniqueOwner, events, old(profiles), accounts, faults.lookups, p)
        ensures Contested(events, old(profiles), accounts, faults.lookups, p)
      {
        RefusedIsContested(events, old(profiles), accounts, faults.lookups, p);
      }
    }

    /** One poll of the metadata projector. */
    method ProjectMetadataBatch(faults: Faults) returns (returned: int, failed: set<int>)
      requires Valid()
      modifies this`metadata, this`metadataCheckpoint
      ensures Valid() && failed <= faults.writes
      ensures metadata == PolledTable(METADATA_CHILD, metadataLog, old(metadataCheckpoint), old(metadata), accounts, faults.(writes := failed))
      ensures metadataCheckpoint == PolledCheckpoint(metadataLog, old(metadataCheckpoint))
      ensures returned == if Window(metadataLog, Position(old(metadataCheckpoint))) == [] then Position(old(metadataCheckpoint))
                          else Last(metadataLog, Position(old(metadataCheckpoint)))
    {
      metadata, metadataCheckpoint, returned, failed :=
        ProjectChildBatch(METADATA_CHILD, NoConstraint, metadataLog, metadataCheckpoint, metadata, accounts, faults);
      forall m | m in failed ensures m in faults.writes {
        NeverRefused(Window(metadataLog, Position(old(metadataCheckpoint))), old(metadata), accounts, faults.lookups, m);
      }
    }
  }

  lemma OnlyOne(rows: map<int, Profile>, a: int, found: set<int>, p: int)
    requires UniqueOwner(rows) && p in found
    requires forall k :: k in found ==> k in rows && rows[k].accountId == a
    ensures found == {p}
  {
    forall k ensures k in found <==> k == p {}
  }

  /** A follow touches an account exactly when one of the two listings names it. */
  lemma FollowsOf(rows: map<int, Follow>, a: int, followings: set<int>, followers: set<int>)
    requires followings == set f | f in rows && rows[f].source == Local(a)
    requires followers == set f | f in rows - followings && rows[f].destination == Local(a) && rows[f].approved
    ensures FollowsWithout(rows, {a}) == rows - followings - followers
  {
    forall f | f in rows ensures f in followings + followers <==> Touches(rows[f], a) {}
  }

  lemma WrittenKeepsUnique(t: Tables, a: int, w: GroupWrite)
    requires UniqueOwner(t.profiles)
    ensures UniqueOwner(Written(t, a, w).profiles)
  {
  }
}
