/** What the account projector does to one account row, and where it stops keeping up. */
module AccountRows {
  import opened Kernel
  import opened EventLog
  import opened RowProjection
  import opened Accounts
  import opened ChildProjector
  import opened AccountProjector

  /** The row is not a live suspension that reads as active because its expiry has passed. */
  predicate NotExpired(row: Option<Account>, now: int) {
    row.Some? && !row.value.deleted ==> AsRead(row.value, now) == row.value
  }

  /** An account stream never folds to nothing once an event was applied. */
  lemma AccountFoldSome(existing: Option<Account>, events: seq<AccountEnvelope>)
    requires events != [] && Fold(ACCOUNT, existing, events).Ok?
    ensures Fold(ACCOUNT, existing, events).value.Some?
  {
    var n := |events| - 1;
    assert events == events[..n] + [events[n]];
    FoldSnoc(ACCOUNT, existing, events[..n], events[n]);
  }

  /**
   Reading the row back does no harm: no live suspension in it has lapsed, nothing newer is pending, or
   the next moderation event is a ban.
   */
  predicate ReadsTrue(row: Option<Account>, sorted: seq<AccountEnvelope>, now: int) {
    var pending := Pending(ACCOUNT, row, sorted);
    || NotExpired(row, now)
    || pending == []
    || (Fold(ACCOUNT, row, pending).Ok? && FirstStatus(pending).Some? && FirstStatus(pending).value.Banned?)
  }

  /** A poll moves an account row exactly as the generic row protocol says, if reading it back does no harm. */
  lemma AccountRowPolled(t: Tables, log: seq<SeqEvent<Accounts.Event>>, checkpoint: Option<int>, failed: set<int>, now: int, a: int)
    requires ReadsTrue(Get(t.accounts, a), SortByVersion(Stream(Window(log, Position(checkpoint)), a)), now)
    ensures Get(PolledTables(t, log, checkpoint, failed, now).accounts, a) ==
            if a in failed then Get(t.accounts, a) else PolledRow(ACCOUNT, log, a, Position(checkpoint), Get(t.accounts, a))
  {
    var batch := Window(log, Position(checkpoint));
    var row := Get(t.accounts, a);
    PolledAccount(t, log, checkpoint, failed, now, a);
    OfEmptyIffAbsent(batch, a);
    var sorted := SortByVersion(Stream(batch, a));
    SortSorts(Stream(batch, a));
    if a in Ids(batch) {
      assert sorted != [] by { assert |multiset(sorted)| == |multiset(Stream(batch, a))|; }
      OutcomeIsNextRow(row, sorted, now);
    } else {
      assert Stream(batch, a) == [];
    }
  }

  /** The row of an account after a poll, in terms of its group's write. */
  lemma PolledAccount(t: Tables, log: seq<SeqEvent<Accounts.Event>>, checkpoint: Option<int>, failed: set<int>, now: int, a: int)
    ensures var batch := Window(log, Position(checkpoint));
            Get(PolledTables(t, log, checkpoint, failed, now).accounts, a) ==
            if a in Ids(batch) && a !in failed then RowAfter(Get(t.accounts, a), GroupOf(t, batch, a, now)) else Get(t.accounts, a)
  {
    var batch := Window(log, Position(checkpoint));
    var plan := Plan(t, batch, Ids(batch) - failed, now);
    assert Get(AfterPlan(t, plan).accounts, a) == if a in plan then RowAfter(Get(t.accounts, a), plan[a]) else Get(t.accounts, a);
  }

  lemma OutcomeIsNextRow(row: Option<Account>, sorted: seq<AccountEnvelope>, now: int)
    requires ReadsTrue(row, sorted, now) && sorted != []
    ensures RowAfter(row, Outcome(row, sorted, now)) == NextRow(ACCOUNT, row, Seen(ACCOUNT, row), sorted)
  {
    var existing := Unfiltered(row, now);
    var pending := Pending(ACCOUNT, existing, sorted);
    if pending != [] && Fold(ACCOUNT, existing, pending).Ok? {
      AccountFoldSome(existing, pending);
    }
    if NotExpired(row, now) {
      assert existing == Seen(ACCOUNT, row);
    } else {
      assert existing == Some(row.value.(status := Active)) && pending == Pending(ACCOUNT, row, sorted);
      if pending != [] { ExpiredReadAgrees(row.value, pending); }
    }
  }

  lemma FoldVersion(existing: Option<Account>, events: seq<AccountEnvelope>)
    requires events != [] && Fold(ACCOUNT, existing, events).Ok? && Fold(ACCOUNT, existing, events).value.Some?
    ensures Fold(ACCOUNT, existing, events).value.value.version == events[|events| - 1].version
  {
    var n := |events| - 1;
    assert events == events[..n] + [events[n]];
    FoldSnoc(ACCOUNT, existing, events[..n], events[n]);
    assert ACCOUNT.apply(Fold(ACCOUNT, existing, events[..n]).value, events[n]) == Accounts.Apply(Fold(ACCOUNT, existing, events[..n]).value, events[n]);
  }

  lemma {:induction false} NewerAbove<Ev>(version: int, events: seq<Envelope<Ev>>, i: nat)
    requires i < |NewerThan(version, events)|
    ensures NewerThan(version, events)[i].version > version
  {
    if events[0].version <= version {
      NewerAbove(version, events[1..], i);
    } else if i > 0 {
      NewerAbove(version, events[1..], i - 1);
    }
  }

  predicate StatusEvent(e: Accounts.Event) {
    e.Suspended? || e.Unsuspended? || e.Banned? || e.Unbanned?
  }

  /** The first event that depends on, or sets, the moderation status. */
  function FirstStatus(events: seq<AccountEnvelope>): Option<Accounts.Event> {
    if events == [] then None
    else if StatusEvent(events[0].event) then Some(events[0].event)
    else FirstStatus(events[1..])
  }

  /**
   A suspension that reads as active once expired is projected from the wrong state: the fold from the
   row as read agrees with the fold from the row as stored exactly when the next moderation event is a ban.
   */
  lemma {:induction false} ExpiredReadAgrees(stored: Account, pending: seq<AccountEnvelope>)
    requires stored.status.Suspended? && Fold(ACCOUNT, Some(stored), pending).Ok?
    ensures Fold(ACCOUNT, Some(stored.(status := Active)), pending) == Fold(ACCOUNT, Some(stored), pending) <==>
            FirstStatus(pending).Some? && FirstStatus(pending).value.Banned?
    decreases |pending|
  {
    if pending != [] {
      var next := Apply(Some(stored), pending[0]);
      assert ACCOUNT.apply(Some(stored), pending[0]) == next;
      assert ACCOUNT.apply(Some(stored.(status := Active)), pending[0]) == Apply(Some(stored.(status := Active)), pending[0]);
      if !StatusEvent(pending[0].event) {
        ExpiredReadAgrees(next.value.value, pending[1..]);
      }
    }
  }

  /**
   A poll of a lapsed suspension. The row becomes what its pending events make of the stored row exactly
   when nothing is pending or the next moderation event is a ban.
   */
  lemma ExpiredPollExact(stored: Account, sorted: seq<AccountEnvelope>, now: int)
    requires !NotExpired(Some(stored), now) && Fold(ACCOUNT, Some(stored), Pending(ACCOUNT, Some(stored), sorted)).Ok?
    ensures var pending := Pending(ACCOUNT, Some(stored), sorted);
            Fold(ACCOUNT, Some(stored), pending) == Ok(RowAfter(Some(stored), Outcome(Some(stored), sorted, now))) <==>
            pending == [] || (FirstStatus(pending).Some? && FirstStatus(pending).value.Banned?)
  {
    var pending := Pending(ACCOUNT, Some(stored), sorted);
    var seen := Some(stored.(status := Active));
    assert Unfiltered(Some(stored), now) == seen && Pending(ACCOUNT, seen, sorted) == pending;
    if pending != [] {
      ExpiredReadAgrees(stored, pending);
      AccountFoldSome(Some(stored), pending);
      FoldVersion(Some(stored), pending);
      NewerAbove(stored.version, sorted, |pending| - 1);
      if Fold(ACCOUNT, seen, pending).Ok? {
        AccountFoldSome(seen, pending);
        FoldVersion(seen, pending);
      }
    }
  }

  /** A poll whose first pending event lifts a lapsed suspension leaves the row as it is. */
  lemma LapsedLiftRefused(stored: Account, sorted: seq<AccountEnvelope>, now: int)
    requires !NotExpired(Some(stored), now)
    requires var pending := Pending(ACCOUNT, Some(stored), sorted); pending != [] && pending[0].event.Unsuspended?
    ensures RowAfter(Some(stored), Outcome(Some(stored), sorted, now)) == Some(stored)
    ensures forall later :: later >= now ==> !NotExpired(Some(stored), later)
  {
    var seen := Some(stored.(status := Active));
    assert Unfiltered(Some(stored), now) == seen;
    var pending := Pending(ACCOUNT, seen, sorted);
    assert ACCOUNT.apply(seen, pending[0]) == Err(Internal);
  }

  /** The row is a lapsed suspension, and the first event of its stream that is newer, row `j`, lifts it. */
  ghost predicate LiftWaits(rows: seq<SeqEvent<Accounts.Event>>, stored: Account, j: nat, now: int) {
    && j < |rows| && Increasing(Envelopes(rows)) && rows[j].envelope.event.Unsuspended? && !NotExpired(Some(stored), now)
    && rows[j].envelope.version > stored.version && forall i :: 0 <= i < j ==> rows[i].envelope.version <= stored.version
  }

  /** What is pending in a batch: everything from the lifting on. */
  lemma LiftPending(before: seq<SeqEvent<Accounts.Event>>, batch: seq<SeqEvent<Accounts.Event>>, rest: seq<SeqEvent<Accounts.Event>>, stored: Account, j: nat, now: int) returns (m: nat)
    requires LiftWaits(before + batch + rest, stored, j, now)
    ensures m == (if j < |before| then 0 else if j < |before| + |batch| then j - |before| else |batch|)
    ensures SortByVersion(Envelopes(batch)) == Envelopes(batch) && Pending(ACCOUNT, Some(stored), Envelopes(batch)) == Envelopes(batch)[m..]
  {
    m := if j < |before| then 0 else if j < |before| + |batch| then j - |before| else |batch|;
    BatchInOrder(before, batch, rest);
    forall i | 0 <= i < |batch| ensures Envelopes(batch)[i].version > stored.version <==> i >= m {
      assert (before + batch + rest)[|before| + i] == batch[i];
      LiftDivides(before + batch + rest, stored, j, now, |before| + i);
    }
    NewerSuffix(stored.version, Envelopes(batch), m);
  }

  lemma LiftDivides(rows: seq<SeqEvent<Accounts.Event>>, stored: Account, j: nat, now: int, i: nat)
    requires LiftWaits(rows, stored, j, now) && i < |rows|
    ensures rows[i].envelope.version > stored.version <==> i >= j
  {
    var envs := Envelopes(rows);
    assert envs[i] == rows[i].envelope && envs[j] == rows[j].envelope;
  }

  lemma VersionForgotten(acc: Account, version: int, events: seq<AccountEnvelope>)
    requires events != []
    ensures Fold(ACCOUNT, Some(acc.(version := version)), events) == Fold(ACCOUNT, Some(acc), events)
  {
    assert ACCOUNT.apply(Some(acc.(version := version)), events[0]) == ACCOUNT.apply(Some(acc), events[0]);
  }

  /** Read without its lifting, a lapsed suspension becomes what the stored row becomes with it. */
  lemma RightAgain(stored: Account, lift: AccountEnvelope, sorted: seq<AccountEnvelope>, now: int)
    requires !NotExpired(Some(stored), now) && lift.event.Unsuspended?
    requires sorted != [] && Pending(ACCOUNT, Some(stored), sorted) == sorted && Fold(ACCOUNT, Some(stored), [lift] + sorted).Ok?
    ensures Fold(ACCOUNT, Some(stored), [lift] + sorted) == Ok(RowAfter(Some(stored), Outcome(Some(stored), sorted, now)))
  {
    var seen := stored.(status := Active);
    assert Unfiltered(Some(stored), now) == Some(seen) && Pending(ACCOUNT, Some(seen), sorted) == sorted;
    assert ACCOUNT.apply(Some(stored), lift) == Ok(Some(seen.(version := lift.version)));
    assert ([lift] + sorted)[1..] == sorted;
    VersionForgotten(seen, lift.version, sorted);
    AccountFoldSome(Some(seen), sorted);
    FoldVersion(Some(seen), sorted);
    NewerAbove(stored.version, sorted, |sorted| - 1);
  }

  /**
   A poll after a lapsed suspension was lifted. The row stays suspended as long as the poll reads the
   lifting, or nothing of the account. A poll that reads all that came after the lifting, and not the lifting
   itself, brings the row up to date.
   */
  lemma LiftPolled(before: seq<SeqEvent<Accounts.Event>>, batch: seq<SeqEvent<Accounts.Event>>, rest: seq<SeqEvent<Accounts.Event>>, stored: Account, j: nat, now: int)
    requires LiftWaits(before + batch + rest, stored, j, now)
    ensures var next := RowAfter(Some(stored), Outcome(Some(stored), SortByVersion(Envelopes(batch)), now));
            && (j >= |before| || batch == [] ==> next == Some(stored))
            && (j + 1 == |before| && batch != [] ==>
                  var folded := Fold(ACCOUNT, Some(stored), Envelopes((before + batch)[j..])); folded.Ok? ==> folded == Ok(next))
  {
    var m := LiftPending(before, batch, rest, stored, j, now);
    var sorted, all := Envelopes(batch), before + batch + rest;
    if m == |batch| {
      assert Pending(ACCOUNT, Some(stored), sorted) == [];
      ExpiredPollExact(stored, sorted, now);
    } else if j >= |before| {
      assert batch[m] == all[j];
      LapsedLiftRefused(stored, sorted, now);
    } else if j + 1 == |before| {
      assert (before + batch)[j..] == [before[j]] + batch;
      EnvelopesConcat([before[j]], batch);
      assert before[j] == all[j] && Envelopes([before[j]]) == [before[j].envelope];
      if Fold(ACCOUNT, Some(stored), [before[j].envelope] + sorted).Ok? { RightAgain(stored, before[j].envelope, sorted, now); }
    }
  }

  // ---------- examples ----------

  /** An account created, suspended, and changed by one more event, in consecutive rows from `n` on. */
  ghost predicate SuspendedLog(log: seq<SeqEvent<Accounts.Event>>, a: int, n: int, suspension: Accounts.Event) {
    && |log| == 3 && log[0].envelope.event == Created("name", false, "nanoid", 7) && log[1].envelope.event == suspension
    && forall i :: 0 <= i < 3 ==> log[i].envelope.id == a && log[i].seqNo == n + i && log[i].envelope.version == n + i
  }

  function SuspendedRow(a: int, n: int, suspension: Accounts.Event): Account {
    Account(a, "name", false, StatusAfter(suspension), false, n + 1, "nanoid", CreatedAt(a))
  }

  lemma SuspendedFold(log: seq<SeqEvent<Accounts.Event>>, a: int, n: int, suspension: Accounts.Event)
    requires suspension.Suspended? && SuspendedLog(log, a, n, suspension)
    ensures AccountFold(Stream(log, a)) == Apply(Some(SuspendedRow(a, n, suspension)), log[2].envelope)
  {
    OfAll(log, a);
    var envs := Envelopes(log);
    var first, second := [envs[0]], [envs[0]] + [envs[1]];
    assert first == [] + first && envs == second + [envs[2]];
    FoldSnoc(ACCOUNT, None, [], envs[0]);
    FoldSnoc(ACCOUNT, None, first, envs[1]);
    FoldSnoc(ACCOUNT, None, second, envs[2]);
  }

  /** What a group with one pending event writes over a lapsed suspension. */
  lemma LapsedOutcome(stored: Account, sorted: seq<AccountEnvelope>, env: AccountEnvelope, now: int)
    requires !NotExpired(Some(stored), now) && Pending(ACCOUNT, Some(stored), sorted) == [env] && env.version > stored.version
    ensures var read := Apply(Some(stored.(status := Active)), env);
            RowAfter(Some(stored), Outcome(Some(stored), sorted, now)) == if read.Ok? then read.value else Some(stored)
  {
    var seen := Some(stored.(status := Active));
    assert Unfiltered(Some(stored), now) == seen && Pending(ACCOUNT, seen, sorted) == [env];
    assert [env] == [] + [env];
    FoldSnoc(ACCOUNT, seen, [], env);
  }

  /**
   A poll that reads one more event of a suspension that has lapsed. If the event lifts the suspension the
   row stays suspended, though the stream says active; if it sets the bot flag the row becomes active,
   though the stream says suspended. The checkpoint moves past the event either way.
   */
  lemma LapsedSuspensionDiverges(log: seq<SeqEvent<Accounts.Event>>, a: int, n: int, suspension: Accounts.Event, now: int, t: Tables) returns (next: Option<Account>)
    requires n >= 1 && suspension.Suspended? && suspension.expiresAt.Some? && suspension.expiresAt.value <= now
    requires SuspendedLog(log, a, n, suspension) && (log[2].envelope.event.Unsuspended? || log[2].envelope.event.Updated?)
    requires Get(t.accounts, a) == Some(SuspendedRow(a, n, suspension))
    ensures next == Get(PolledTables(t, log, Some(n + 1), {}, now).accounts, a) && PolledCheckpoint(log, Some(n + 1)) == Some(n + 2)
    ensures AccountFold(Stream(log, a)) != Ok(next)
    ensures var event, row := log[2].envelope.event, SuspendedRow(a, n, suspension);
            next == if event.Unsuspended? then Some(row) else Some(row.(status := Active, isBot := event.isBot, version := n + 2))
  {
    next := Get(PolledTables(t, log, Some(n + 1), {}, now).accounts, a);
    SuspendedFold(log, a, n, suspension);
    LapsedPoll(t, log, a, n, SuspendedRow(a, n, suspension), now);
    LapsedDisagrees(SuspendedRow(a, n, suspension), log[2].envelope);
  }

  /** What an event makes of a suspension and of the same row read as active. */
  lemma LapsedDisagrees(stored: Account, env: AccountEnvelope)
    requires stored.status.Suspended? && env.version != stored.version && (env.event.Unsuspended? || env.event.Updated?)
    ensures var read := Apply(Some(stored.(status := Active)), env);
            var next := if read.Ok? then read.value else Some(stored);
            && Apply(Some(stored), env) != Ok(next)
            && next == if env.event.Unsuspended? then Some(stored) else Some(stored.(status := Active, isBot := env.event.isBot, version := env.version))
  {
  }

  /** A poll of a lapsed suspension that reads one more event, applied to the row as read. */
  lemma LapsedPoll(t: Tables, log: seq<SeqEvent<Accounts.Event>>, a: int, n: int, stored: Account, now: int)
    requires n >= 1 && |log| == 3
    requires forall i :: 0 <= i < 3 ==> log[i].envelope.id == a && log[i].seqNo == n + i && log[i].envelope.version == n + i
    requires Get(t.accounts, a) == Some(stored) && stored.version == n + 1 && !NotExpired(Some(stored), now)
    ensures var read := Apply(Some(stored.(status := Active)), log[2].envelope);
            Get(PolledTables(t, log, Some(n + 1), {}, now).accounts, a) == if read.Ok? then read.value else Some(stored)
    ensures PolledCheckpoint(log, Some(n + 1)) == Some(n + 2)
  {
    ThreeRows(log, a, n);
    PolledAccount(t, log, Some(n + 1), {}, now, a);
    LapsedOutcome(stored, Envelopes(log), log[2].envelope, now);
  }

  /** What a poll reads of three consecutive rows of one aggregate, and what is pending behind the second. */
  lemma ThreeRows(log: seq<SeqEvent<Accounts.Event>>, a: int, n: int)
    requires n >= 1 && |log| == 3
    requires forall i :: 0 <= i < 3 ==> log[i].envelope.id == a && log[i].seqNo == n + i && log[i].envelope.version == n + i
    ensures Window(log, n + 1) == log && a in Ids(log) && Of(log, a) == log && SortByVersion(Envelopes(log)) == Envelopes(log)
    ensures NewerThan(n + 1, Envelopes(log)) == [log[2].envelope]
    ensures PolledCheckpoint(log, Some(n + 1)) == Some(n + 2)
  {
    OfAll(log, a);
    WindowAll(log, n + 1);
    SortKeepsIncreasing(Envelopes(log));
    assert log[0].envelope.id in Ids(log);
    LastIsNewer(Envelopes(log), n + 1);
  }

  lemma LastIsNewer(envs: seq<AccountEnvelope>, version: int)
    requires |envs| == 3 && envs[0].version <= version && envs[1].version <= version && envs[2].version > version
    ensures NewerThan(version, envs) == [envs[2]]
  {
    NewerSuffix(version, envs, 2);
    assert envs[2..] == [envs[2]];
  }

  /** An accepted stream cannot be folded from anywhere but its start. */
  lemma TailRefused(events: seq<AccountEnvelope>, i: nat)
    requires 0 < i < |events| && AccountFold(events).Ok?
    ensures AccountFold(events[i..]).Err?
  {
    FoldDecomposition(events);
    assert events[i..][0] == events[i];
  }

  lemma AccountVersion(events: seq<AccountEnvelope>)
    requires events != [] && AccountFold(events).Ok?
    ensures AccountFold(events).value.Some? && AccountFold(events).value.value.version == events[|events| - 1].version
  {
    FoldDecomposition(events);
  }

  /** Folding the whole stream again replaces a deactivated row that is behind it. */
  lemma RefoldedFromStart(upTo: seq<AccountEnvelope>, acc: Account)
    requires upTo != [] && AccountFold(upTo).Ok? && acc.version < upTo[|upTo| - 1].version
    ensures AccountFold(upTo) == Ok(NextRow(ACCOUNT, Some(acc), None, upTo))
  {
    AccountVersion(upTo);
  }

  /** Read without its start, an accepted stream leaves the row alone. */
  lemma TailLeaves(before: seq<AccountEnvelope>, batch: seq<AccountEnvelope>, acc: Account)
    requires before != [] && AccountFold(before + batch).Ok?
    ensures NextRow(ACCOUNT, Some(acc), None, batch) == Some(acc)
  {
    if batch != [] {
      TailRefused(before + batch, |before|);
      assert (before + batch)[|before|..] == batch;
    }
  }

  lemma BehindTheEnd(upTo: seq<AccountEnvelope>, acc: Account, k: nat)
    requires Increasing(upTo) && AccountFold(upTo).Ok? && 1 <= k < |upTo| && AccountFold(upTo[..k]) == Ok(Some(acc))
    ensures acc.version < upTo[|upTo| - 1].version && AccountFold(upTo) != Ok(Some(acc))
  {
    AccountVersion(upTo);
    AccountVersion(upTo[..k]);
    assert upTo[k - 1].version < upTo[|upTo| - 1].version;
  }

  lemma BoundaryOnCut(before: seq<AccountEnvelope>, batch: seq<AccountEnvelope>, acc: Account, k: nat)
    requires Increasing(before + batch) && AccountFold(before + batch).Ok?
    requires 1 <= k < |before + batch| && AccountFold((before + batch)[..k]) == Ok(Some(acc)) && acc.deleted
    ensures var next := NextRow(ACCOUNT, Some(acc), None, batch);
            && (AccountFold(before + batch) == Ok(next) <==> before == [])
            && (before != [] ==> next == Some(acc))
  {
    if before == [] {
      assert before + batch == batch;
      BoundaryAtStart(batch, acc, k);
    } else {
      BehindTheEnd(before + batch, acc, k);
      TailLeaves(before, batch, acc);
    }
  }

  lemma BoundaryAtStart(batch: seq<AccountEnvelope>, acc: Account, k: nat)
    requires Increasing(batch) && AccountFold(batch).Ok? && 1 <= k < |batch| && AccountFold(batch[..k]) == Ok(Some(acc))
    ensures AccountFold(batch) == Ok(NextRow(ACCOUNT, Some(acc), None, batch))
  {
    BehindTheEnd(batch, acc, k);
    RefoldedFromStart(batch, acc);
  }

  /**
   The boundary of account projection. For an account whose stored row is deactivated and whose stream
   is accepted, a poll that reads something newer brings the row up to date exactly when the creation
   event is still inside the window; otherwise the row stays as it is.
   */
  lemma ReactivationBoundary(log: seq<SeqEvent<Accounts.Event>>, a: int, checkpoint: int, acc: Account, k: nat)
    requires ValidLog(log) && SoundCheckpoint(log, checkpoint) && Window(log, checkpoint) != []
    requires var read := Stream(log[..End(log, checkpoint)], a);
             && Increasing(Stream(log, a)) && AccountFold(read).Ok?
             && 1 <= k < |read| && AccountFold(read[..k]) == Ok(Some(acc)) && acc.deleted
    ensures Of(log, a) != []
    ensures var next := PolledRow(ACCOUNT, log, a, checkpoint, Some(acc));
            var created := Of(log, a)[0].seqNo > checkpoint - WINDOW;
            && (AccountFold(Stream(log[..End(log, checkpoint)], a)) == Ok(next) <==> created)
            && (!created ==> next == Some(acc))
  {
    var before, batch, rest := CutLog(log, a, checkpoint);
    BoundaryOfRows(before, batch, rest, checkpoint, Last(log, checkpoint), acc, k);
    PolledFromBatch(log, a, checkpoint, acc);
  }

  lemma PolledFromBatch(log: seq<SeqEvent<Accounts.Event>>, a: int, checkpoint: int, acc: Account)
    requires acc.deleted
    ensures var batch := Of(Window(log, checkpoint), a);
            PolledRow(ACCOUNT, log, a, checkpoint, Some(acc)) == NextRow(ACCOUNT, Some(acc), None, SortByVersion(Envelopes(batch)))
  {
  }

  lemma BoundaryOfRows(before: seq<SeqEvent<Accounts.Event>>, batch: seq<SeqEvent<Accounts.Event>>, rest: seq<SeqEvent<Accounts.Event>>,
                       checkpoint: int, last: int, acc: Account, k: nat)
    requires Cut(before, batch, rest, checkpoint, last) && Increasing(Envelopes(before + batch + rest))
    requires AccountFold(Envelopes(before + batch)).Ok? && 1 <= k < |before + batch|
    requires AccountFold(Envelopes(before + batch)[..k]) == Ok(Some(acc)) && acc.deleted
    ensures var next := NextRow(ACCOUNT, Some(acc), None, SortByVersion(Envelopes(batch)));
            var created := (before + batch + rest)[0].seqNo > checkpoint - WINDOW;
            && (AccountFold(Envelopes(before + batch)) == Ok(next) <==> created)
            && (!created ==> next == Some(acc))
  {
    CutTells(before, batch, rest, checkpoint, last);
    EnvelopesConcat(before, batch);
    EnvelopesConcat(before + batch, rest);
    BatchInOrder(before, batch, rest);
    IncreasingPrefix(Envelopes(before + batch), Envelopes(rest));
    BoundaryOnCut(Envelopes(before), Envelopes(batch), acc, k);
  }

  lemma IncreasingPrefix(xs: seq<AccountEnvelope>, ys: seq<AccountEnvelope>)
    requires Increasing(xs + ys)
    ensures Increasing(xs)
  {
    forall i, j | 0 <= i < j < |xs| ensures xs[i].version < xs[j].version {
      assert (xs + ys)[i] == xs[i] && (xs + ys)[j] == xs[j];
    }
  }

  lemma BatchInOrder(before: seq<SeqEvent<Accounts.Event>>, batch: seq<SeqEvent<Accounts.Event>>, rest: seq<SeqEvent<Accounts.Event>>)
    requires Increasing(Envelopes(before + batch + rest))
    ensures SortByVersion(Envelopes(batch)) == Envelopes(batch)
  {
    var all := before + batch + rest;
    assert batch == all[|before|..|before| + |batch|];
    EnvelopesSlice(all, |before|, |before| + |batch|);
    SortKeepsIncreasing(Envelopes(batch));
  }

  /** An account created and deactivated at `n`, and reactivated right behind an unrelated row at `m`. */
  function ReactivatedLog(a: int, other: SeqEvent<Accounts.Event>, n: int): seq<SeqEvent<Accounts.Event>> {
    [SeqEvent(n, Envelope(a, Created("name", false, "nanoid", 7), n)), SeqEvent(n + 1, Envelope(a, Deactivated, n + 1))]
    + [other] + [SeqEvent(other.seqNo + 1, Envelope(a, Reactivated, other.seqNo + 1))]
  }

  lemma ReactivatedFold(a: int, other: SeqEvent<Accounts.Event>, n: int)
    requires other.envelope.id != a && other.seqNo > n + 1
    ensures var log, gone := ReactivatedLog(a, other, n), Account(a, "name", false, Active, true, n + 1, "nanoid", CreatedAt(a));
            && |log| == 4 && Of(log, a) == [log[0], log[1], log[3]]
            && AccountFold(Stream(log, a)[..2]) == Ok(Some(gone))
            && AccountFold(Stream(log, a)) == Ok(Some(gone.(deleted := false, version := other.seqNo + 1)))
  {
    var log := ReactivatedLog(a, other, n);
    var start := [log[0], log[1]];
    assert log == start + [other] + [log[3]];
    OfInsert(start, other, [log[3]], a);
    OfAll(start, a);
    OfAll([log[3]], a);
    var envs := Stream(log, a);
    var first, second := [envs[0]], [envs[0]] + [envs[1]];
    assert first == [] + first && envs[..2] == second && envs == second + [envs[2]];
    FoldSnoc(ACCOUNT, None, [], envs[0]);
    FoldSnoc(ACCOUNT, None, first, envs[1]);
    FoldSnoc(ACCOUNT, None, second, envs[2]);
  }

  /**
   With the creation behind the window, as at checkpoint 150 for a creation at 1, the poll reads the
   reactivation and leaves the row deactivated.
   */
  lemma ReactivationLost(a: int, other: SeqEvent<Accounts.Event>, n: int)
    requires n >= 1 && other.envelope.id != a && other.seqNo - WINDOW > n
    ensures var log, gone := ReactivatedLog(a, other, n), Account(a, "name", false, Active, true, n + 1, "nanoid", CreatedAt(a));
            && PolledRow(ACCOUNT, log, a, other.seqNo, Some(gone)) == Some(gone)
            && AccountFold(Stream(log, a)) != Ok(Some(gone))
  {
    var log, gone := ReactivatedLog(a, other, n), Account(a, "name", false, Active, true, n + 1, "nanoid", CreatedAt(a));
    ReactivatedFold(a, other, n);
    assert SoundCheckpoint(log, other.seqNo) by { assert log[2].seqNo == other.seqNo; }
    WindowHoldsCheckpoint(log, other.seqNo);
    assert End(log, other.seqNo) == |log| && log[..|log|] == log;
    ReactivationBoundary(log, a, other.seqNo, gone, 2);
  }

  // ---------- followers of a deactivated account ----------

  /** An account created and deactivated in two consecutive rows. */
  ghost predicate DeactivatedLog(log: seq<SeqEvent<Accounts.Event>>, a: int, n: int) {
    && |log| == 2 && log[0].envelope.event.Created? && log[1].envelope.event.Deactivated?
    && forall i :: 0 <= i < 2 ==> log[i].envelope.id == a && log[i].seqNo == n + i && log[i].envelope.version == n + i
  }

  lemma DeactivatedGroup(log: seq<SeqEvent<Accounts.Event>>, a: int, n: int, now: int)
    requires n >= 1 && DeactivatedLog(log, a, n)
    ensures Window(log, 0) == log && Ids(log) == {a} && Of(log, a) == log && SortByVersion(Envelopes(log)) == Envelopes(log)
    ensures Outcome(None, Envelopes(log), now).Deactivation?
  {
    OfAll(log, a);
    WindowAll(log, 0);
    SortKeepsIncreasing(Envelopes(log));
    assert log[0].envelope.id in Ids(log);
    var envs := Envelopes(log);
    assert envs == [envs[0], envs[1]];
    DeactivatedOutcome(envs[0], envs[1], now);
  }

  lemma DeactivatedOutcome(created: AccountEnvelope, gone: AccountEnvelope, now: int)
    requires created.event.Created? && gone.event.Deactivated?
    ensures Outcome(None, [created, gone], now).Deactivation?
  {
    assert [created, gone] == [created] + [gone] && [created] == [] + [created];
    FoldSnoc(ACCOUNT, None, [], created);
    FoldSnoc(ACCOUNT, None, [created], gone);
  }

  /** A poll that deactivates an account keeps a pending request to follow it, and removes an approved follower. */
  lemma PendingFollowerStays(t: Tables, log: seq<SeqEvent<Accounts.Event>>, a: int, n: int, now: int, pending: int, approved: int, remote: int)
    requires n >= 1 && DeactivatedLog(log, a, n) && a !in t.accounts
    requires Get(t.follows, pending) == Some(Follow(Remote(remote), Local(a), false))
    requires Get(t.follows, approved) == Some(Follow(Remote(remote), Local(a), true))
    ensures var after := PolledTables(t, log, None, {}, now);
            && Get(after.follows, pending) == Get(t.follows, pending) && approved !in after.follows
            && Get(after.accounts, a).Some? && Get(after.accounts, a).value.deleted
  {
    DeactivatedGroup(log, a, n, now);
    PolledAccount(t, log, None, {}, now, a);
    var plan := Plan(t, log, Ids(log) - {}, now);
    assert plan[a] == Outcome(None, Envelopes(log), now);
    assert Deactivating(plan) == {a};
    SurvivingFollows(t, log, None, {}, now, a, pending);
    SurvivingFollows(t, log, None, {}, now, a, approved);
  }
}
