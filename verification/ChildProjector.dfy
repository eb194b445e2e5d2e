/** The profile and metadata projectors: one protocol, two child entities of an account. */
module ChildProjector {
  import opened Kernel
  import opened EventLog
  import opened RowProjection
  import opened Accounts

  /** A child entity: how it folds, and which account owns it. */
  datatype Child<!E, !Ev> = Child(applier: Applier<E, Ev>, parentOf: Ev -> Option<int>, parent: E -> int)

  /** What goes wrong during one poll: aggregates whose write fails, and accounts whose lookup fails. */
  datatype Faults = Faults(writes: set<int>, lookups: set<int>)

  /** A missing checkpoint reads as 0. */
  function Position(checkpoint: Option<int>): int {
    if checkpoint.Some? then checkpoint.value else 0
  }

  /** The checkpoint store never moves back. */
  function Advance(checkpoint: Option<int>, seqNo: int): Option<int> {
    if checkpoint.Some? && checkpoint.value >= seqNo then checkpoint else Some(seqNo)
  }

  /** The account named by the first creation event. */
  function FirstParent<E, Ev>(c: Child<E, Ev>, events: seq<Envelope<Ev>>): Option<int> {
    if events == [] then None
    else if c.parentOf(events[0].event).Some? then c.parentOf(events[0].event)
    else FirstParent(c, events[1..])
  }

  /** The parent is known to be deactivated. A failed lookup knows nothing. */
  predicate ParentDeleted(accounts: map<int, Account>, lookups: set<int>, parent: Option<int>) {
    parent.Some? && parent.value !in lookups && parent.value in accounts && accounts[parent.value].deleted
  }

  /** A row about to be materialized afresh under a deactivated parent. */
  predicate Guarded<E, Ev>(c: Child<E, Ev>, row: Option<E>, sorted: seq<Envelope<Ev>>, accounts: map<int, Account>, lookups: set<int>) {
    row.None? && ParentDeleted(accounts, lookups, FirstParent(c, sorted))
  }

  /** The first event that names a parent is the one at `i`. */
  predicate FirstNaming<E, Ev>(c: Child<E, Ev>, events: seq<Envelope<Ev>>, i: int) {
    0 <= i < |events| && c.parentOf(events[i].event).Some? && forall j :: 0 <= j < i ==> c.parentOf(events[j].event).None?
  }

  lemma {:induction false} FirstParentIs<E, Ev>(c: Child<E, Ev>, events: seq<Envelope<Ev>>)
    ensures FirstParent(c, events).None? ==> forall i :: 0 <= i < |events| ==> c.parentOf(events[i].event).None?
    ensures FirstParent(c, events).Some? ==> exists i :: FirstNaming(c, events, i) && c.parentOf(events[i].event) == FirstParent(c, events)
  {
    if events != [] {
      var rest := events[1..];
      assert forall i :: 0 < i < |events| ==> events[i] == rest[i - 1];
      if c.parentOf(events[0].event).Some? {
        assert FirstNaming(c, events, 0);
      } else {
        FirstParentIs(c, rest);
        if FirstParent(c, rest).Some? {
          var i :| FirstNaming(c, rest, i) && c.parentOf(rest[i].event) == FirstParent(c, rest);
          assert FirstNaming(c, events, i + 1) && events[i + 1] == rest[i];
        }
      }
    }
  }

  predicate KnownDeleted(accounts: map<int, Account>, lookups: set<int>, p: int) {
    p !in lookups && p in accounts && accounts[p].deleted
  }

  /** A group is stopped exactly if there is no row and the first creation among its events names an account known to be deactivated. */
  lemma GuardedExactly<E, Ev>(c: Child<E, Ev>, row: Option<E>, sorted: seq<Envelope<Ev>>, accounts: map<int, Account>, lookups: set<int>)
    ensures Guarded(c, row, sorted, accounts, lookups) <==>
            row.None? && exists i :: FirstNaming(c, sorted, i) && KnownDeleted(accounts, lookups, c.parentOf(sorted[i].event).value)
  {
    FirstParentIs(c, sorted);
    if i :| FirstNaming(c, sorted, i) {
      forall k | FirstNaming(c, sorted, k) ensures k == i {}
    }
  }

  /** The row of one aggregate after its group was written. */
  function ChildRow<E, Ev>(c: Child<E, Ev>, row: Option<E>, events: seq<Envelope<Ev>>, accounts: map<int, Account>, lookups: set<int>): Option<E> {
    var sorted := SortByVersion(events);
    if Guarded(c, row, sorted, accounts, lookups) then row else NextRow(c.applier, row, row, sorted)
  }

  /** The row under a key after the whole batch. */
  function ChildEntry<E, Ev>(c: Child<E, Ev>, batch: seq<SeqEvent<Ev>>, rows: map<int, E>, accounts: map<int, Account>, faults: Faults, id: int): Option<E> {
    if id in Ids(batch) && id !in faults.writes
    then ChildRow(c, Get(rows, id), Stream(batch, id), accounts, faults.lookups)
    else Get(rows, id)
  }

  function ChildTable<E, Ev>(c: Child<E, Ev>, batch: seq<SeqEvent<Ev>>, rows: map<int, E>, accounts: map<int, Account>, faults: Faults): (r: map<int, E>)
    ensures forall id :: Get(r, id) == ChildEntry(c, batch, rows, accounts, faults, id)
  {
    map id | id in rows.Keys + Ids(batch) && ChildEntry(c, batch, rows, accounts, faults, id).Some?
      :: ChildEntry(c, batch, rows, accounts, faults, id).value
  }

  /** The child table after one poll. */
  function PolledTable<E, Ev>(c: Child<E, Ev>, log: seq<SeqEvent<Ev>>, checkpoint: Option<int>, rows: map<int, E>, accounts: map<int, Account>, faults: Faults): map<int, E> {
    ChildTable(c, Window(log, Position(checkpoint)), rows, accounts, faults)
  }

  /** The checkpoint after one poll of any projector. */
  function PolledCheckpoint<Ev>(log: seq<SeqEvent<Ev>>, checkpoint: Option<int>): Option<int> {
    if Window(log, Position(checkpoint)) == [] then checkpoint
    else Advance(checkpoint, Last(log, Position(checkpoint)))
  }

  /** An absent checkpoint, or one that names a committed row. */
  ghost predicate ValidCheckpoint<Ev>(log: seq<SeqEvent<Ev>>, checkpoint: Option<int>) {
    checkpoint.Some? ==> checkpoint.value >= 1 && SoundCheckpoint(log, checkpoint.value)
  }

  /**
   Every poll leaves a sound checkpoint that never regresses; it is the newest number read, so what a
   poll returns is what it stored. On a log that stands still it is the newest committed number, or at
   least 900 further on.
   */
  lemma CheckpointAdvances<Ev>(log: seq<SeqEvent<Ev>>, checkpoint: Option<int>)
    requires ValidLog(log) && ValidCheckpoint(log, checkpoint)
    ensures ValidCheckpoint(log, PolledCheckpoint(log, checkpoint))
    ensures Position(checkpoint) <= Position(PolledCheckpoint(log, checkpoint))
    ensures var c := Position(checkpoint);
            Window(log, c) != [] ==> PolledCheckpoint(log, checkpoint) == Some(Last(log, c))
    ensures log != [] ==>
              || PolledCheckpoint(log, checkpoint) == Some(log[|log| - 1].seqNo)
              || Position(PolledCheckpoint(log, checkpoint)) >= Position(checkpoint) + 900
  {
    var c := Position(checkpoint);
    if log != [] { WindowHoldsCheckpoint(log, c); }
    if Window(log, c) != [] { WindowCovers(log, c); }
  }

  /** Folds pending events into the entity, stopping at the first refused one. */
  method FoldPending<E, Ev>(a: Applier<E, Ev>, existing: Option<E>, pending: seq<Envelope<Ev>>)
    returns (entity: Option<E>, foldFailed: bool)
    ensures foldFailed == Fold(a, existing, pending).Err?
    ensures !foldFailed ==> Fold(a, existing, pending) == Ok(entity)
  {
    entity, foldFailed := existing, false;
    for i := 0 to |pending|
      invariant !foldFailed && Fold(a, existing, pending[..i]) == Ok(entity)
    {
      FoldSnoc(a, existing, pending[..i], pending[i]);
      assert pending[..i] + [pending[i]] == pending[..i + 1];
      var applied := a.apply(entity, pending[i]);
      if applied.Err? {
        FoldConcat(a, existing, pending[..i + 1], pending[i + 1..]);
        assert pending[..i + 1] + pending[i + 1..] == pending;
        foldFailed := true;
        return;
      }
      entity := applied.value;
    }
    assert pending[..|pending|] == pending;
  }

  /**
   Projects one group under a savepoint. `schema` is the table's constraint: a write that would break
   it is refused by the database and rolled back, as is a write listed in `faults.writes`.
   */
  method ProjectGroup<E, Ev>(c: Child<E, Ev>, schema: map<int, E> -> bool, stored: map<int, E>, id: int, group: seq<Envelope<Ev>>,
                             accounts: map<int, Account>, faults: Faults)
    returns (rows: map<int, E>, ok: bool)
    requires schema(stored)
    ensures schema(rows)
    ensures forall k :: Get(rows, k) ==
              if k == id && ok then ChildRow(c, Get(stored, id), group, accounts, faults.lookups) else Get(stored, k)
    ensures id in faults.writes ==> rows == stored
    ensures id !in faults.writes && schema(Put(stored, id, ChildRow(c, Get(stored, id), group, accounts, faults.lookups))) ==> ok
  {
    rows, ok := stored, true;
    var envelopes := SortByVersion(group);
    var existing := Get(stored, id);
    var pending := Pending(c.applier, existing, envelopes);
    if pending == [] || Guarded(c, existing, pending, accounts, faults.lookups) {
      return;
    }
    var entity, foldFailed := FoldPending(c.applier, existing, pending);
    if foldFailed {
      return;
    }
    var savepoint := rows;
    rows := Put(rows, id, if entity.Some? then Upsert(c.applier, existing, entity.value) else None);
    if id in faults.writes || !schema(rows) {
      rows, ok := savepoint, false;
    }
  }

  /** The table after the groups in `done` were projected, except those that failed. */
  ghost predicate Projected<E, Ev>(c: Child<E, Ev>, events: seq<SeqEvent<Ev>>, stored: map<int, E>, accounts: map<int, Account>, lookups: set<int>,
                                   done: set<int>, failed: set<int>, rows: map<int, E>)
  {
    forall k :: Get(rows, k) ==
      if k in done && k !in failed then ChildRow(c, Get(stored, k), Stream(events, k), accounts, lookups) else Get(stored, k)
  }

  lemma ProjectedNext<E, Ev>(c: Child<E, Ev>, events: seq<SeqEvent<Ev>>, stored: map<int, E>, accounts: map<int, Account>, lookups: set<int>,
                             done: set<int>, failed: set<int>, rows: map<int, E>, id: int, ok: bool, next: map<int, E>)
    requires Projected(c, events, stored, accounts, lookups, done, failed, rows) && id !in done && failed <= done
    requires forall k :: Get(next, k) ==
               if k == id && ok then ChildRow(c, Get(rows, id), Stream(events, id), accounts, lookups) else Get(rows, k)
    ensures Projected(c, events, stored, accounts, lookups, done + {id}, if ok then failed else failed + {id}, next)
  {
  }

  lemma ProjectedAll<E, Ev>(c: Child<E, Ev>, events: seq<SeqEvent<Ev>>, stored: map<int, E>, accounts: map<int, Account>, faults: Faults, rows: map<int, E>)
    requires Projected(c, events, stored, accounts, faults.lookups, Ids(events), faults.writes, rows)
    ensures rows == ChildTable(c, events, stored, accounts, faults)
  {
    SameRows(rows, ChildTable(c, events, stored, accounts, faults));
  }

  /** A table on the way: every row is the stored one or the one its group writes. */
  ghost predicate Midway<E, Ev>(c: Child<E, Ev>, events: seq<SeqEvent<Ev>>, stored: map<int, E>, accounts: map<int, Account>, lookups: set<int>, rows: map<int, E>) {
    forall k :: Get(rows, k) == Get(stored, k) || Get(rows, k) == ChildRow(c, Get(stored, k), Stream(events, k), accounts, lookups)
  }

  /** Some table on the way refuses what this group writes. */
  ghost predicate Refused<E(!new), Ev>(c: Child<E, Ev>, schema: map<int, E> -> bool, events: seq<SeqEvent<Ev>>, stored: map<int, E>,
                                       accounts: map<int, Account>, lookups: set<int>, id: int)
  {
    exists rows :: RefusedBy(c, schema, events, stored, accounts, lookups, id, rows)
  }

  ghost predicate RefusedBy<E, Ev>(c: Child<E, Ev>, schema: map<int, E> -> bool, events: seq<SeqEvent<Ev>>, stored: map<int, E>,
                                   accounts: map<int, Account>, lookups: set<int>, id: int, rows: map<int, E>)
  {
    && Midway(c, events, stored, accounts, lookups, rows) && schema(rows)
    && !schema(Put(rows, id, ChildRow(c, Get(stored, id), Stream(events, id), accounts, lookups)))
  }

  /** A group that is rolled back without a fault was refused by the table it met. */
  lemma RolledBackRefused<E(!new), Ev>(c: Child<E, Ev>, schema: map<int, E> -> bool, events: seq<SeqEvent<Ev>>, stored: map<int, E>,
                                       accounts: map<int, Account>, lookups: set<int>, done: set<int>, failed: set<int>, rows: map<int, E>, id: int)
    requires Projected(c, events, stored, accounts, lookups, done, failed, rows) && id !in done && schema(rows)
    requires !schema(Put(rows, id, ChildRow(c, Get(rows, id), Stream(events, id), accounts, lookups)))
    ensures Refused(c, schema, events, stored, accounts, lookups, id)
  {
    assert Get(rows, id) == Get(stored, id);
    assert RefusedBy(c, schema, events, stored, accounts, lookups, id, rows);
  }

  /** Projects the groups of a batch in an arbitrary order; `failed` names those rolled back. */
  method ProjectGroups<E(!new), Ev>(c: Child<E, Ev>, schema: map<int, E> -> bool, events: seq<SeqEvent<Ev>>,
                              stored: map<int, E>, accounts: map<int, Account>, faults: Faults)
    returns (rows: map<int, E>, failed: set<int>)
    requires schema(stored)
    ensures schema(rows)
    ensures rows == ChildTable(c, events, stored, accounts, faults.(writes := failed))
    ensures forall id :: id in faults.writes ==> Get(rows, id) == Get(stored, id)
    ensures forall id :: id in failed ==> id in Ids(events) && (id in faults.writes || Refused(c, schema, events, stored, accounts, faults.lookups, id))
  {
    rows, failed := stored, {};
    var groups := GroupByAggregate(events);
    var remaining := groups.Keys;
    ghost var done: set<int> := {};
    while remaining != {}
      invariant Partition(groups.Keys, remaining, done) && failed <= done
      invariant schema(rows)
      invariant Projected(c, events, stored, accounts, faults.lookups, done, failed, rows)
      invariant forall id :: id in faults.writes ==> Get(rows, id) == Get(stored, id)
      invariant forall id :: id in failed ==> id in faults.writes || Refused(c, schema, events, stored, accounts, faults.lookups, id)
      decreases |remaining|
    {
      var id := AnyOf(remaining);
      PartitionStep(groups.Keys, remaining, done, id);
      ghost var before := rows;
      var ok;
      rows, ok := ProjectGroup(c, schema, rows, id, groups[id], accounts, faults);
      ProjectedNext(c, events, stored, accounts, faults.lookups, done, failed, before, id, ok, rows);
      if !ok && id !in faults.writes {
        RolledBackRefused(c, schema, events, stored, accounts, faults.lookups, done, failed, before, id);
      }
      remaining, done := remaining - {id}, done + {id};
      if !ok { failed := failed + {id}; }
    }
    PartitionDone(groups.Keys, done);
    ProjectedAll(c, events, stored, accounts, faults.(writes := failed), rows);
  }

  /** One tailing poll: reads the window, projects its groups, advances the checkpoint. */
  method ProjectChildBatch<E(!new), Ev>(c: Child<E, Ev>, schema: map<int, E> -> bool, log: seq<SeqEvent<Ev>>, checkpoint: Option<int>,
                                  stored: map<int, E>, accounts: map<int, Account>, faults: Faults)
    returns (rows: map<int, E>, next: Option<int>, returned: int, failed: set<int>)
    requires schema(stored)
    ensures schema(rows)
    ensures rows == PolledTable(c, log, checkpoint, stored, accounts, faults.(writes := failed))
    ensures next == PolledCheckpoint(log, checkpoint)
    ensures returned == if Window(log, Position(checkpoint)) == [] then Position(checkpoint) else Last(log, Position(checkpoint))
    ensures forall id :: id in faults.writes ==> Get(rows, id) == Get(stored, id)
    ensures var events := Window(log, Position(checkpoint));
            forall id :: id in failed ==> id in Ids(events) && (id in faults.writes || Refused(c, schema, events, stored, accounts, faults.lookups, id))
  {
    var position := Position(checkpoint);
    var events := Window(log, position);
    if events == [] {
      rows, failed := stored, {};
      ProjectedAll(c, events, stored, accounts, faults.(writes := failed), rows);
      return rows, checkpoint, position, failed;
    }
    var maxSeq := events[|events| - 1].seqNo;
    LastOfWindow(log, position);
    rows, failed := ProjectGroups(c, schema, events, stored, accounts, faults);
    return rows, Advance(checkpoint, maxSeq), maxSeq, failed;
  }

  /** A poll with failing writes is the poll of the batch without those groups. */
  lemma FailureIsolation<E, Ev>(c: Child<E, Ev>, batch: seq<SeqEvent<Ev>>, rows: map<int, E>, accounts: map<int, Account>, faults: Faults)
    ensures ChildTable(c, batch, rows, accounts, faults) ==
            ChildTable(c, Dropping(batch, faults.writes), rows, accounts, Faults({}, faults.lookups))
  {
    var kept := Dropping(batch, faults.writes);
    var p := ChildTable(c, batch, rows, accounts, faults);
    var q := ChildTable(c, kept, rows, accounts, Faults({}, faults.lookups));
    forall id ensures Get(p, id) == Get(q, id) {
      DroppingKeepsOthers(batch, faults.writes, id);
      OfEmptyIffAbsent(batch, id);
      OfEmptyIffAbsent(kept, id);
    }
    SameRows(p, q);
  }

  /** Two batches hold the same envelopes for every aggregate, in whatever order, each keyed by version. */
  ghost predicate SameGroups<Ev>(xs: seq<SeqEvent<Ev>>, ys: seq<SeqEvent<Ev>>) {
    forall id :: multiset(Stream(xs, id)) == multiset(Stream(ys, id)) && KeyedByVersion(Stream(xs, id))
  }

  /** The order of the same envelopes inside a batch does not matter. */
  lemma OrderIndependence<E, Ev>(c: Child<E, Ev>, xs: seq<SeqEvent<Ev>>, ys: seq<SeqEvent<Ev>>, rows: map<int, E>, accounts: map<int, Account>, faults: Faults)
    requires SameGroups(xs, ys)
    ensures ChildTable(c, xs, rows, accounts, faults) == ChildTable(c, ys, rows, accounts, faults)
  {
    var p, q := ChildTable(c, xs, rows, accounts, faults), ChildTable(c, ys, rows, accounts, faults);
    forall id ensures Get(p, id) == Get(q, id) {
      SortIgnoresOrder(Stream(xs, id), Stream(ys, id));
      OfEmptyIffAbsent(xs, id);
      OfEmptyIffAbsent(ys, id);
      assert |multiset(Stream(xs, id))| == |Of(xs, id)| && |multiset(Stream(ys, id))| == |Of(ys, id)|;
    }
    SameRows(p, q);
  }
}
