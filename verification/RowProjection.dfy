/** How one poll moves one row, and when a row keeps up with its stream. */
module RowProjection {
  import opened Kernel
  import opened EventLog

  /** The row as the projector reads it back: hidden rows look absent. */
  function Seen<E, Ev>(a: Applier<E, Ev>, row: Option<E>): Option<E> {
    if Dark(a, row) then None else row
  }

  /** The events above a version. */
  function NewerThan<Ev>(version: int, events: seq<Envelope<Ev>>): seq<Envelope<Ev>> {
    if events == [] then []
    else if events[0].version > version then [events[0]] + NewerThan(version, events[1..])
    else NewerThan(version, events[1..])
  }

  /** The events of a batch that the row read back does not reflect yet. */
  function Pending<E, Ev>(a: Applier<E, Ev>, existing: Option<E>, events: seq<Envelope<Ev>>): seq<Envelope<Ev>> {
    match existing
    case None => events
    case Some(e) => NewerThan(a.version(e), events)
  }

  /** The version-gated writer: an entity replaces a stored row only if it is strictly newer. */
  function Upsert<E, Ev>(a: Applier<E, Ev>, row: Option<E>, e: E): Option<E> {
    if row.Some? && a.version(e) <= a.version(row.value) then row else Some(e)
  }

  /** The fold of the group's pending events is refused, so the group is skipped. */
  predicate FoldSkips<E, Ev>(a: Applier<E, Ev>, existing: Option<E>, events: seq<Envelope<Ev>>) {
    Fold(a, existing, Pending(a, existing, events)).Err?
  }

  /** The row after a group whose events are in fold order. */
  function NextRow<E, Ev>(a: Applier<E, Ev>, row: Option<E>, existing: Option<E>, events: seq<Envelope<Ev>>): Option<E> {
    var pending := Pending(a, existing, events);
    if pending == [] then row
    else
      match Fold(a, existing, pending)
      case Err(_) => row
      case Ok(None) => None
      case Ok(Some(e)) => Upsert(a, row, e)
  }

  /** The row after the batch at `checkpoint` was folded for this aggregate. */
  function PolledRow<E, Ev>(a: Applier<E, Ev>, log: seq<SeqEvent<Ev>>, id: int, checkpoint: int, row: Option<E>): Option<E> {
    NextRow(a, row, Seen(a, row), SortByVersion(Stream(Window(log, checkpoint), id)))
  }

  predicate PollSkips<E, Ev>(a: Applier<E, Ev>, log: seq<SeqEvent<Ev>>, id: int, checkpoint: int, row: Option<E>) {
    FoldSkips(a, Seen(a, row), SortByVersion(Stream(Window(log, checkpoint), id)))
  }

  /** Within the aggregate, versions grow with sequence numbers and nothing follows a terminal event. */
  ghost predicate Orderly<E, Ev>(a: Applier<E, Ev>, rows: seq<SeqEvent<Ev>>) {
    && Increasing(Envelopes(rows))
    && forall i :: 0 <= i < |rows| - 1 ==> !a.terminal(rows[i].envelope.event)
  }

  /** The terminal event lies within reach and the row is what the whole stream folds to. */
  ghost predicate Closed<E, Ev>(a: Applier<E, Ev>, row: Option<E>, rows: seq<SeqEvent<Ev>>, reach: int) {
    && rows != []
    && a.terminal(rows[|rows| - 1].envelope.event)
    && rows[|rows| - 1].seqNo <= reach
    && Fold(a, None, Envelopes(rows)) == Ok(row)
  }

  /** The row is what the first `k` rows fold to, and everything later can still be re-read. */
  ghost predicate Reflects<E, Ev>(a: Applier<E, Ev>, row: Option<E>, rows: seq<SeqEvent<Ev>>, checkpoint: int, reach: int, k: int) {
    && 1 <= k <= |rows|
    && !Dark(a, row)
    && Fold(a, None, Envelopes(rows[..k])) == Ok(row)
    && rows[k - 1].seqNo <= reach
    && forall i :: k <= i < |rows| ==> rows[i].seqNo > checkpoint - WINDOW
  }

  /**
   The row keeps up with its stream: whatever it does not reflect yet is still inside the window. A row
   that a use case wrote in its own transaction may be ahead of the checkpoint, up to `reach`.
   */
  ghost predicate Tracking<E, Ev>(a: Applier<E, Ev>, row: Option<E>, rows: seq<SeqEvent<Ev>>, checkpoint: int, reach: int) {
    || Closed(a, row, rows, reach)
    || (row.None? && forall i :: 0 <= i < |rows| ==> rows[i].seqNo > checkpoint - WINDOW)
    || exists k :: Reflects(a, row, rows, checkpoint, reach, k)
  }

  /** What a skipped group leaves behind is still inside the window of the advanced checkpoint. */
  ghost predicate Retryable<E, Ev>(a: Applier<E, Ev>, row: Option<E>, rows: seq<SeqEvent<Ev>>, advanced: int, reach: int) {
    || Closed(a, row, rows, reach)
    || forall i :: 0 <= i < |rows| && (row.Some? ==> rows[i].envelope.version > a.version(row.value)) ==>
                     rows[i].seqNo > advanced - WINDOW
  }

  /** The row is what the stream folds to up to its `n`-th row, or to a later row within reach. */
  ghost predicate Covers<E, Ev>(a: Applier<E, Ev>, row: Option<E>, rows: seq<SeqEvent<Ev>>, n: int, reach: int) {
    exists k :: CoversTo(a, row, rows, n, reach, k)
  }

  ghost predicate CoversTo<E, Ev>(a: Applier<E, Ev>, row: Option<E>, rows: seq<SeqEvent<Ev>>, n: int, reach: int, k: int) {
    && 0 <= n <= k <= |rows|
    && Fold(a, None, Envelopes(rows[..k])) == Ok(row)
    && (k > n ==> rows[k - 1].seqNo <= reach)
  }

  lemma {:induction false} NewerSuffix<Ev>(version: int, events: seq<Envelope<Ev>>, m: nat)
    requires m <= |events|
    requires forall i :: 0 <= i < m ==> events[i].version <= version
    requires forall i :: m <= i < |events| ==> events[i].version > version
    ensures NewerThan(version, events) == events[m..]
  {
    if events == [] {
    } else if m == 0 {
      NewerSuffix(version, events[1..], 0);
      assert events == [events[0]] + events[1..];
    } else {
      NewerSuffix(version, events[1..], m - 1);
      assert events[1..][m - 1..] == events[m..];
    }
  }

  lemma EnvelopesSlice<Ev>(rows: seq<SeqEvent<Ev>>, i: nat, j: nat)
    requires i <= j <= |rows|
    ensures Envelopes(rows[i..j]) == Envelopes(rows)[i..j]
  {
  }

  lemma EnvelopesConcat<Ev>(xs: seq<SeqEvent<Ev>>, ys: seq<SeqEvent<Ev>>)
    ensures Envelopes(xs + ys) == Envelopes(xs) + Envelopes(ys)
  {
  }

  /** Three consecutive pieces of an aggregate's rows: before, inside and after the window of a poll. */
  ghost predicate Cut<Ev>(before: seq<SeqEvent<Ev>>, batch: seq<SeqEvent<Ev>>, rest: seq<SeqEvent<Ev>>, checkpoint: int, last: int) {
    && checkpoint <= last
    && (forall i :: 0 <= i < |before| ==> before[i].seqNo <= checkpoint - WINDOW)
    && (forall i :: 0 <= i < |batch| ==> checkpoint - WINDOW < batch[i].seqNo <= last)
    && (forall i :: 0 <= i < |rest| ==> rest[i].seqNo > last)
  }

  /** Sequence numbers tell the three pieces apart. */
  lemma CutTells<Ev>(before: seq<SeqEvent<Ev>>, batch: seq<SeqEvent<Ev>>, rest: seq<SeqEvent<Ev>>, checkpoint: int, last: int)
    requires Cut(before, batch, rest, checkpoint, last)
    ensures var rows := before + batch + rest;
            forall i :: 0 <= i < |rows| ==>
              && (i < |before| <==> rows[i].seqNo <= checkpoint - WINDOW)
              && (i < |before| + |batch| <==> rows[i].seqNo <= last)
  {
  }

  /** The newest sequence number that a poll at `checkpoint` reads. */
  function Last<Ev>(log: seq<SeqEvent<Ev>>, checkpoint: int): int
    requires Window(log, checkpoint) != []
  {
    log[End(log, checkpoint) - 1].seqNo
  }

  lemma LastOfWindow<Ev>(log: seq<SeqEvent<Ev>>, checkpoint: int)
    requires Window(log, checkpoint) != []
    ensures var batch := Window(log, checkpoint); batch[|batch| - 1].seqNo == Last(log, checkpoint)
  {
  }

  lemma OfAtMost<Ev>(rows: seq<SeqEvent<Ev>>, id: int, upTo: int)
    requires forall i :: 0 <= i < |rows| ==> rows[i].seqNo <= upTo
    ensures forall k :: 0 <= k < |Of(rows, id)| ==> Of(rows, id)[k].seqNo <= upTo
  {
  }

  lemma OfAbove<Ev>(rows: seq<SeqEvent<Ev>>, id: int, above: int)
    requires forall i :: 0 <= i < |rows| ==> rows[i].seqNo > above
    ensures forall k :: 0 <= k < |Of(rows, id)| ==> Of(rows, id)[k].seqNo > above
  {
  }

  lemma CutOf<Ev>(before: seq<SeqEvent<Ev>>, batch: seq<SeqEvent<Ev>>, rest: seq<SeqEvent<Ev>>, id: int, checkpoint: int, last: int)
    requires Cut(before, batch, rest, checkpoint, last)
    ensures Cut(Of(before, id), Of(batch, id), Of(rest, id), checkpoint, last)
  {
    OfAtMost(before, id, checkpoint - WINDOW);
    OfAbove(batch, id, checkpoint - WINDOW);
    OfAtMost(batch, id, last);
    OfAbove(rest, id, last);
  }

  lemma CutLog<Ev>(log: seq<SeqEvent<Ev>>, id: int, checkpoint: int)
    returns (before: seq<SeqEvent<Ev>>, batch: seq<SeqEvent<Ev>>, rest: seq<SeqEvent<Ev>>)
    requires ValidLog(log) && SoundCheckpoint(log, checkpoint) && Window(log, checkpoint) != []
    ensures Of(log, id) == before + batch + rest
    ensures batch == Of(Window(log, checkpoint), id)
    ensures Of(log[..End(log, checkpoint)], id) == before + batch
    ensures Cut(before, batch, rest, checkpoint, Last(log, checkpoint))
  {
    var first, end := First(log, checkpoint), End(log, checkpoint);
    before, batch, rest := Of(log[..first], id), Of(log[first..end], id), Of(log[end..], id);
    OfSplit(log, id, first, end);
    WindowCovers(log, checkpoint);
    CutOf(log[..first], log[first..end], log[end..], id, checkpoint, Last(log, checkpoint));
  }

  /** In an orderly aggregate the batch is already in fold order. */
  lemma BatchSorted<E, Ev>(a: Applier<E, Ev>, before: seq<SeqEvent<Ev>>, batch: seq<SeqEvent<Ev>>, rest: seq<SeqEvent<Ev>>)
    requires Orderly(a, before + batch + rest)
    ensures SortByVersion(Envelopes(batch)) == Envelopes(batch)
    ensures forall i :: 0 <= i < |batch| - 1 ==> !a.terminal(batch[i].envelope.event)
  {
    var all := before + batch + rest;
    assert batch == all[|before|..|before| + |batch|];
    EnvelopesSlice(all, |before|, |before| + |batch|);
    SortKeepsIncreasing(Envelopes(batch));
    forall i | 0 <= i < |batch| - 1 ensures !a.terminal(batch[i].envelope.event) {
      assert all[|before| + i] == batch[i];
    }
  }

  lemma FoldLastRow<E(!new), Ev(!new)>(a: Applier<E, Ev>, rows: seq<SeqEvent<Ev>>, row: Option<E>)
    requires Lawful(a) && rows != [] && Fold(a, None, Envelopes(rows)) == Ok(row)
    requires forall i :: 0 <= i < |rows| - 1 ==> !a.terminal(rows[i].envelope.event)
    ensures row.Some? ==> a.version(row.value) == rows[|rows| - 1].envelope.version
    ensures Dark(a, row) <==> a.terminal(rows[|rows| - 1].envelope.event)
    ensures row.None? ==> AlwaysSeen(a)
  {
    var envs := Envelopes(rows);
    forall i | 0 <= i < |envs| - 1 ensures !a.terminal(envs[i].event) { assert envs[i] == rows[i].envelope; }
    FoldLast(a, envs);
  }

  /** Folding a later part of a closed stream again changes nothing. */
  lemma ClosedRefold<E(!new), Ev(!new)>(a: Applier<E, Ev>, before: seq<SeqEvent<Ev>>, batch: seq<SeqEvent<Ev>>, row: Option<E>, checkpoint: int)
    requires Lawful(a) && Orderly(a, before + batch) && Closed(a, row, before + batch, checkpoint)
    ensures Seen(a, row) == None
    ensures NextRow(a, row, None, Envelopes(batch)) == row
  {
    var rows, envs := before + batch, Envelopes(batch);
    FoldLastRow(a, rows, row);
    if batch != [] && Fold(a, None, envs).Ok? {
      assert rows[|rows| - 1] == batch[|batch| - 1];
      assert before + batch + [] == rows;
      BatchSorted(a, before, batch, []);
      FoldLastRow(a, batch, Fold(a, None, envs).value);
    }
  }

  /** A closed row survives every later poll: nothing resurrects it and nothing changes it. */
  lemma ClosedStays<E(!new), Ev(!new)>(a: Applier<E, Ev>, log: seq<SeqEvent<Ev>>, id: int, checkpoint: int, row: Option<E>)
    requires Lawful(a) && ValidLog(log) && SoundCheckpoint(log, checkpoint) && Window(log, checkpoint) != []
    requires Orderly(a, Of(log, id)) && Closed(a, row, Of(log, id), Last(log, checkpoint))
    ensures PolledRow(a, log, id, checkpoint, row) == row
    ensures Of(log[..End(log, checkpoint)], id) == Of(log, id)
  {
    var before, batch, rest := CutLog(log, id, checkpoint);
    CutTells(before, batch, rest, checkpoint, Last(log, checkpoint));
    assert |Of(log, id)| - 1 < |before| + |batch|;
    assert before + batch + rest == before + batch;
    BatchSorted(a, before, batch, rest);
    ClosedRefold(a, before, batch, row, Last(log, checkpoint));
  }

  /** Nothing but the start of an accepted stream can be folded from nothing. */
  lemma SuffixRefused<E(!new), Ev(!new)>(a: Applier<E, Ev>, before: seq<SeqEvent<Ev>>, batch: seq<SeqEvent<Ev>>)
    requires Lawful(a) && before != [] && batch != [] && Fold(a, None, Envelopes(before + batch)).Ok?
    requires forall i :: 0 <= i < |before| ==> !a.terminal(before[i].envelope.event)
    ensures Fold(a, None, Envelopes(batch)).Err?
  {
    EnvelopesConcat(before, batch);
    FoldConcat(a, None, Envelopes(before), Envelopes(batch));
    FoldLastRow(a, before, Fold(a, None, Envelopes(before)).value);
  }

  /**
   A row closed beyond the batch, as after a deletion that a use case wrote itself: it comes back exactly
   if it is absent, the batch holds its creation, and the batch ends before its deletion.
   */
  lemma ClosedAhead<E(!new), Ev(!new)>(a: Applier<E, Ev>, row: Option<E>, before: seq<SeqEvent<Ev>>, batch: seq<SeqEvent<Ev>>, rest: seq<SeqEvent<Ev>>, reach: int)
    requires Lawful(a) && Orderly(a, before + batch + rest) && Closed(a, row, before + batch + rest, reach) && rest != []
    ensures var next := NextRow(a, row, None, Envelopes(batch));
            if row.None? && before == [] && batch != [] then Fold(a, None, Envelopes(before + batch)) == Ok(next) && next.Some? else next == row
    ensures Seen(a, row) == None
  {
    var rows := before + batch + rest;
    FoldLastRow(a, rows, row);
    if batch != [] {
      AheadParts(a, before, batch, rest, row);
      if before != [] {
        SuffixRefused(a, before, batch);
      } else {
        assert before + batch == batch && rows == batch + rest;
        AheadVersion(a, batch, rest, row);
      }
    }
  }

  lemma AheadVersion<E(!new), Ev(!new)>(a: Applier<E, Ev>, batch: seq<SeqEvent<Ev>>, rest: seq<SeqEvent<Ev>>, row: Option<E>)
    requires Lawful(a) && Orderly(a, batch + rest) && batch != [] && rest != []
    requires Fold(a, None, Envelopes(batch)).Ok? && Fold(a, None, Envelopes(batch + rest)) == Ok(row)
    ensures var e := Fold(a, None, Envelopes(batch)).value;
            e.Some? && (row.Some? ==> a.version(e.value) < a.version(row.value))
  {
    var rows := batch + rest;
    forall i | 0 <= i < |batch| ensures !a.terminal(batch[i].envelope.event) { assert rows[i] == batch[i]; }
    FoldLastRow(a, batch, Fold(a, None, Envelopes(batch)).value);
    FoldLastRow(a, rows, row);
    assert Envelopes(rows)[|batch| - 1].version < Envelopes(rows)[|rows| - 1].version;
  }

  lemma AheadParts<E(!new), Ev(!new)>(a: Applier<E, Ev>, before: seq<SeqEvent<Ev>>, batch: seq<SeqEvent<Ev>>, rest: seq<SeqEvent<Ev>>, row: Option<E>)
    requires Orderly(a, before + batch + rest) && rest != [] && Fold(a, None, Envelopes(before + batch + rest)) == Ok(row)
    ensures Fold(a, None, Envelopes(before + batch)).Ok?
    ensures forall i :: 0 <= i < |before| ==> !a.terminal(before[i].envelope.event)
    ensures forall i :: 0 <= i < |batch| ==> !a.terminal(batch[i].envelope.event)
  {
    var rows := before + batch + rest;
    EnvelopesConcat(before + batch, rest);
    FoldConcat(a, None, Envelopes(before + batch), Envelopes(rest));
    forall i | 0 <= i < |before| ensures !a.terminal(before[i].envelope.event) { assert rows[i] == before[i]; }
    forall i | 0 <= i < |batch| ensures !a.terminal(batch[i].envelope.event) { assert rows[|before| + i] == batch[i]; }
  }

  /** A row cannot reflect less than what left the window. */
  lemma ReflectsBounds<E(!new), Ev(!new)>(a: Applier<E, Ev>, row: Option<E>, before: seq<SeqEvent<Ev>>, batch: seq<SeqEvent<Ev>>, rest: seq<SeqEvent<Ev>>,
                                          checkpoint: int, last: int, reach: int, k: int)
    requires Lawful(a) && Orderly(a, before + batch + rest) && Cut(before, batch, rest, checkpoint, last)
    requires Reflects(a, row, before + batch + rest, checkpoint, reach, k)
    ensures |before| <= k
    ensures a.version(row.value) == (before + batch + rest)[k - 1].envelope.version
  {
    var rows := before + batch + rest;
    CutTells(before, batch, rest, checkpoint, last);
    if before != [] { assert rows[|before| - 1].seqNo <= checkpoint - WINDOW; }
    FoldLastRow(a, rows[..k], row);
  }

  /** What is pending for a row that reflects the first `k` rows: the part of the batch behind them. */
  lemma ReflectsPending<E(!new), Ev(!new)>(a: Applier<E, Ev>, row: Option<E>, before: seq<SeqEvent<Ev>>, batch: seq<SeqEvent<Ev>>, rest: seq<SeqEvent<Ev>>,
                                           checkpoint: int, last: int, reach: int, k: int)
    requires Lawful(a) && Orderly(a, before + batch + rest) && Cut(before, batch, rest, checkpoint, last)
    requires Reflects(a, row, before + batch + rest, checkpoint, reach, k)
    ensures |before| <= k
    ensures var m := if k <= |before| + |batch| then k - |before| else |batch|;
            && Pending(a, row, Envelopes(batch)) == Envelopes(batch[m..])
            && forall i :: m <= i < |batch| ==> batch[i].envelope.version > a.version(row.value)
  {
    var rows := before + batch + rest;
    ReflectsBounds(a, row, before, batch, rest, checkpoint, last, reach, k);
    var all := Envelopes(rows);
    var m := if k <= |before| + |batch| then k - |before| else |batch|;
    forall i | 0 <= i < |batch|
      ensures i < m ==> batch[i].envelope.version <= a.version(row.value)
      ensures i >= m ==> batch[i].envelope.version > a.version(row.value)
    {
      assert rows[|before| + i] == batch[i];
      assert all[|before| + i] == batch[i].envelope && all[k - 1] == rows[k - 1].envelope;
    }
    NewerSuffix(a.version(row.value), Envelopes(batch), m);
    assert Envelopes(batch)[m..] == Envelopes(batch[m..]);
  }

  /** Folding what is pending extends the fold of the first `k` rows to the end of the batch. */
  lemma ReflectsFolds<E(!new), Ev(!new)>(a: Applier<E, Ev>, row: Option<E>, before: seq<SeqEvent<Ev>>, batch: seq<SeqEvent<Ev>>, rest: seq<SeqEvent<Ev>>,
                                         checkpoint: int, last: int, reach: int, k: int)
    requires Lawful(a) && Orderly(a, before + batch + rest) && Cut(before, batch, rest, checkpoint, last)
    requires Reflects(a, row, before + batch + rest, checkpoint, reach, k) && k <= |before| + |batch|
    ensures Fold(a, row, Pending(a, row, Envelopes(batch))) == Fold(a, None, Envelopes(before + batch))
  {
    ReflectsPending(a, row, before, batch, rest, checkpoint, last, reach, k);
    var done, tail := (before + batch + rest)[..k], batch[k - |before|..];
    assert before + batch == done + tail;
    EnvelopesConcat(done, tail);
    FoldConcat(a, None, Envelopes(done), Envelopes(tail));
  }

  /** A visible row moves to the fold of everything up to the end of the batch, unless it is ahead already. */
  lemma ReflectsMoves<E(!new), Ev(!new)>(a: Applier<E, Ev>, row: Option<E>, before: seq<SeqEvent<Ev>>, batch: seq<SeqEvent<Ev>>, rest: seq<SeqEvent<Ev>>,
                                         checkpoint: int, last: int, reach: int, k: int)
    requires Lawful(a) && Orderly(a, before + batch + rest) && Cut(before, batch, rest, checkpoint, last)
    requires Reflects(a, row, before + batch + rest, checkpoint, reach, k)
    requires !FoldSkips(a, row, Envelopes(batch))
    ensures var n := |before| + |batch|;
            CoversTo(a, NextRow(a, row, row, Envelopes(batch)), before + batch + rest, n, reach, if k <= n then n else k)
  {
    ReflectsPending(a, row, before, batch, rest, checkpoint, last, reach, k);
    var done := before + batch;
    var rows := done + rest;
    if k <= |done| {
      ReflectsFolds(a, row, before, batch, rest, checkpoint, last, reach, k);
      assert rows[..|done|] == done;
      if k < |done| {
        forall i | 0 <= i < |done| - 1 ensures !a.terminal(done[i].envelope.event) { assert rows[i] == done[i]; }
        FoldLastRow(a, done, Fold(a, None, Envelopes(done)).value);
        assert done[|done| - 1] == batch[|batch| - 1];
      }
    }
  }

  /** A tracked row whose group is not skipped covers everything up to the end of the batch. */
  lemma TrackedMoves<E(!new), Ev(!new)>(a: Applier<E, Ev>, row: Option<E>, before: seq<SeqEvent<Ev>>, batch: seq<SeqEvent<Ev>>, rest: seq<SeqEvent<Ev>>,
                                        checkpoint: int, last: int, reach: int)
    requires Lawful(a) && Orderly(a, before + batch + rest) && Cut(before, batch, rest, checkpoint, last)
    requires Tracking(a, row, before + batch + rest, checkpoint, reach)
    requires !FoldSkips(a, Seen(a, row), Envelopes(batch)) || Closed(a, row, before + batch + rest, reach)
    ensures Covers(a, NextRow(a, row, Seen(a, row), Envelopes(batch)), before + batch + rest, |before| + |batch|, reach)
  {
    var rows, n := before + batch + rest, |before| + |batch|;
    if Closed(a, row, rows, reach) {
      ClosedMoves(a, row, before, batch, rest, reach);
    } else if row.None? {
      CutTells(before, batch, rest, checkpoint, last);
      assert rows != [] ==> rows[0].seqNo > checkpoint - WINDOW;
      assert before + batch == batch && rows[..n] == before + batch;
      assert CoversTo(a, NextRow(a, row, None, Envelopes(batch)), rows, n, reach, n);
    } else {
      var k :| Reflects(a, row, rows, checkpoint, reach, k);
      ReflectsMoves(a, row, before, batch, rest, checkpoint, last, reach, k);
    }
  }

  lemma ClosedMoves<E(!new), Ev(!new)>(a: Applier<E, Ev>, row: Option<E>, before: seq<SeqEvent<Ev>>, batch: seq<SeqEvent<Ev>>, rest: seq<SeqEvent<Ev>>, reach: int)
    requires Lawful(a) && Orderly(a, before + batch + rest) && Closed(a, row, before + batch + rest, reach)
    ensures Covers(a, NextRow(a, row, Seen(a, row), Envelopes(batch)), before + batch + rest, |before| + |batch|, reach)
  {
    var rows, n := before + batch + rest, |before| + |batch|;
    var next := NextRow(a, row, Seen(a, row), Envelopes(batch));
    assert rows[..|rows|] == rows && rows[..n] == before + batch;
    if rest == [] {
      assert rows == before + batch;
      ClosedRefold(a, before, batch, row, reach);
      assert CoversTo(a, next, rows, n, reach, n);
    } else {
      ClosedAhead(a, row, before, batch, rest, reach);
      assert CoversTo(a, next, rows, n, reach, if next == row then |rows| else n);
    }
  }

  /** A row that covers its stream up to a checkpoint tracks it there. */
  lemma CoveringTracks<E(!new), Ev(!new)>(a: Applier<E, Ev>, row: Option<E>, rows: seq<SeqEvent<Ev>>, n: int, last: int, reach: int, k: int)
    requires Lawful(a) && Orderly(a, rows) && CoversTo(a, row, rows, n, reach, k)
    requires forall i :: 0 <= i < n ==> rows[i].seqNo <= reach
    requires forall i :: n <= i < |rows| ==> rows[i].seqNo > last - WINDOW
    ensures Tracking(a, row, rows, last, reach)
  {
    if k > 0 {
      FoldLastRow(a, rows[..k], row);
      if Dark(a, row) {
        assert k == |rows|;
        assert rows[..k] == rows;
      } else {
        assert Reflects(a, row, rows, last, reach, k);
      }
    }
  }

  function Max(x: int, y: int): int {
    if x <= y then y else x
  }

  /** A tracked row whose group is not skipped covers everything up to the new checkpoint, and keeps tracking. */
  lemma PollConverges<E(!new), Ev(!new)>(a: Applier<E, Ev>, log: seq<SeqEvent<Ev>>, id: int, checkpoint: int, reach: int, row: Option<E>)
    requires Lawful(a) && ValidLog(log) && SoundCheckpoint(log, checkpoint) && Window(log, checkpoint) != []
    requires Orderly(a, Of(log, id)) && Tracking(a, row, Of(log, id), checkpoint, reach)
    requires !PollSkips(a, log, id, checkpoint, row) || Closed(a, row, Of(log, id), reach)
    ensures var next, last := PolledRow(a, log, id, checkpoint, row), Last(log, checkpoint);
            && Covers(a, next, Of(log, id), |Of(log[..End(log, checkpoint)], id)|, reach)
            && Tracking(a, next, Of(log, id), last, Max(reach, last))
  {
    var before, batch, rest := CutLog(log, id, checkpoint);
    BatchSorted(a, before, batch, rest);
    TrackedPolls(a, row, before, batch, rest, checkpoint, Last(log, checkpoint), reach);
  }

  lemma TrackedPolls<E(!new), Ev(!new)>(a: Applier<E, Ev>, row: Option<E>, before: seq<SeqEvent<Ev>>, batch: seq<SeqEvent<Ev>>, rest: seq<SeqEvent<Ev>>,
                                        checkpoint: int, last: int, reach: int)
    requires Lawful(a) && Orderly(a, before + batch + rest) && Cut(before, batch, rest, checkpoint, last)
    requires Tracking(a, row, before + batch + rest, checkpoint, reach)
    requires !FoldSkips(a, Seen(a, row), Envelopes(batch)) || Closed(a, row, before + batch + rest, reach)
    ensures var next := NextRow(a, row, Seen(a, row), Envelopes(batch));
            && Covers(a, next, before + batch + rest, |before| + |batch|, reach)
            && Tracking(a, next, before + batch + rest, last, Max(reach, last))
  {
    var rows, n := before + batch + rest, |before| + |batch|;
    var next := NextRow(a, row, Seen(a, row), Envelopes(batch));
    TrackedMoves(a, row, before, batch, rest, checkpoint, last, reach);
    CutTells(before, batch, rest, checkpoint, last);
    var k :| CoversTo(a, next, rows, n, reach, k);
    assert CoversTo(a, next, rows, n, Max(reach, last), k);
    CoveringTracks(a, next, rows, n, last, Max(reach, last), k);
  }

  /** A skipped group keeps tracking exactly if its events can be re-read. */
  lemma SkipTracks<E(!new), Ev(!new)>(a: Applier<E, Ev>, rows: seq<SeqEvent<Ev>>, row: Option<E>, checkpoint: int, reach: int, advanced: int, further: int)
    requires Lawful(a) && Orderly(a, rows) && Tracking(a, row, rows, checkpoint, reach) && checkpoint <= advanced && reach <= further
    ensures Tracking(a, row, rows, advanced, further) <==> Retryable(a, row, rows, advanced, further)
  {
    if Closed(a, row, rows, reach) {
      assert Closed(a, row, rows, further);
    } else if row.Some? {
      var k :| Reflects(a, row, rows, checkpoint, reach, k);
      FoldLastRow(a, rows[..k], row);
      if Retryable(a, row, rows, advanced, further) {
        SkipKeeps(a, rows, row, checkpoint, reach, advanced, further, k);
      }
      if exists j :: Reflects(a, row, rows, advanced, further, j) {
        var j :| Reflects(a, row, rows, advanced, further, j);
        FoldLastRow(a, rows[..j], row);
        NewerBehind(rows, j, a.version(row.value));
      }
    }
  }

  lemma NewerBehind<Ev>(rows: seq<SeqEvent<Ev>>, k: int, version: int)
    requires Increasing(Envelopes(rows)) && 1 <= k <= |rows| && rows[k - 1].envelope.version == version
    ensures forall i :: 0 <= i < |rows| ==> (i >= k <==> rows[i].envelope.version > version)
  {
    forall i | 0 <= i < |rows| ensures i >= k <==> rows[i].envelope.version > version {
      assert Envelopes(rows)[i] == rows[i].envelope && Envelopes(rows)[k - 1] == rows[k - 1].envelope;
    }
  }

  lemma SkipKeeps<E(!new), Ev(!new)>(a: Applier<E, Ev>, rows: seq<SeqEvent<Ev>>, row: Option<E>, checkpoint: int, reach: int, advanced: int, further: int, k: int)
    requires Lawful(a) && Orderly(a, rows) && Reflects(a, row, rows, checkpoint, reach, k) && checkpoint <= advanced && reach <= further
    requires Retryable(a, row, rows, advanced, further)
    ensures Tracking(a, row, rows, advanced, further)
  {
    FoldLastRow(a, rows[..k], row);
    NewerBehind(rows, k, a.version(row.value));
    if !Closed(a, row, rows, further) { assert Reflects(a, row, rows, advanced, further, k); }
  }

  /** The aggregate's rows after a commit. */
  lemma OfCommit<Ev>(log: seq<SeqEvent<Ev>>, e: SeqEvent<Ev>, id: int) returns (p: nat)
    ensures p <= |Of(log, id)|
    ensures Of(Commit(log, e), id) ==
            if e.envelope.id == id then Of(log, id)[..p] + [e] + Of(log, id)[p..] else Of(log, id)
  {
    var at := Below(log, e.seqNo);
    var l, r := Of(log[..at], id), Of(log[at..], id);
    p := |l|;
    assert log == log[..at] + log[at..];
    OfConcat(log[..at], log[at..], id);
    OfInsert(log[..at], e, log[at..], id);
    assert Of(log, id)[..p] == l && Of(log, id)[p..] == r;
  }

  /** What a commit must respect so that the window can still deliver it. */
  ghost predicate Deliverable<E, Ev>(a: Applier<E, Ev>, row: Option<E>, log: seq<SeqEvent<Ev>>, e: SeqEvent<Ev>, checkpoint: int, reach: int) {
    var id := e.envelope.id;
    && Orderly(a, Of(Commit(log, e), id))
    && e.seqNo > checkpoint - WINDOW
    && !Closed(a, row, Of(log, id), reach)
    && (row.Some? ==> e.envelope.version > a.version(row.value))
  }

  /** A row with a newer version than the first `k` rows is inserted behind them. */
  lemma InsertedAfter<Ev>(rows: seq<SeqEvent<Ev>>, e: SeqEvent<Ev>, p: nat, k: nat)
    requires p <= |rows| && 1 <= k <= |rows| && e.envelope.version > rows[k - 1].envelope.version
    requires Increasing(Envelopes(rows[..p] + [e] + rows[p..]))
    ensures k <= p && (rows[..p] + [e] + rows[p..])[..k] == rows[..k]
    ensures forall i :: k <= i < |rows| + 1 ==>
              (rows[..p] + [e] + rows[p..])[i] == if i < p then rows[i] else if i == p then e else rows[i - 1]
  {
    var next := rows[..p] + [e] + rows[p..];
    assert next[p] == e;
    forall i | p <= i < |rows| ensures rows[i].envelope.version > e.envelope.version {
      assert next[i + 1] == rows[i];
      assert Envelopes(next)[p].version < Envelopes(next)[i + 1].version;
    }
  }

  lemma ReflectsInserted<E(!new), Ev(!new)>(a: Applier<E, Ev>, row: Option<E>, rows: seq<SeqEvent<Ev>>, e: SeqEvent<Ev>, p: nat, checkpoint: int, reach: int, k: int)
    requires Lawful(a) && Orderly(a, rows) && Reflects(a, row, rows, checkpoint, reach, k)
    requires p <= |rows| && Increasing(Envelopes(rows[..p] + [e] + rows[p..]))
    requires e.envelope.version > a.version(row.value) && e.seqNo > checkpoint - WINDOW
    ensures Reflects(a, row, rows[..p] + [e] + rows[p..], checkpoint, reach, k)
  {
    FoldLastRow(a, rows[..k], row);
    InsertedAfter(rows, e, p, k);
  }

  /** A deliverable commit, even one behind rows already read, keeps the row tracking. */
  lemma CommitTracks<E(!new), Ev(!new)>(a: Applier<E, Ev>, log: seq<SeqEvent<Ev>>, e: SeqEvent<Ev>, row: Option<E>, checkpoint: int, reach: int)
    requires Lawful(a)
    requires Tracking(a, row, Of(log, e.envelope.id), checkpoint, reach)
    requires Orderly(a, Of(log, e.envelope.id))
    requires Deliverable(a, row, log, e, checkpoint, reach)
    ensures Tracking(a, row, Of(Commit(log, e), e.envelope.id), checkpoint, reach)
  {
    var id := e.envelope.id;
    var rows := Of(log, id);
    var p := OfCommit(log, e, id);
    var next := Of(Commit(log, e), id);
    if row.Some? {
      var k :| Reflects(a, row, rows, checkpoint, reach, k);
      ReflectsInserted(a, row, rows, e, p, checkpoint, reach, k);
    }
  }

  /** The row a use case writes together with its event: the entity rebuilt from the whole stream. */
  function WrittenRow<E, Ev>(a: Applier<E, Ev>, log: seq<SeqEvent<Ev>>, e: SeqEvent<Ev>): Result<Option<E>> {
    Fold(a, None, SortByVersion(Stream(Commit(log, e), e.envelope.id)))
  }

  /** Such a row tracks its stream, wherever the checkpoint is, with its own event in reach. */
  lemma WriteTracks<E(!new), Ev(!new)>(a: Applier<E, Ev>, log: seq<SeqEvent<Ev>>, e: SeqEvent<Ev>, checkpoint: int, reach: int)
    requires Lawful(a) && WrittenRow(a, log, e).Ok? && e.seqNo <= reach
    requires Orderly(a, Of(Commit(log, e), e.envelope.id))
    requires forall i :: 0 <= i < |Of(log, e.envelope.id)| ==> Of(log, e.envelope.id)[i].envelope.version < e.envelope.version
    ensures Tracking(a, WrittenRow(a, log, e).value, Of(Commit(log, e), e.envelope.id), checkpoint, reach)
  {
    var id := e.envelope.id;
    var rows := Of(log, id);
    var p := OfCommit(log, e, id);
    var next := Of(Commit(log, e), id);
    SortKeepsIncreasing(Envelopes(next));
    if rows != [] { InsertedAfter(rows, e, p, |rows|); }
    assert next[|rows|] == e && next[..|next|] == next;
    var row := WrittenRow(a, log, e).value;
    FoldLastRow(a, next, row);
    if !Dark(a, row) { assert Reflects(a, row, next, checkpoint, reach, |next|); }
  }
}
