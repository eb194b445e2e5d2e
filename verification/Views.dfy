/** One aggregate's row next to its log and its projector's checkpoint, and the moves these three make. */
module Views {
  import opened Kernel
  import opened EventLog
  import opened RowProjection
  import opened ChildProjector

  datatype View<+E, +Ev> = View(log: seq<SeqEvent<Ev>>, checkpoint: Option<int>, row: Option<E>)

  /**
   What one step of the pipeline means for one aggregate. A use case either commits an event only, or also
   writes the row in the same transaction. `skipped` says that a poll's write was rolled back.
   */
  datatype Move<+Ev> = Idle | Committing(event: SeqEvent<Ev>) | Writing(event: SeqEvent<Ev>) | Polling(skipped: bool)

  /** A commit uses a positive number that no committed row has. */
  ghost predicate Fresh<Ev>(log: seq<SeqEvent<Ev>>, e: SeqEvent<Ev>) {
    e.seqNo >= 1 && forall i :: 0 <= i < |log| ==> log[i].seqNo != e.seqNo
  }

  lemma CommitKeepsCheckpoint<Ev>(log: seq<SeqEvent<Ev>>, e: SeqEvent<Ev>, checkpoint: Option<int>)
    requires ValidLog(log) && ValidCheckpoint(log, checkpoint) && Fresh(log, e)
    ensures ValidLog(Commit(log, e)) && ValidCheckpoint(Commit(log, e), checkpoint)
  {
    CommitKeepsValid(log, e);
    if checkpoint.Some? {
      var i :| 0 <= i < |log| && log[i].seqNo == checkpoint.value;
      var next, at := Commit(log, e), Below(log, e.seqNo);
      assert next[if i < at then i else i + 1] == log[i];
    }
  }

  /** The view after a poll that writes the aggregate. */
  function Polled<E, Ev>(a: Applier<E, Ev>, id: int, v: View<E, Ev>): View<E, Ev> {
    View(v.log, PolledCheckpoint(v.log, v.checkpoint), PolledRow(a, v.log, id, Position(v.checkpoint), v.row))
  }

  function Moved<E, Ev>(a: Applier<E, Ev>, id: int, v: View<E, Ev>, move: Move<Ev>): View<E, Ev> {
    match move
    case Idle => v
    case Committing(e) => v.(log := Commit(v.log, e))
    case Writing(e) =>
      v.(log := Commit(v.log, e),
         row := if e.envelope.id == id && WrittenRow(a, v.log, e).Ok? then WrittenRow(a, v.log, e).value else v.row)
    case Polling(skipped) => if skipped then v.(checkpoint := PolledCheckpoint(v.log, v.checkpoint)) else Polled(a, id, v)
  }

  /** The newest number that a move, or a list of moves, wrote directly for the aggregate. */
  function ReachAfter<Ev>(id: int, move: Move<Ev>, reach: int): int {
    if move.Writing? && move.event.envelope.id == id then Max(reach, move.event.seqNo) else reach
  }

  function ReachOf<Ev>(id: int, moves: seq<Move<Ev>>): int {
    if moves == [] then 0 else ReachAfter(id, moves[|moves| - 1], ReachOf(id, moves[..|moves| - 1]))
  }

  /** The rows at or below a checkpoint. */
  function Visible<Ev>(log: seq<SeqEvent<Ev>>, checkpoint: Option<int>): seq<SeqEvent<Ev>> {
    log[..Below(log, Position(checkpoint))]
  }

  ghost predicate SoundView<E, Ev>(v: View<E, Ev>) {
    ValidLog(v.log) && ValidCheckpoint(v.log, v.checkpoint)
  }

  /** How far the row may be ahead: to the checkpoint, or to the newest number written directly. */
  function Limit<E, Ev>(v: View<E, Ev>, reach: int): int {
    Max(reach, Position(v.checkpoint))
  }

  /** The row keeps up with an orderly stream. */
  ghost predicate KeepsUp<E, Ev>(a: Applier<E, Ev>, id: int, v: View<E, Ev>, reach: int) {
    && SoundView(v)
    && Orderly(a, Of(v.log, id))
    && Tracking(a, v.row, Of(v.log, id), Position(v.checkpoint), Limit(v, reach))
  }

  /** The stream that the checkpoint covers replays. */
  ghost predicate Accepted<E, Ev>(a: Applier<E, Ev>, id: int, v: View<E, Ev>) {
    Fold(a, None, Stream(Visible(v.log, v.checkpoint), id)).Ok?
  }

  /** The row is the fold of at least everything its checkpoint covers. */
  ghost predicate Caught<E, Ev>(a: Applier<E, Ev>, id: int, v: View<E, Ev>, reach: int) {
    Covers(a, v.row, Of(v.log, id), |Of(Visible(v.log, v.checkpoint), id)|, reach)
  }

  /** The row is the fold of exactly what its checkpoint covers. */
  ghost predicate Converged<E, Ev>(a: Applier<E, Ev>, id: int, v: View<E, Ev>) {
    Fold(a, None, Stream(Visible(v.log, v.checkpoint), id)) == Ok(v.row)
  }

  /** The step's hypothesis: commits are deliverable, written rows are newest, and skipped groups can be re-read. */
  ghost predicate Served<E, Ev>(a: Applier<E, Ev>, id: int, v: View<E, Ev>, move: Move<Ev>, reach: int) {
    match move
    case Idle => true
    case Committing(e) =>
      Fresh(v.log, e) && (e.envelope.id == id ==> Deliverable(a, v.row, v.log, e, Position(v.checkpoint), Limit(v, reach)))
    case Writing(e) => Fresh(v.log, e) && (e.envelope.id == id ==> Newest(a, v.log, e))
    case Polling(skipped) =>
      var advanced := Position(PolledCheckpoint(v.log, v.checkpoint));
      skipped || PollSkips(a, v.log, id, Position(v.checkpoint), v.row) ==>
        Retryable(a, v.row, Of(v.log, id), advanced, Max(reach, advanced))
  }

  /** The event is the newest of its orderly stream, and the stream replays with it. */
  ghost predicate Newest<E, Ev>(a: Applier<E, Ev>, log: seq<SeqEvent<Ev>>, e: SeqEvent<Ev>) {
    && WrittenRow(a, log, e).Ok?
    && Orderly(a, Of(Commit(log, e), e.envelope.id))
    && forall i :: 0 <= i < |Of(log, e.envelope.id)| ==> Of(log, e.envelope.id)[i].envelope.version < e.envelope.version
  }

  lemma BelowIs<Ev>(log: seq<SeqEvent<Ev>>, from: int, k: nat)
    requires k <= |log| && (forall i :: 0 <= i < k ==> log[i].seqNo <= from) && (k < |log| ==> log[k].seqNo > from)
    requires ValidLog(log)
    ensures Below(log, from) == k
  {
  }

  lemma EndIsVisible<Ev>(log: seq<SeqEvent<Ev>>, checkpoint: Option<int>)
    requires ValidLog(log) && ValidCheckpoint(log, checkpoint) && log != []
    ensures Window(log, Position(checkpoint)) != []
    ensures PolledCheckpoint(log, checkpoint) == Some(Last(log, Position(checkpoint)))
    ensures Visible(log, PolledCheckpoint(log, checkpoint)) == log[..End(log, Position(checkpoint))]
  {
    WindowHoldsCheckpoint(log, Position(checkpoint));
    CheckpointAdvances(log, checkpoint);
    BelowIs(log, Last(log, Position(checkpoint)), End(log, Position(checkpoint)));
  }

  /** What a checkpoint covers of an aggregate: its leading rows, up to the checkpoint's number. */
  lemma VisibleRows<Ev>(log: seq<SeqEvent<Ev>>, checkpoint: Option<int>, id: int)
    requires ValidLog(log)
    ensures var n := |Of(Visible(log, checkpoint), id)|;
            && n <= |Of(log, id)| && Of(log, id)[..n] == Of(Visible(log, checkpoint), id)
            && (forall i :: 0 <= i < |Of(log, id)| ==> (i < n <==> Of(log, id)[i].seqNo <= Position(checkpoint)))
  {
    var l, r := RowsAround(log, id, Position(checkpoint));
    LeadingRows(l, r, Position(checkpoint));
  }

  lemma RowsAround<Ev>(log: seq<SeqEvent<Ev>>, id: int, bound: int) returns (l: seq<SeqEvent<Ev>>, r: seq<SeqEvent<Ev>>)
    requires ValidLog(log)
    ensures l == Of(log[..Below(log, bound)], id) && Of(log, id) == l + r
    ensures forall i :: 0 <= i < |l| ==> l[i].seqNo <= bound
    ensures forall i :: 0 <= i < |r| ==> r[i].seqNo > bound
  {
    var at := Below(log, bound);
    l, r := Of(log[..at], id), Of(log[at..], id);
    assert log == log[..at] + log[at..];
    OfConcat(log[..at], log[at..], id);
    OfAtMost(log[..at], id, bound);
    OfAbove(log[at..], id, bound);
  }

  lemma LeadingRows<Ev>(l: seq<SeqEvent<Ev>>, r: seq<SeqEvent<Ev>>, bound: int)
    requires forall i :: 0 <= i < |l| ==> l[i].seqNo <= bound
    requires forall i :: 0 <= i < |r| ==> r[i].seqNo > bound
    ensures (l + r)[..|l|] == l && forall i :: 0 <= i < |l + r| ==> (i < |l| <==> (l + r)[i].seqNo <= bound)
  {
  }

  /** A tracked, open row is skipped by a poll exactly when the stream that the poll covers is refused. */
  lemma SkipsExactly<E(!new), Ev(!new)>(a: Applier<E, Ev>, log: seq<SeqEvent<Ev>>, id: int, checkpoint: int, reach: int, row: Option<E>)
    requires Lawful(a) && ValidLog(log) && SoundCheckpoint(log, checkpoint) && Window(log, checkpoint) != []
    requires Orderly(a, Of(log, id)) && Tracking(a, row, Of(log, id), checkpoint, reach) && !Closed(a, row, Of(log, id), reach)
    ensures PollSkips(a, log, id, checkpoint, row) <==> Fold(a, None, Stream(log[..End(log, checkpoint)], id)).Err?
  {
    var before, batch, rest := CutLog(log, id, checkpoint);
    BatchSorted(a, before, batch, rest);
    OpenSkips(a, row, before, batch, rest, checkpoint, Last(log, checkpoint), reach);
  }

  lemma OpenSkips<E(!new), Ev(!new)>(a: Applier<E, Ev>, row: Option<E>, before: seq<SeqEvent<Ev>>, batch: seq<SeqEvent<Ev>>, rest: seq<SeqEvent<Ev>>,
                                     checkpoint: int, last: int, reach: int)
    requires Lawful(a) && Orderly(a, before + batch + rest) && Cut(before, batch, rest, checkpoint, last)
    requires Tracking(a, row, before + batch + rest, checkpoint, reach) && !Closed(a, row, before + batch + rest, reach)
    ensures FoldSkips(a, Seen(a, row), Envelopes(batch)) <==> Fold(a, None, Envelopes(before + batch)).Err?
  {
    var rows := before + batch + rest;
    if row.None? {
      CutTells(before, batch, rest, checkpoint, last);
      assert rows != [] ==> rows[0].seqNo > checkpoint - WINDOW;
      assert before + batch == batch;
    } else {
      var k :| Reflects(a, row, rows, checkpoint, reach, k);
      ReflectsSkips(a, row, before, batch, rest, checkpoint, last, reach, k);
    }
  }

  lemma ReflectsSkips<E(!new), Ev(!new)>(a: Applier<E, Ev>, row: Option<E>, before: seq<SeqEvent<Ev>>, batch: seq<SeqEvent<Ev>>, rest: seq<SeqEvent<Ev>>,
                                         checkpoint: int, last: int, reach: int, k: int)
    requires Lawful(a) && Orderly(a, before + batch + rest) && Cut(before, batch, rest, checkpoint, last)
    requires Reflects(a, row, before + batch + rest, checkpoint, reach, k)
    ensures FoldSkips(a, row, Envelopes(batch)) <==> Fold(a, None, Envelopes(before + batch)).Err?
  {
    var rows, n := before + batch + rest, |before| + |batch|;
    if k <= n {
      ReflectsFolds(a, row, before, batch, rest, checkpoint, last, reach, k);
    } else {
      ReflectsPending(a, row, before, batch, rest, checkpoint, last, reach, k);
      PrefixReplays(a, rows[..k], n);
      assert rows[..k][..n] == before + batch;
    }
  }

  lemma PrefixReplays<E, Ev>(a: Applier<E, Ev>, rows: seq<SeqEvent<Ev>>, n: nat)
    requires n <= |rows| && Fold(a, None, Envelopes(rows)).Ok?
    ensures Fold(a, None, Envelopes(rows[..n])).Ok?
  {
    assert rows == rows[..n] + rows[n..];
    EnvelopesConcat(rows[..n], rows[n..]);
    FoldConcat(a, None, Envelopes(rows[..n]), Envelopes(rows[n..]));
  }

  /** Nothing replays further than the stream itself: a caught row proves that what the checkpoint covers replays. */
  lemma CaughtAccepted<E, Ev>(a: Applier<E, Ev>, id: int, v: View<E, Ev>, reach: int)
    requires SoundView(v) && Caught(a, id, v, reach)
    ensures Accepted(a, id, v)
    ensures reach <= Position(v.checkpoint) ==> Converged(a, id, v)
  {
    var rows, n := Of(v.log, id), |Of(Visible(v.log, v.checkpoint), id)|;
    VisibleRows(v.log, v.checkpoint, id);
    var k :| CoversTo(a, v.row, rows, n, reach, k);
    PrefixReplays(a, rows[..k], n);
    assert rows[..k][..n] == rows[..n];
  }

  /**
   A poll that writes the row brings it to the fold of at least everything up to the new checkpoint, exactly
   when that replays; and of exactly that, once the checkpoint has passed every direct write.
   */
  ghost predicate Settles<E, Ev>(a: Applier<E, Ev>, id: int, v: View<E, Ev>, reach: int) {
    && (Caught(a, id, v, reach) <==> Accepted(a, id, v))
    && (reach <= Position(v.checkpoint) ==> (Converged(a, id, v) <==> Accepted(a, id, v)))
  }

  lemma PollKeepsUp<E(!new), Ev(!new)>(a: Applier<E, Ev>, id: int, v: View<E, Ev>, skipped: bool, reach: int)
    requires Lawful(a) && KeepsUp(a, id, v, reach) && Served(a, id, v, Polling(skipped), reach)
    ensures var next := Moved(a, id, v, Polling(skipped));
            KeepsUp(a, id, next, reach) && (!skipped ==> Settles(a, id, next, reach))
  {
    var next := Moved(a, id, v, Polling(skipped));
    CheckpointAdvances(v.log, v.checkpoint);
    if v.log == [] {
      assert Window(v.log, Position(v.checkpoint)) == [] && Of(v.log, id) == [];
      assert CoversTo(a, v.row, [], 0, reach, 0);
    } else {
      EndIsVisible(v.log, v.checkpoint);
      PollOfRows(a, id, v, skipped, reach);
      if !skipped && Caught(a, id, next, reach) { CaughtAccepted(a, id, next, reach); }
    }
  }

  lemma PollOfRows<E(!new), Ev(!new)>(a: Applier<E, Ev>, id: int, v: View<E, Ev>, skipped: bool, reach: int)
    requires Lawful(a) && KeepsUp(a, id, v, reach) && Served(a, id, v, Polling(skipped), reach) && v.log != []
    ensures var next := Moved(a, id, v, Polling(skipped));
            && Tracking(a, next.row, Of(v.log, id), Position(next.checkpoint), Limit(next, reach))
            && (!skipped ==> Caught(a, id, next, reach) || !Accepted(a, id, next))
  {
    var c, limit := Position(v.checkpoint), Limit(v, reach);
    var next := Moved(a, id, v, Polling(skipped));
    CheckpointAdvances(v.log, v.checkpoint);
    EndIsVisible(v.log, v.checkpoint);
    if !skipped && (!PollSkips(a, v.log, id, c, v.row) || Closed(a, v.row, Of(v.log, id), limit)) {
      PollConverges(a, v.log, id, c, limit, v.row);
      CoversLess(a, id, next, limit, reach);
    } else {
      SkipTracks(a, Of(v.log, id), v.row, c, limit, Position(next.checkpoint), Limit(next, reach));
      if !skipped { SkipsExactly(a, v.log, id, c, limit, v.row); }
    }
  }

  /** What is covered beyond the checkpoint lies within the directly written reach. */
  lemma CoversLess<E, Ev>(a: Applier<E, Ev>, id: int, v: View<E, Ev>, limit: int, reach: int)
    requires SoundView(v) && limit <= Limit(v, reach)
    requires Covers(a, v.row, Of(v.log, id), |Of(Visible(v.log, v.checkpoint), id)|, limit)
    ensures Caught(a, id, v, reach)
  {
    var n := |Of(Visible(v.log, v.checkpoint), id)|;
    VisibleRows(v.log, v.checkpoint, id);
    var k :| CoversTo(a, v.row, Of(v.log, id), n, limit, k);
    assert CoversTo(a, v.row, Of(v.log, id), n, reach, k);
  }

  lemma CommitKeepsUp<E(!new), Ev(!new)>(a: Applier<E, Ev>, id: int, v: View<E, Ev>, e: SeqEvent<Ev>, reach: int)
    requires Lawful(a) && KeepsUp(a, id, v, reach) && Served(a, id, v, Committing(e), reach)
    ensures KeepsUp(a, id, Moved(a, id, v, Committing(e)), reach)
  {
    CommitKeepsCheckpoint(v.log, e, v.checkpoint);
    if e.envelope.id == id {
      CommitTracks(a, v.log, e, v.row, Position(v.checkpoint), Limit(v, reach));
    } else {
      var p := OfCommit(v.log, e, id);
    }
  }

  lemma WriteKeepsUp<E(!new), Ev(!new)>(a: Applier<E, Ev>, id: int, v: View<E, Ev>, e: SeqEvent<Ev>, reach: int)
    requires Lawful(a) && KeepsUp(a, id, v, reach) && Served(a, id, v, Writing(e), reach)
    ensures KeepsUp(a, id, Moved(a, id, v, Writing(e)), ReachAfter(id, Writing(e), reach))
  {
    CommitKeepsCheckpoint(v.log, e, v.checkpoint);
    if e.envelope.id == id {
      WriteTracks(a, v.log, e, Position(v.checkpoint), Max(Max(reach, e.seqNo), Position(v.checkpoint)));
    } else {
      var p := OfCommit(v.log, e, id);
    }
  }

  /** Every served move keeps the row up with its stream. */
  lemma MoveKeepsUp<E(!new), Ev(!new)>(a: Applier<E, Ev>, id: int, v: View<E, Ev>, move: Move<Ev>, reach: int)
    requires Lawful(a) && KeepsUp(a, id, v, reach) && Served(a, id, v, move, reach)
    ensures KeepsUp(a, id, Moved(a, id, v, move), ReachAfter(id, move, reach))
  {
    match move
    case Idle =>
    case Committing(e) => CommitKeepsUp(a, id, v, e, reach);
    case Writing(e) => WriteKeepsUp(a, id, v, e, reach);
    case Polling(skipped) => PollKeepsUp(a, id, v, skipped, reach);
  }

  // ---------- runs of one aggregate ----------

  /** The views along a run of moves, from an empty log. */
  ghost predicate Path<E, Ev>(a: Applier<E, Ev>, id: int, views: seq<View<E, Ev>>, moves: seq<Move<Ev>>) {
    && |views| == |moves| + 1 && views[0] == View([], None, None)
    && forall i :: 0 <= i < |moves| ==> views[i + 1] == Moved(a, id, views[i], moves[i])
  }

  lemma PathPrefix<E, Ev>(a: Applier<E, Ev>, id: int, views: seq<View<E, Ev>>, moves: seq<Move<Ev>>)
    requires Path(a, id, views, moves) && moves != []
    ensures Path(a, id, views[..|moves|], moves[..|moves| - 1])
  {
  }

  /** Over every run of served moves the row keeps up, and each poll that writes it settles it. */
  lemma {:induction false} ServedPath<E(!new), Ev(!new)>(a: Applier<E, Ev>, id: int, views: seq<View<E, Ev>>, moves: seq<Move<Ev>>)
    requires Lawful(a) && Path(a, id, views, moves)
    requires forall i :: 0 <= i < |moves| ==> Served(a, id, views[i], moves[i], ReachOf(id, moves[..i]))
    ensures KeepsUp(a, id, views[|moves|], ReachOf(id, moves))
    ensures moves != [] && moves[|moves| - 1] == Polling(false) ==> Settles(a, id, views[|moves|], ReachOf(id, moves))
    decreases |moves|
  {
    if moves != [] {
      var n := |moves| - 1;
      PathPrefix(a, id, views, moves);
      forall i | 0 <= i < n ensures Served(a, id, views[..n + 1][i], moves[..n][i], ReachOf(id, moves[..n][..i])) {
        assert moves[..n][..i] == moves[..i];
      }
      ServedPath(a, id, views[..n + 1], moves[..n]);
      var reach := ReachOf(id, moves[..n]);
      MoveKeepsUp(a, id, views[n], moves[n], reach);
      if moves[n] == Polling(false) { PollKeepsUp(a, id, views[n], false, reach); }
    }
  }

  // ---------- the plain discipline ----------

  lemma CommitAppends<Ev>(log: seq<SeqEvent<Ev>>, e: SeqEvent<Ev>, id: int)
    requires ValidLog(log) && e.envelope.id == id
    requires forall i :: 0 <= i < |log| && log[i].envelope.id == id ==> log[i].seqNo < e.seqNo
    ensures Of(Commit(log, e), id) == Of(log, id) + [e]
  {
    var at := Below(log, e.seqNo);
    var before, rest := log[..at], log[at..];
    assert log == before + rest;
    OfConcat(before, rest, id);
    NoneAbove(log, e.seqNo, id);
    OfInsert(before, e, rest, id);
  }

  lemma NoneAbove<Ev>(log: seq<SeqEvent<Ev>>, seqNo: int, id: int)
    requires ValidLog(log) && forall i :: 0 <= i < |log| && log[i].envelope.id == id ==> log[i].seqNo < seqNo
    ensures Of(log[Below(log, seqNo)..], id) == []
  {
    var at := Below(log, seqNo);
    var rest := log[at..];
    forall i | 0 <= i < |rest| ensures rest[i].envelope.id != id {
      assert rest[i] == log[at + i] && log[at + i].seqNo > seqNo;
    }
    OfNone(rest, id);
  }

  lemma OrderlyAppend<E, Ev>(a: Applier<E, Ev>, rows: seq<SeqEvent<Ev>>, e: SeqEvent<Ev>)
    requires Orderly(a, rows)
    requires forall i :: 0 <= i < |rows| ==> rows[i].envelope.version < e.envelope.version && !a.terminal(rows[i].envelope.event)
    ensures Orderly(a, rows + [e])
  {
  }

  lemma TrackedVersion<E(!new), Ev(!new)>(a: Applier<E, Ev>, row: Option<E>, rows: seq<SeqEvent<Ev>>, checkpoint: int, reach: int, version: int)
    requires Lawful(a) && Orderly(a, rows) && Tracking(a, row, rows, checkpoint, reach) && row.Some?
    requires forall i :: 0 <= i < |rows| ==> rows[i].envelope.version < version
    ensures a.version(row.value) < version
  {
    if Closed(a, row, rows, reach) {
      FoldLastRow(a, rows, row);
    } else {
      var k :| Reflects(a, row, rows, checkpoint, reach, k);
      FoldLastRow(a, rows[..k], row);
    }
  }

  /** An event in stream order: newer than everything committed for its aggregate, none of which is terminal. */
  ghost predicate InOrder<E, Ev>(a: Applier<E, Ev>, v: View<E, Ev>, e: SeqEvent<Ev>) {
    forall i :: 0 <= i < |v.log| && v.log[i].envelope.id == e.envelope.id ==>
      v.log[i].seqNo < e.seqNo && v.log[i].envelope.version < e.envelope.version && !a.terminal(v.log[i].envelope.event)
  }

  lemma InOrderAppends<E(!new), Ev(!new)>(a: Applier<E, Ev>, v: View<E, Ev>, e: SeqEvent<Ev>)
    requires ValidLog(v.log) && Orderly(a, Of(v.log, e.envelope.id)) && InOrder(a, v, e)
    ensures var rows := Of(v.log, e.envelope.id);
            && Of(Commit(v.log, e), e.envelope.id) == rows + [e] && Orderly(a, rows + [e])
            && forall k :: 0 <= k < |rows| ==> rows[k].envelope.version < e.envelope.version && !a.terminal(rows[k].envelope.event)
  {
    var rows := Of(v.log, e.envelope.id);
    forall k | 0 <= k < |rows| ensures rows[k].envelope.version < e.envelope.version && !a.terminal(rows[k].envelope.event) {
      var n := OfAt(v.log, e.envelope.id, k);
    }
    CommitAppends(v.log, e, e.envelope.id);
    OrderlyAppend(a, rows, e);
  }

  /** An in-order commit whose number is inside the window is deliverable. */
  lemma InOrderDelivers<E(!new), Ev(!new)>(a: Applier<E, Ev>, v: View<E, Ev>, e: SeqEvent<Ev>, reach: int)
    requires Lawful(a) && KeepsUp(a, e.envelope.id, v, reach) && Fresh(v.log, e) && InOrder(a, v, e)
    requires e.seqNo > Position(v.checkpoint) - WINDOW
    ensures Served(a, e.envelope.id, v, Committing(e), reach)
  {
    InOrderAppends(a, v, e);
    if v.row.Some? { TrackedVersion(a, v.row, Of(v.log, e.envelope.id), Position(v.checkpoint), Limit(v, reach), e.envelope.version); }
  }

  lemma AcceptedPrefix<E, Ev>(a: Applier<E, Ev>, log: seq<SeqEvent<Ev>>, id: int, n: nat)
    requires n <= |log| && Fold(a, None, Stream(log, id)).Ok?
    ensures Fold(a, None, Stream(log[..n], id)).Ok?
  {
    assert log == log[..n] + log[n..];
    OfConcat(log[..n], log[n..], id);
    EnvelopesConcat(Of(log[..n], id), Of(log[n..], id));
    FoldConcat(a, None, Stream(log[..n], id), Stream(log[n..], id));
  }

  /** An accepted stream is never skipped, except where that is harmless. */
  lemma AcceptedServes<E(!new), Ev(!new)>(a: Applier<E, Ev>, id: int, v: View<E, Ev>, reach: int)
    requires Lawful(a) && KeepsUp(a, id, v, reach) && Fold(a, None, Stream(v.log, id)).Ok?
    ensures Served(a, id, v, Polling(false), reach)
  {
    var c := Position(v.checkpoint);
    CheckpointAdvances(v.log, v.checkpoint);
    if v.log != [] && !Closed(a, v.row, Of(v.log, id), Limit(v, reach)) {
      EndIsVisible(v.log, v.checkpoint);
      AcceptedPrefix(a, v.log, id, End(v.log, c));
      SkipsExactly(a, v.log, id, c, Limit(v, reach), v.row);
    }
  }

  /**
   The plain discipline: events of the aggregate come in stream order, those committed without their row
   inside the window, no write fails, and what is committed replays.
   */
  ghost predicate Plain<E, Ev>(a: Applier<E, Ev>, id: int, v: View<E, Ev>, move: Move<Ev>) {
    match move
    case Idle => true
    case Committing(e) =>
      Fresh(v.log, e) && (e.envelope.id == id ==> InOrder(a, v, e) && e.seqNo > Position(v.checkpoint) - WINDOW)
    case Writing(e) => Fresh(v.log, e) && (e.envelope.id == id ==> InOrder(a, v, e) && WrittenRow(a, v.log, e).Ok?)
    case Polling(skipped) => !skipped && Fold(a, None, Stream(v.log, id)).Ok?
  }

  lemma PlainServes<E(!new), Ev(!new)>(a: Applier<E, Ev>, id: int, v: View<E, Ev>, move: Move<Ev>, reach: int)
    requires Lawful(a) && KeepsUp(a, id, v, reach) && Plain(a, id, v, move)
    ensures Served(a, id, v, move, reach)
  {
    match move
    case Idle =>
    case Committing(e) => if e.envelope.id == id { InOrderDelivers(a, v, e, reach); }
    case Writing(e) => if e.envelope.id == id { InOrderAppends(a, v, e); }
    case Polling(_) => AcceptedServes(a, id, v, reach);
  }

  lemma PlainPollAccepts<E(!new), Ev(!new)>(a: Applier<E, Ev>, id: int, v: View<E, Ev>)
    requires SoundView(v) && Plain(a, id, v, Polling(false))
    ensures Accepted(a, id, Moved(a, id, v, Polling(false)))
  {
    AcceptedPrefix(a, v.log, id, Below(v.log, Position(PolledCheckpoint(v.log, v.checkpoint))));
  }

  /**
   In every run of plain moves, after each poll the row is the fold of at least everything up to the
   checkpoint, and of exactly that once the checkpoint has passed every direct write.
   */
  lemma {:induction false} PlainPath<E(!new), Ev(!new)>(a: Applier<E, Ev>, id: int, views: seq<View<E, Ev>>, moves: seq<Move<Ev>>)
    requires Lawful(a) && Path(a, id, views, moves)
    requires forall i :: 0 <= i < |moves| ==> Plain(a, id, views[i], moves[i])
    ensures KeepsUp(a, id, views[|moves|], ReachOf(id, moves))
    ensures moves != [] && moves[|moves| - 1].Polling? ==>
              && Caught(a, id, views[|moves|], ReachOf(id, moves))
              && (ReachOf(id, moves) <= Position(views[|moves|].checkpoint) ==> Converged(a, id, views[|moves|]))
    decreases |moves|
  {
    if moves != [] {
      var n := |moves| - 1;
      PathPrefix(a, id, views, moves);
      PlainPath(a, id, views[..n + 1], moves[..n]);
      var reach := ReachOf(id, moves[..n]);
      PlainServes(a, id, views[n], moves[n], reach);
      MoveKeepsUp(a, id, views[n], moves[n], reach);
      if moves[n].Polling? {
        PollKeepsUp(a, id, views[n], false, reach);
        PlainPollAccepts(a, id, views[n]);
      }
    }
  }

  // ---------- closed rows ----------

  /** The terminal event is behind the checkpoint, and the row shows it. */
  ghost predicate ClosedView<E, Ev>(a: Applier<E, Ev>, id: int, v: View<E, Ev>) {
    SoundView(v) && Orderly(a, Of(v.log, id)) && Closed(a, v.row, Of(v.log, id), Position(v.checkpoint))
  }

  /** Once the terminal event is behind the checkpoint the row never changes again, whatever fails. */
  lemma ClosedForGood<E(!new), Ev(!new)>(a: Applier<E, Ev>, id: int, v: View<E, Ev>, move: Move<Ev>)
    requires Lawful(a) && ClosedView(a, id, v)
    requires move.Committing? || move.Writing? ==> Fresh(v.log, move.event) && move.event.envelope.id != id
    ensures ClosedView(a, id, Moved(a, id, v, move)) && Moved(a, id, v, move).row == v.row
  {
    match move
    case Idle =>
    case Committing(e) =>
      CommitKeepsCheckpoint(v.log, e, v.checkpoint);
      var p := OfCommit(v.log, e, id);
    case Writing(e) =>
      CommitKeepsCheckpoint(v.log, e, v.checkpoint);
      var p := OfCommit(v.log, e, id);
    case Polling(_) =>
      CheckpointAdvances(v.log, v.checkpoint);
      EndIsVisible(v.log, v.checkpoint);
      ClosedStays(a, v.log, id, Position(v.checkpoint), v.row);
  }

  lemma DeletionOnCut<E(!new), Ev(!new)>(a: Applier<E, Ev>, before: seq<SeqEvent<Ev>>, batch: seq<SeqEvent<Ev>>, rest: seq<SeqEvent<Ev>>, reach: int)
    requires Lawful(a) && Orderly(a, before + batch + rest) && Closed(a, None, before + batch + rest, reach)
    ensures var next := NextRow(a, None, None, Envelopes(batch));
            && (next.Some? <==> before == [] && batch != [] && rest != [])
            && (next.Some? ==> Fold(a, None, Envelopes(before + batch)) == Ok(next))
  {
    if rest == [] {
      assert before + batch + rest == before + batch;
      ClosedRefold(a, before, batch, None, reach);
    } else {
      ClosedAhead(a, None, before, batch, rest, reach);
    }
  }

  /**
   A deletion whose use case removed the row itself, before any poll read it. The next poll brings the row
   back exactly if it reads the creation but not yet the deletion.
   */
  lemma DirectDeletionComesBack<E(!new), Ev(!new)>(a: Applier<E, Ev>, id: int, v: View<E, Ev>)
    requires Lawful(a) && SoundView(v) && v.log != [] && Orderly(a, Of(v.log, id)) && v.row.None?
    requires Of(v.log, id) != [] && Closed(a, None, Of(v.log, id), Of(v.log, id)[|Of(v.log, id)| - 1].seqNo)
    ensures var next, rows := Polled(a, id, v), Of(v.log, id);
            && (next.row.Some? <==> Position(v.checkpoint) - WINDOW < rows[0].seqNo <= Position(next.checkpoint) < rows[|rows| - 1].seqNo)
            && (next.row.Some? ==> Converged(a, id, next))
  {
    var c, rows := Position(v.checkpoint), Of(v.log, id);
    EndIsVisible(v.log, v.checkpoint);
    var before, batch, rest := CutLog(v.log, id, c);
    CutTells(before, batch, rest, c, Last(v.log, c));
    BatchSorted(a, before, batch, rest);
    DeletionOnCut(a, before, batch, rest, rows[|rows| - 1].seqNo);
  }

  // ---------- progress ----------

  /** Successive views under polls of a log that stands still. */
  ghost predicate PollTrace<E, Ev>(a: Applier<E, Ev>, id: int, views: seq<View<E, Ev>>) {
    views != [] && forall i :: 0 <= i < |views| - 1 ==> views[i + 1] == Polled(a, id, views[i])
  }

  /** After `n` polls the checkpoint is the newest committed number, or moved by at least 900 a poll. */
  ghost predicate Reached<Ev>(log: seq<SeqEvent<Ev>>, start: Option<int>, n: nat, checkpoint: Option<int>)
    requires log != []
  {
    checkpoint == Some(log[|log| - 1].seqNo) || Position(checkpoint) >= Position(start) + 900 * n
  }

  lemma ReachedNext<Ev>(log: seq<SeqEvent<Ev>>, start: Option<int>, n: nat, checkpoint: Option<int>)
    requires ValidLog(log) && ValidCheckpoint(log, checkpoint) && log != [] && n > 0
    requires Reached(log, start, n - 1, checkpoint)
    ensures Reached(log, start, n, PolledCheckpoint(log, checkpoint))
  {
    if checkpoint == Some(log[|log| - 1].seqNo) { StaysAtTail(log, checkpoint); } else { CheckpointAdvances(log, checkpoint); }
  }

  /** A poll that starts at the newest committed row ends there. */
  lemma StaysAtTail<Ev>(log: seq<SeqEvent<Ev>>, checkpoint: Option<int>)
    requires ValidLog(log) && log != [] && checkpoint == Some(log[|log| - 1].seqNo)
    ensures PolledCheckpoint(log, checkpoint) == checkpoint
  {
  }

  lemma SettlesOnce<E(!new), Ev(!new)>(a: Applier<E, Ev>, id: int, v: View<E, Ev>, reach: int)
    requires Lawful(a) && KeepsUp(a, id, v, reach) && Fold(a, None, Stream(v.log, id)).Ok?
    ensures KeepsUp(a, id, Polled(a, id, v), reach) && Caught(a, id, Polled(a, id, v), reach)
  {
    PlainServes(a, id, v, Polling(false), reach);
    PollKeepsUp(a, id, v, false, reach);
    PlainPollAccepts(a, id, v);
  }

  lemma {:induction false} TraceKeepsUp<E(!new), Ev(!new)>(a: Applier<E, Ev>, id: int, views: seq<View<E, Ev>>, reach: int, n: nat)
    requires Lawful(a) && PollTrace(a, id, views) && n < |views|
    requires KeepsUp(a, id, views[0], reach) && Fold(a, None, Stream(views[0].log, id)).Ok?
    ensures views[n].log == views[0].log && KeepsUp(a, id, views[n], reach)
    ensures n > 0 ==> Caught(a, id, views[n], reach)
  {
    if n > 0 {
      TraceKeepsUp(a, id, views, reach, n - 1);
      SettlesOnce(a, id, views[n - 1], reach);
    }
  }

  lemma {:induction false} TraceReaches<E, Ev>(a: Applier<E, Ev>, id: int, views: seq<View<E, Ev>>, n: nat)
    requires PollTrace(a, id, views) && n < |views| && SoundView(views[0]) && views[0].log != []
    ensures views[n].log == views[0].log && SoundView(views[n]) && Reached(views[0].log, views[0].checkpoint, n, views[n].checkpoint)
  {
    if n > 0 {
      TraceReaches(a, id, views, n - 1);
      ReachedNext(views[0].log, views[0].checkpoint, n, views[n - 1].checkpoint);
      CheckpointAdvances(views[0].log, views[n - 1].checkpoint);
    }
  }

  /**
   Progress: polling a log that stands still, an accepted stream's row is caught up after every poll, and
   each poll either reaches the newest committed row or covers at least 900 numbers more.
   */
  lemma Progress<E(!new), Ev(!new)>(a: Applier<E, Ev>, id: int, views: seq<View<E, Ev>>, reach: int, n: nat)
    requires Lawful(a) && PollTrace(a, id, views) && n < |views| && views[0].log != []
    requires KeepsUp(a, id, views[0], reach) && Fold(a, None, Stream(views[0].log, id)).Ok?
    ensures views[n].log == views[0].log && KeepsUp(a, id, views[n], reach) && (n > 0 ==> Caught(a, id, views[n], reach))
    ensures Reached(views[0].log, views[0].checkpoint, n, views[n].checkpoint)
  {
    TraceKeepsUp(a, id, views, reach, n);
    TraceReaches(a, id, views, n);
  }

  lemma AtMostTail<Ev>(log: seq<SeqEvent<Ev>>, checkpoint: Option<int>)
    requires ValidLog(log) && ValidCheckpoint(log, checkpoint) && log != []
    ensures Position(checkpoint) <= log[|log| - 1].seqNo
    ensures Position(checkpoint) == log[|log| - 1].seqNo ==> checkpoint == Some(log[|log| - 1].seqNo) && Visible(log, checkpoint) == log
  {
  }

  /** At the newest committed row a caught row is the fold of the whole stream. */
  lemma CaughtAtTail<E, Ev>(a: Applier<E, Ev>, id: int, v: View<E, Ev>, reach: int)
    requires SoundView(v) && v.log != [] && v.checkpoint == Some(v.log[|v.log| - 1].seqNo) && Caught(a, id, v, reach)
    ensures Fold(a, None, Stream(v.log, id)) == Ok(v.row)
  {
    AtMostTail(v.log, v.checkpoint);
    var k :| CoversTo(a, v.row, Of(v.log, id), |Of(v.log, id)|, reach, k);
    assert Of(v.log, id)[..k] == Of(v.log, id);
  }

  /**
   Quiescence: once enough polls have passed to cover the log, the row is the fold of the aggregate's
   whole stream and the checkpoint is the newest committed number, after each further poll as well.
   */
  lemma Quiescence<E(!new), Ev(!new)>(a: Applier<E, Ev>, id: int, views: seq<View<E, Ev>>, reach: int, n: nat)
    requires Lawful(a) && PollTrace(a, id, views) && 0 < n < |views| && views[0].log != []
    requires KeepsUp(a, id, views[0], reach) && Fold(a, None, Stream(views[0].log, id)).Ok?
    requires var log := views[0].log; Position(views[0].checkpoint) + 900 * n >= log[|log| - 1].seqNo
    ensures var log := views[0].log;
            views[n] == View(log, Some(log[|log| - 1].seqNo), Fold(a, None, Stream(log, id)).value)
  {
    Progress(a, id, views, reach, n);
    AtMostTail(views[0].log, views[n].checkpoint);
    CaughtAtTail(a, id, views[n], reach);
  }
}
