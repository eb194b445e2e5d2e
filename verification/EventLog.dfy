/** The transactional event log that the projectors tail, and the window each poll re-reads. */
module EventLog {
  import opened Kernel

  /** One committed row: the global sequence number assigned at insert time, and the envelope. */
  datatype SeqEvent<+Ev> = SeqEvent(seqNo: int, envelope: Envelope<Ev>)

  /** Margin below the checkpoint that every poll re-reads. */
  const WINDOW: int := 100

  /** Upper bound on the rows of one poll. */
  const BATCH_LIMIT: nat := 1000

  /** A log lists its committed rows by sequence number; numbers are unique and start at 1. */
  ghost predicate ValidLog<Ev>(log: seq<SeqEvent<Ev>>) {
    && (forall i, j :: 0 <= i < j < |log| ==> log[i].seqNo < log[j].seqNo)
    && (forall i :: 0 <= i < |log| ==> log[i].seqNo >= 1)
  }

  /** The number of leading rows at or below a sequence number. */
  function Below<Ev>(log: seq<SeqEvent<Ev>>, from: int): (r: nat)
    ensures r <= |log|
    ensures forall i :: 0 <= i < r ==> log[i].seqNo <= from
    ensures r < |log| ==> log[r].seqNo > from
  {
    if log == [] || log[0].seqNo > from then 0
    else
      var rest := Below(log[1..], from);
      assert forall i :: 0 < i <= rest ==> log[i] == log[1..][i - 1];
      1 + rest
  }

  /** A commit makes a row visible at its sequence number, which may lie before rows already visible. */
  function Commit<Ev>(log: seq<SeqEvent<Ev>>, e: SeqEvent<Ev>): seq<SeqEvent<Ev>> {
    var at := Below(log, e.seqNo);
    log[..at] + [e] + log[at..]
  }

  lemma CommitKeepsValid<Ev>(log: seq<SeqEvent<Ev>>, e: SeqEvent<Ev>)
    requires ValidLog(log) && e.seqNo >= 1
    requires forall i :: 0 <= i < |log| ==> log[i].seqNo != e.seqNo
    ensures ValidLog(Commit(log, e))
  {
  }

  /** Where the window of a poll begins and ends in the log. */
  function First<Ev>(log: seq<SeqEvent<Ev>>, checkpoint: int): nat {
    Below(log, checkpoint - WINDOW)
  }

  function End<Ev>(log: seq<SeqEvent<Ev>>, checkpoint: int): (r: nat)
    ensures First(log, checkpoint) <= r <= |log|
  {
    var first := First(log, checkpoint);
    if first + BATCH_LIMIT <= |log| then first + BATCH_LIMIT else |log|
  }

  /** The lowest `BATCH_LIMIT` rows above `checkpoint - WINDOW`, in sequence order. */
  function Window<Ev>(log: seq<SeqEvent<Ev>>, checkpoint: int): seq<SeqEvent<Ev>> {
    log[First(log, checkpoint)..End(log, checkpoint)]
  }

  /** Distinct sequence numbers spread at least as far as their positions. */
  lemma {:induction false} Spread<Ev>(log: seq<SeqEvent<Ev>>, i: nat, j: nat)
    requires ValidLog(log) && i <= j < |log|
    ensures log[j].seqNo >= log[i].seqNo + (j - i)
    decreases j
  {
    if i < j { Spread(log, i, j - 1); }
  }

  /** A checkpoint is the default 0 or the number of a committed row. */
  ghost predicate SoundCheckpoint<Ev>(log: seq<SeqEvent<Ev>>, checkpoint: int) {
    checkpoint == 0 || exists i :: 0 <= i < |log| && log[i].seqNo == checkpoint
  }

  /**
   What a non-empty window holds: exactly the committed rows above `checkpoint - WINDOW` up to its last
   row. That last row is never below the checkpoint; it is the newest committed row, or at least
   `BATCH_LIMIT - WINDOW` ahead.
   */
  lemma WindowCovers<Ev>(log: seq<SeqEvent<Ev>>, checkpoint: int)
    requires ValidLog(log) && SoundCheckpoint(log, checkpoint)
    requires Window(log, checkpoint) != []
    ensures var last := log[End(log, checkpoint) - 1].seqNo;
            && last >= checkpoint
            && (End(log, checkpoint) == |log| || last >= checkpoint + (BATCH_LIMIT - WINDOW))
            && (forall i :: 0 <= i < |log| ==>
                  (First(log, checkpoint) <= i < End(log, checkpoint) <==> checkpoint - WINDOW < log[i].seqNo <= last))
  {
    var first, end := First(log, checkpoint), End(log, checkpoint);
    if end == first + BATCH_LIMIT { Spread(log, first, end - 1); }
    if checkpoint != 0 && end == |log| {
      var i :| 0 <= i < |log| && log[i].seqNo == checkpoint;
      assert i <= end - 1;
    }
  }

  /** A poll reads the lowest 1000 of the rows whose numbers are above the checkpoint minus 100, and no other. */
  lemma WindowMargins<Ev>(log: seq<SeqEvent<Ev>>, checkpoint: int, i: nat)
    requires ValidLog(log) && i < |log|
    ensures |Window(log, checkpoint)| <= 1000
    ensures log[i].seqNo <= checkpoint - 100 ==> log[i] !in Window(log, checkpoint)
    ensures log[i].seqNo > checkpoint - 100 && (i < 1000 || log[i - 1000].seqNo <= checkpoint - 100) ==> log[i] in Window(log, checkpoint)
    ensures i >= 1000 && log[i - 1000].seqNo > checkpoint - 100 ==> log[i] !in Window(log, checkpoint)
  {
    var first, end, batch := First(log, checkpoint), End(log, checkpoint), Window(log, checkpoint);
    assert forall k :: 0 <= k < |batch| ==> batch[k] == log[first + k];
    if first <= i < end { assert batch[i - first] == log[i]; }
  }

  /** At a sound, positive checkpoint the window is never empty. */
  lemma WindowHoldsCheckpoint<Ev>(log: seq<SeqEvent<Ev>>, checkpoint: int)
    requires ValidLog(log) && SoundCheckpoint(log, checkpoint) && log != []
    ensures Window(log, checkpoint) != []
  {
  }

  /** The rows of one aggregate, in sequence order. */
  function Of<Ev>(log: seq<SeqEvent<Ev>>, id: int): seq<SeqEvent<Ev>> {
    if log == [] then []
    else if log[0].envelope.id == id then [log[0]] + Of(log[1..], id)
    else Of(log[1..], id)
  }

  lemma {:induction false} OfAt<Ev>(log: seq<SeqEvent<Ev>>, id: int, k: nat) returns (n: nat)
    requires k < |Of(log, id)|
    ensures n < |log| && log[n] == Of(log, id)[k] && log[n].envelope.id == id
  {
    if log[0].envelope.id != id {
      n := OfAt(log[1..], id, k);
      n := n + 1;
    } else if k == 0 {
      n := 0;
    } else {
      n := OfAt(log[1..], id, k - 1);
      n := n + 1;
    }
  }

  lemma {:induction false} OfMembers<Ev>(log: seq<SeqEvent<Ev>>, id: int)
    ensures forall e :: e in Of(log, id) <==> e in log && e.envelope.id == id
  {
    if log != [] {
      OfMembers(log[1..], id);
      assert log == [log[0]] + log[1..];
    }
  }

  lemma {:induction false} OfConcat<Ev>(xs: seq<SeqEvent<Ev>>, ys: seq<SeqEvent<Ev>>, id: int)
    ensures Of(xs + ys, id) == Of(xs, id) + Of(ys, id)
  {
    if xs == [] {
      assert xs + ys == ys;
    } else {
      assert (xs + ys)[0] == xs[0] && (xs + ys)[1..] == xs[1..] + ys;
      OfConcat(xs[1..], ys, id);
    }
  }

  lemma OfInsert<Ev>(xs: seq<SeqEvent<Ev>>, e: SeqEvent<Ev>, ys: seq<SeqEvent<Ev>>, id: int)
    ensures Of(xs + [e] + ys, id) == (if e.envelope.id == id then Of(xs, id) + [e] else Of(xs, id)) + Of(ys, id)
  {
    OfConcat(xs + [e], ys, id);
    OfConcat(xs, [e], id);
    assert [e][1..] == [];
    assert Of([e], id) == if e.envelope.id == id then [e] else [];
  }

  lemma {:induction false} OfNone<Ev>(xs: seq<SeqEvent<Ev>>, id: int)
    requires forall i :: 0 <= i < |xs| ==> xs[i].envelope.id != id
    ensures Of(xs, id) == []
  {
    if xs != [] { OfNone(xs[1..], id); }
  }

  lemma {:induction false} OfAll<Ev>(xs: seq<SeqEvent<Ev>>, id: int)
    requires forall i :: 0 <= i < |xs| ==> xs[i].envelope.id == id
    ensures Of(xs, id) == xs
  {
    if xs != [] {
      OfAll(xs[1..], id);
      HeadTail(xs);
    }
  }

  /** A short log that lies above the margin is read whole. */
  lemma WindowAll<Ev>(log: seq<SeqEvent<Ev>>, checkpoint: int)
    requires |log| <= BATCH_LIMIT && forall i :: 0 <= i < |log| ==> log[i].seqNo > checkpoint - WINDOW
    ensures Window(log, checkpoint) == log && End(log, checkpoint) == |log|
  {
  }

  /** Splitting the log at two points splits every aggregate's rows the same way. */
  lemma OfSplit<Ev>(log: seq<SeqEvent<Ev>>, id: int, i: nat, j: nat)
    requires i <= j <= |log|
    ensures Of(log, id) == Of(log[..i], id) + Of(log[i..j], id) + Of(log[j..], id)
    ensures Of(log[..j], id) == Of(log[..i], id) + Of(log[i..j], id)
  {
    assert log == log[..j] + log[j..] && log[..j] == log[..i] + log[i..j];
    OfConcat(log[..j], log[j..], id);
    OfConcat(log[..i], log[i..j], id);
  }

  function Envelopes<Ev>(rows: seq<SeqEvent<Ev>>): (r: seq<Envelope<Ev>>)
    ensures |r| == |rows|
    ensures forall i :: 0 <= i < |rows| ==> r[i] == rows[i].envelope
  {
    seq(|rows|, i requires 0 <= i < |rows| => rows[i].envelope)
  }

  /** The envelopes of one aggregate, in sequence order. */
  function Stream<Ev>(log: seq<SeqEvent<Ev>>, id: int): seq<Envelope<Ev>> {
    Envelopes(Of(log, id))
  }

  function Ids<Ev>(rows: seq<SeqEvent<Ev>>): set<int> {
    set i | 0 <= i < |rows| :: rows[i].envelope.id
  }

  /** The rows whose aggregate is not in `without`. */
  function Dropping<Ev>(rows: seq<SeqEvent<Ev>>, without: set<int>): seq<SeqEvent<Ev>> {
    if rows == [] then []
    else if rows[0].envelope.id in without then Dropping(rows[1..], without)
    else [rows[0]] + Dropping(rows[1..], without)
  }

  /** Removing whole groups from a batch leaves the other groups as they were. */
  lemma {:induction false} DroppingKeepsOthers<Ev>(rows: seq<SeqEvent<Ev>>, without: set<int>, id: int)
    ensures Of(Dropping(rows, without), id) == if id in without then [] else Of(rows, id)
  {
    if rows != [] {
      DroppingKeepsOthers(rows[1..], without, id);
      if rows[0].envelope.id !in without {
        var kept := [rows[0]] + Dropping(rows[1..], without);
        assert kept[1..] == Dropping(rows[1..], without);
      }
    }
  }

  lemma OfEmptyIffAbsent<Ev>(rows: seq<SeqEvent<Ev>>, id: int)
    ensures Of(rows, id) == [] <==> id !in Ids(rows)
  {
  }

  lemma StreamSnoc<Ev>(rows: seq<SeqEvent<Ev>>, e: SeqEvent<Ev>, id: int)
    ensures Stream(rows + [e], id) == if e.envelope.id == id then Stream(rows, id) + [e.envelope] else Stream(rows, id)
  {
    OfConcat(rows, [e], id);
    assert [e][1..] == [];
    assert Of([e], id) == if e.envelope.id == id then [e] else [];
  }

  ghost predicate Grouped<Ev>(groups: map<int, seq<Envelope<Ev>>>, events: seq<SeqEvent<Ev>>) {
    && groups.Keys == Ids(events)
    && forall id :: id in groups ==> groups[id] == Stream(events, id)
  }

  lemma GroupedSnoc<Ev>(groups: map<int, seq<Envelope<Ev>>>, events: seq<SeqEvent<Ev>>, e: SeqEvent<Ev>)
    requires Grouped(groups, events)
    ensures var id := e.envelope.id;
            Grouped(groups[id := (if id in groups then groups[id] else []) + [e.envelope]], events + [e])
  {
    var id := e.envelope.id;
    if id !in groups { OfEmptyIffAbsent(events, id); }
    IdsSnoc(events, e);
    var next := groups[id := (if id in groups then groups[id] else []) + [e.envelope]];
    forall other | other in next ensures next[other] == Stream(events + [e], other) {
      StreamSnoc(events, e, other);
    }
  }

  /** Collects a batch into one list of envelopes per aggregate. */
  method GroupByAggregate<Ev>(events: seq<SeqEvent<Ev>>) returns (groups: map<int, seq<Envelope<Ev>>>)
    ensures groups.Keys == Ids(events)
    ensures forall id :: id in groups ==> groups[id] == Stream(events, id)
  {
    groups := map[];
    for k := 0 to |events|
      invariant Grouped(groups, events[..k])
    {
      var id := events[k].envelope.id;
      GroupedSnoc(groups, events[..k], events[k]);
      assert events[..k] + [events[k]] == events[..k + 1];
      groups := groups[id := (if id in groups then groups[id] else []) + [events[k].envelope]];
    }
    assert events[..|events|] == events;
  }

  lemma IdsSnoc<Ev>(rows: seq<SeqEvent<Ev>>, e: SeqEvent<Ev>)
    ensures Ids(rows + [e]) == Ids(rows) + {e.envelope.id}
  {
    var all := rows + [e];
    assert all[|rows|] == e;
    forall i | 0 <= i < |rows| ensures all[i] == rows[i] {}
    forall x | x in Ids(rows) ensures x in Ids(all) {
      var i :| 0 <= i < |rows| && rows[i].envelope.id == x;
      assert all[i].envelope.id == x;
    }
  }

  ghost predicate VersionSorted<Ev>(xs: seq<Envelope<Ev>>) {
    forall i, j :: 0 <= i < j < |xs| ==> xs[i].version <= xs[j].version
  }

  ghost predicate Increasing<Ev>(xs: seq<Envelope<Ev>>) {
    forall i, j :: 0 <= i < j < |xs| ==> xs[i].version < xs[j].version
  }

  /** No two different envelopes share a version: the event tables' primary key, within one aggregate. */
  ghost predicate KeyedByVersion<Ev>(xs: seq<Envelope<Ev>>) {
    forall i, j :: 0 <= i < |xs| && 0 <= j < |xs| && xs[i].version == xs[j].version ==> xs[i] == xs[j]
  }

  function Insert<Ev>(env: Envelope<Ev>, xs: seq<Envelope<Ev>>): seq<Envelope<Ev>> {
    if xs == [] || env.version <= xs[0].version then [env] + xs
    else [xs[0]] + Insert(env, xs[1..])
  }

  /** A newest version goes last. */
  lemma {:induction false} InsertLast<Ev>(env: Envelope<Ev>, xs: seq<Envelope<Ev>>)
    requires forall i :: 0 <= i < |xs| ==> xs[i].version < env.version
    ensures Insert(env, xs) == xs + [env]
  {
    if xs != [] {
      InsertLast(env, xs[1..]);
      assert xs == [xs[0]] + xs[1..];
    }
  }

  /** Stable sort by version. */
  function SortByVersion<Ev>(xs: seq<Envelope<Ev>>): seq<Envelope<Ev>> {
    if xs == [] then [] else Insert(xs[0], SortByVersion(xs[1..]))
  }

  lemma {:induction false} InsertSorted<Ev>(env: Envelope<Ev>, xs: seq<Envelope<Ev>>, bound: int)
    requires VersionSorted(xs)
    requires bound <= env.version && (xs != [] ==> bound <= xs[0].version)
    ensures VersionSorted(Insert(env, xs))
    ensures Insert(env, xs)[0].version >= bound
  {
    if xs == [] || env.version <= xs[0].version {
    } else {
      InsertSorted(env, xs[1..], xs[0].version);
    }
  }

  lemma {:induction false} InsertAdds<Ev>(env: Envelope<Ev>, xs: seq<Envelope<Ev>>)
    ensures multiset(Insert(env, xs)) == multiset{env} + multiset(xs)
  {
    if xs == [] || env.version <= xs[0].version {
    } else {
      InsertAdds(env, xs[1..]);
      assert xs == [xs[0]] + xs[1..];
    }
  }

  /** Sorting puts the same envelopes in version order. */
  lemma {:induction false} SortSorts<Ev>(xs: seq<Envelope<Ev>>)
    ensures VersionSorted(SortByVersion(xs))
    ensures multiset(SortByVersion(xs)) == multiset(xs)
  {
    if xs != [] {
      SortSorts(xs[1..]);
      var rest := SortByVersion(xs[1..]);
      InsertSorted(xs[0], rest, if rest != [] && rest[0].version < xs[0].version then rest[0].version else xs[0].version);
      InsertAdds(xs[0], rest);
      assert xs == [xs[0]] + xs[1..];
    }
  }

  lemma {:induction false} SortKeepsIncreasing<Ev>(xs: seq<Envelope<Ev>>)
    requires Increasing(xs)
    ensures SortByVersion(xs) == xs
  {
    if xs != [] {
      SortKeepsIncreasing(xs[1..]);
      assert xs == [xs[0]] + xs[1..];
    }
  }

  lemma SameHead<Ev>(xs: seq<Envelope<Ev>>, ys: seq<Envelope<Ev>>)
    requires VersionSorted(xs) && VersionSorted(ys) && KeyedByVersion(xs)
    requires multiset(xs) == multiset(ys) && xs != [] && ys != []
    ensures xs[0] == ys[0]
  {
    assert xs[0] in multiset(ys) && ys[0] in multiset(xs);
    var i :| 0 <= i < |ys| && ys[i] == xs[0];
    var j :| 0 <= j < |xs| && xs[j] == ys[0];
  }

  lemma TailMultiset<Ev>(xs: seq<Envelope<Ev>>)
    requires xs != []
    ensures multiset(xs[1..]) == multiset(xs) - multiset{xs[0]}
  {
    assert xs == [xs[0]] + xs[1..];
  }

  lemma {:induction false} SortedUnique<Ev>(xs: seq<Envelope<Ev>>, ys: seq<Envelope<Ev>>)
    requires VersionSorted(xs) && VersionSorted(ys) && KeyedByVersion(xs)
    requires multiset(xs) == multiset(ys)
    ensures xs == ys
  {
    assert |xs| == |multiset(xs)| == |multiset(ys)| == |ys|;
    if xs != [] {
      SameHead(xs, ys);
      TailMultiset(xs);
      TailMultiset(ys);
      SortedUnique(xs[1..], ys[1..]);
      assert xs == [xs[0]] + xs[1..] && ys == [ys[0]] + ys[1..];
    }
  }

  /** The fold order does not depend on the order in which the same envelopes were read. */
  lemma SortIgnoresOrder<Ev>(xs: seq<Envelope<Ev>>, ys: seq<Envelope<Ev>>)
    requires multiset(xs) == multiset(ys) && KeyedByVersion(xs)
    ensures SortByVersion(xs) == SortByVersion(ys)
  {
    SortSorts(xs);
    SortSorts(ys);
    var s := SortByVersion(xs);
    forall i, j | 0 <= i < |s| && 0 <= j < |s| && s[i].version == s[j].version ensures s[i] == s[j] {
      assert s[i] in multiset(s) && s[j] in multiset(s);
      assert s[i] in xs && s[j] in xs;
    }
    SortedUnique(s, SortByVersion(ys));
  }
}
