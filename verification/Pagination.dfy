/** Cursor pagination over elements with an order; elements are represented by their ordering keys. */
module Pagination {
  import opened Kernel

  datatype Direction = NEXT | PREV

  predicate InOrder(up: bool, x: int, y: int) {
    if up then x <= y else y <= x
  }

  function Insert(up: bool, x: int, xs: seq<int>): seq<int> {
    if xs == [] || InOrder(up, x, xs[0]) then [x] + xs else [xs[0]] + Insert(up, x, xs[1..])
  }

  /** The collection sorted, ascending or descending. */
  function Sort(up: bool, xs: seq<int>): seq<int> {
    if xs == [] then [] else Insert(up, xs[0], Sort(up, xs[1..]))
  }

  ghost predicate Sorted(up: bool, xs: seq<int>) {
    forall i, j :: 0 <= i < j < |xs| ==> InOrder(up, xs[i], xs[j])
  }

  ghost predicate Distinct(xs: seq<int>) {
    forall x :: x in xs ==> multiset(xs)[x] == 1
  }

  lemma {:induction false} InsertAdds(up: bool, x: int, xs: seq<int>)
    ensures multiset(Insert(up, x, xs)) == multiset{x} + multiset(xs)
  {
    if xs != [] && !InOrder(up, x, xs[0]) {
      InsertAdds(up, x, xs[1..]);
      HeadTail(xs);
    }
  }

  lemma {:induction false} InsertSorts(up: bool, x: int, xs: seq<int>, bound: int)
    requires Sorted(up, xs) && InOrder(up, bound, x) && (xs != [] ==> InOrder(up, bound, xs[0]))
    ensures Sorted(up, Insert(up, x, xs)) && InOrder(up, bound, Insert(up, x, xs)[0])
  {
    if xs != [] && !InOrder(up, x, xs[0]) { InsertSorts(up, x, xs[1..], xs[0]); }
  }

  lemma {:induction false} SortSorts(up: bool, xs: seq<int>)
    ensures Sorted(up, Sort(up, xs)) && multiset(Sort(up, xs)) == multiset(xs)
  {
    if xs != [] {
      SortSorts(up, xs[1..]);
      var rest := Sort(up, xs[1..]);
      InsertSorts(up, xs[0], rest, if rest != [] && InOrder(up, rest[0], xs[0]) then rest[0] else xs[0]);
      InsertAdds(up, xs[0], rest);
      HeadTail(xs);
    }
  }

  lemma SameHead(up: bool, xs: seq<int>, ys: seq<int>)
    requires Sorted(up, xs) && Sorted(up, ys) && multiset(xs) == multiset(ys) && xs != [] && ys != []
    ensures xs[0] == ys[0]
  {
    assert xs[0] in multiset(ys) && ys[0] in multiset(xs);
    var i :| 0 <= i < |ys| && ys[i] == xs[0];
    var j :| 0 <= j < |xs| && xs[j] == ys[0];
  }

  lemma TailMultiset(xs: seq<int>)
    requires xs != []
    ensures multiset(xs[1..]) == multiset(xs) - multiset{xs[0]}
  {
    HeadTail(xs);
  }

  lemma {:induction false} SortedUnique(up: bool, xs: seq<int>, ys: seq<int>)
    requires Sorted(up, xs) && Sorted(up, ys) && multiset(xs) == multiset(ys)
    ensures xs == ys
  {
    assert |xs| == |multiset(xs)| == |multiset(ys)| == |ys|;
    if xs != [] {
      SameHead(up, xs, ys);
      TailMultiset(xs);
      TailMultiset(ys);
      SortedUnique(up, xs[1..], ys[1..]);
      HeadTail(xs);
      HeadTail(ys);
    }
  }

  function Reversed(xs: seq<int>): (r: seq<int>)
    ensures |r| == |xs| && forall i :: 0 <= i < |xs| ==> r[i] == xs[|xs| - 1 - i]
  {
    seq(|xs|, i requires 0 <= i < |xs| => xs[|xs| - 1 - i])
  }

  lemma {:induction false} ReversedMultiset(xs: seq<int>)
    ensures multiset(Reversed(xs)) == multiset(xs)
  {
    if xs != [] {
      HeadTail(xs);
      ReversedMultiset(xs[1..]);
      assert Reversed(xs) == Reversed(xs[1..]) + [xs[0]];
    }
  }

  /** Sorting downwards is sorting upwards, read backwards. */
  lemma DownIsUpReversed(xs: seq<int>)
    ensures Sort(false, xs) == Reversed(Sort(true, xs))
  {
    SortSorts(true, xs);
    SortSorts(false, xs);
    ReversedMultiset(Sort(true, xs));
    SortedUnique(false, Sort(false, xs), Reversed(Sort(true, xs)));
  }

  predicate Keeps(direction: Direction, cursor: Option<int>, x: int) {
    cursor.None? || if direction.NEXT? then x > cursor.value else x < cursor.value
  }

  function Kept(direction: Direction, cursor: Option<int>, xs: seq<int>): seq<int> {
    if xs == [] then []
    else (if Keeps(direction, cursor, xs[0]) then [xs[0]] else []) + Kept(direction, cursor, xs[1..])
  }

  function Least(x: nat, y: nat): nat {
    if x <= y then x else y
  }

  function Take(n: nat, xs: seq<int>): seq<int> {
    xs[..Least(n, |xs|)]
  }

  /** The page: sort, keep what lies beyond the cursor, take the limit, and restore ascending order. */
  function Page(items: seq<int>, limit: nat, cursor: Option<int>, direction: Direction): seq<int> {
    if direction.NEXT? then Take(limit, Kept(NEXT, cursor, Sort(true, items)))
    else Reversed(Take(limit, Kept(PREV, cursor, Sort(false, items))))
  }

  lemma {:induction false} KeptSnoc(direction: Direction, cursor: Option<int>, xs: seq<int>, x: int)
    ensures Kept(direction, cursor, xs + [x]) == Kept(direction, cursor, xs) + if Keeps(direction, cursor, x) then [x] else []
  {
    if xs == [] {
      assert [] + [x] == [x] && [x][1..] == [];
    } else {
      assert (xs + [x])[0] == xs[0] && (xs + [x])[1..] == xs[1..] + [x];
      KeptSnoc(direction, cursor, xs[1..], x);
    }
  }

  lemma {:induction false} KeptGrows(direction: Direction, cursor: Option<int>, xs: seq<int>, n: nat)
    requires n <= |xs|
    ensures Kept(direction, cursor, xs[..n]) <= Kept(direction, cursor, xs)
    decreases |xs| - n
  {
    if n < |xs| {
      KeptGrows(direction, cursor, xs, n + 1);
      assert xs[..n + 1] == xs[..n] + [xs[n]];
      KeptSnoc(direction, cursor, xs[..n], xs[n]);
    } else {
      assert xs[..n] == xs;
    }
  }

  /** Stopping at the limit, or at the end, is enough. */
  lemma TakenEnough(direction: Direction, cursor: Option<int>, xs: seq<int>, n: nat, limit: nat)
    requires n <= |xs| && |Kept(direction, cursor, xs[..n])| <= limit
    requires n == |xs| || |Kept(direction, cursor, xs[..n])| == limit
    ensures Kept(direction, cursor, xs[..n]) == Take(limit, Kept(direction, cursor, xs))
  {
    KeptGrows(direction, cursor, xs, n);
    if n == |xs| { assert xs[..n] == xs; }
  }

  method ApplyPagination(items: seq<int>, limit: nat, cursor: Option<int>, direction: Direction) returns (page: seq<int>)
    ensures page == Page(items, limit, cursor, direction)
  {
    var sorted := Sort(direction.NEXT?, items);
    page := [];
    var n := 0;
    while n < |sorted| && |page| < limit
      invariant 0 <= n <= |sorted| && |page| <= limit
      invariant page == Kept(direction, cursor, sorted[..n])
    {
      assert sorted[..n + 1] == sorted[..n] + [sorted[n]];
      KeptSnoc(direction, cursor, sorted[..n], sorted[n]);
      if Keeps(direction, cursor, sorted[n]) { page := page + [sorted[n]]; }
      n := n + 1;
    }
    TakenEnough(direction, cursor, sorted, n, limit);
    if direction.PREV? { page := Reversed(page); }
  }

  // ---------- what a page is ----------

  /** The cursor separates the first `i` elements from the rest. */
  ghost predicate Separates(sorted: seq<int>, cursor: Option<int>, direction: Direction, i: nat) {
    && i <= |sorted|
    && (forall k :: 0 <= k < |sorted| ==> (Keeps(direction, cursor, sorted[k]) <==> if direction.NEXT? then k >= i else k < i))
  }

  lemma {:induction false} KeptSuffix(direction: Direction, cursor: Option<int>, xs: seq<int>, n: nat)
    requires n <= |xs| && forall k :: 0 <= k < |xs| ==> (Keeps(direction, cursor, xs[k]) <==> k >= n)
    ensures Kept(direction, cursor, xs) == xs[n..]
  {
    if xs != [] { KeptSuffix(direction, cursor, xs[1..], if n == 0 then 0 else n - 1); }
  }

  /** Going forward, the page is the next `limit` elements behind the cursor. */
  lemma NextPage(items: seq<int>, limit: nat, cursor: Option<int>, i: nat)
    requires Separates(Sort(true, items), cursor, NEXT, i)
    ensures var s := Sort(true, items);
            Page(items, limit, cursor, NEXT) == s[i..Least(i + limit, |s|)]
  {
    KeptSuffix(NEXT, cursor, Sort(true, items), i);
  }

  lemma BackwardsTail(s: seq<int>, i: nat, limit: nat)
    requires i <= |s|
    ensures Reversed(Take(limit, Reversed(s)[|s| - i..])) == s[i - Least(limit, i)..i]
  {
  }

  /** Going back, the page is the `limit` elements before the cursor, in ascending order. */
  lemma PrevPage(items: seq<int>, limit: nat, cursor: Option<int>, i: nat)
    requires Separates(Sort(true, items), cursor, PREV, i)
    ensures var s := Sort(true, items);
            Page(items, limit, cursor, PREV) == s[i - Least(limit, i)..i]
  {
    var s := Sort(true, items);
    DownIsUpReversed(items);
    KeptSuffix(PREV, cursor, Reversed(s), |s| - i);
    BackwardsTail(s, i, limit);
  }

  lemma StrictlyAscending(items: seq<int>)
    requires Distinct(items)
    ensures var s := Sort(true, items); forall i, j :: 0 <= i < j < |s| ==> s[i] < s[j]
  {
    SortSorts(true, items);
    var s := Sort(true, items);
    forall i, j | 0 <= i < j < |s| ensures s[i] < s[j] {
      Twice(s, i, j);
      assert s[i] in multiset(items) && InOrder(true, s[i], s[j]);
    }
  }

  lemma Twice(s: seq<int>, i: nat, j: nat)
    requires i < j < |s|
    ensures s[i] == s[j] ==> multiset(s)[s[i]] >= 2
  {
    var l, m, r := s[..i], s[i + 1..j], s[j + 1..];
    assert s == l + [s[i]] + m + [s[j]] + r;
    assert multiset(s) == multiset(l) + multiset{s[i]} + multiset(m) + multiset{s[j]} + multiset(r);
  }

  // ---------- walking ----------

  /** The list cut into consecutive pages. */
  function Chunks(s: seq<int>, limit: nat): seq<seq<int>>
    requires limit > 0
  {
    if s == [] then [] else [Take(limit, s)] + Chunks(s[|Take(limit, s)|..], limit)
  }

  function Flatten(pages: seq<seq<int>>): seq<int> {
    if pages == [] then [] else pages[0] + Flatten(pages[1..])
  }

  lemma {:induction false} ChunksCover(s: seq<int>, limit: nat)
    requires limit > 0
    ensures Flatten(Chunks(s, limit)) == s
    decreases |s|
  {
    if s != [] {
      var n := |Take(limit, s)|;
      ChunksCover(s[n..], limit);
      assert s == s[..n] + s[n..];
      assert Chunks(s, limit)[1..] == Chunks(s[n..], limit);
    }
  }

  /** Where a page starts in the sorted list, and that the page before it is full. */
  lemma {:induction false} ChunkAt(s: seq<int>, limit: nat, i: nat) returns (from: nat)
    requires limit > 0 && i < |Chunks(s, limit)|
    ensures from < |s| && Chunks(s, limit)[i] == s[from..Least(from + limit, |s|)]
    ensures i == 0 ==> from == 0
    ensures i > 0 ==> from >= limit && Chunks(s, limit)[i - 1] == s[from - limit..from]
    decreases i
  {
    if i == 0 {
      from := 0;
    } else {
      var n := |Take(limit, s)|;
      var tail := ChunkAt(s[n..], limit, i - 1);
      from := tail + n;
      assert n == limit;
      SliceOfTail(s, n, tail, Least(tail + limit, |s[n..]|));
      if i > 1 { SliceOfTail(s, n, tail - limit, tail); }
    }
  }

  lemma SliceOfTail(s: seq<int>, n: nat, i: nat, j: nat)
    requires n <= |s| && i <= j <= |s| - n
    ensures s[n..][i..j] == s[n + i..n + j]
  {
  }

  lemma WalkStep(s: seq<int>, limit: nat, pages: seq<seq<int>>, seen: nat)
    requires limit > 0 && seen < |s| && pages + Chunks(s[seen..], limit) == Chunks(s, limit)
    ensures var page := Take(limit, s[seen..]);
            && |page| > 0 && page[|page| - 1] == s[seen + |page| - 1]
            && pages + [page] + Chunks(s[seen + |page|..], limit) == Chunks(s, limit)
  {
  }

  lemma NextTakes(items: seq<int>, limit: nat, i: nat)
    requires Distinct(items) && i <= |Sort(true, items)|
    ensures var s := Sort(true, items);
            Page(items, limit, if i == 0 then None else Some(s[i - 1]), NEXT) == Take(limit, s[i..])
  {
    var s := Sort(true, items);
    StrictlyAscending(items);
    NextPage(items, limit, if i == 0 then None else Some(s[i - 1]), i);
  }

  /** A walk in progress: `pages` were seen, `page` is at hand, and `seen` elements lie behind it. */
  ghost predicate Walking(items: seq<int>, limit: nat, pages: seq<seq<int>>, seen: nat, page: seq<int>)
    requires limit > 0
  {
    var s := Sort(true, items);
    seen <= |s| && page == Take(limit, s[seen..]) && pages + Chunks(s[seen..], limit) == Chunks(s, limit)
  }

  lemma WalkStarts(items: seq<int>, limit: nat)
    requires limit > 0 && Distinct(items)
    ensures Walking(items, limit, [], 0, Page(items, limit, None, NEXT))
  {
    NextTakes(items, limit, 0);
    assert Sort(true, items)[0..] == Sort(true, items);
  }

  lemma WalkGoesOn(items: seq<int>, limit: nat, pages: seq<seq<int>>, seen: nat, page: seq<int>)
    requires limit > 0 && Distinct(items) && Walking(items, limit, pages, seen, page) && page != []
    ensures seen < seen + |page| <= |Sort(true, items)|
    ensures Walking(items, limit, pages + [page], seen + |page|, Page(items, limit, Some(page[|page| - 1]), NEXT))
  {
    WalkStep(Sort(true, items), limit, pages, seen);
    NextTakes(items, limit, seen + |page|);
  }

  lemma WalkEnds(items: seq<int>, limit: nat, pages: seq<seq<int>>, seen: nat)
    requires limit > 0 && Walking(items, limit, pages, seen, [])
    ensures pages == Chunks(Sort(true, items), limit) && Flatten(pages) == Sort(true, items)
  {
    ChunksCover(Sort(true, items), limit);
  }

  /**
   A client that walks NEXT from the last element of each page, until a page comes back empty, sees the
   sorted collection cut into consecutive pages, and stops.
   */
  method WalkNext(items: seq<int>, limit: nat) returns (pages: seq<seq<int>>)
    requires limit > 0 && Distinct(items)
    ensures pages == Chunks(Sort(true, items), limit)
    ensures Flatten(pages) == Sort(true, items)
  {
    var page := ApplyPagination(items, limit, None, NEXT);
    ghost var seen := 0;
    pages := [];
    WalkStarts(items, limit);
    while page != []
      invariant Walking(items, limit, pages, seen, page)
      decreases |Sort(true, items)| - seen
    {
      WalkGoesOn(items, limit, pages, seen, page);
      pages, seen := pages + [page], seen + |page|;
      page := ApplyPagination(items, limit, Some(page[|page| - 1]), NEXT);
    }
    WalkEnds(items, limit, pages, seen);
  }

  /** PREV from the first element of any later page returns exactly the page before it. */
  lemma PrevUndoesNext(items: seq<int>, limit: nat, i: nat)
    requires limit > 0 && Distinct(items) && 0 < i < |Chunks(Sort(true, items), limit)|
    ensures var pages := Chunks(Sort(true, items), limit);
            |pages[i]| > 0 && Page(items, limit, Some(pages[i][0]), PREV) == pages[i - 1]
  {
    var s := Sort(true, items);
    var from := ChunkAt(s, limit, i);
    StrictlyAscending(items);
    assert Chunks(s, limit)[i][0] == s[from];
    PrevPage(items, limit, Some(s[from]), from);
  }

  // ---------- cursors that cannot be resolved ----------

  /** The listing keeps moderated accounts, but a cursor is resolved by a query that hides them. */
  function ListPage(items: seq<int>, hidden: set<int>, limit: nat, cursor: Option<int>, direction: Direction): seq<int> {
    Page(items, limit, if cursor.Some? && cursor.value !in hidden then cursor else None, direction)
  }

  /** A page that starts further on in a strictly ascending list is a different page. */
  lemma DifferentPages(s: seq<int>, limit: nat, i: nat)
    requires limit > 0 && 0 < i <= |s| && forall k, l :: 0 <= k < l < |s| ==> s[k] < s[l]
    ensures Take(limit, s[i..]) != Take(limit, s[0..])
  {
    assert Take(limit, s[0..])[0] == s[0];
    if i < |s| { assert Take(limit, s[i..])[0] == s[i]; }
  }

  lemma IndexOf(s: seq<int>, x: int) returns (i: nat)
    requires x in s
    ensures i < |s| && s[i] == x
  {
    i :| 0 <= i < |s| && s[i] == x;
  }

  /**
   From an element of the listing, the NEXT page is the one behind it exactly when the element is not
   hidden. From a hidden element the listing starts over at the first page.
   */
  lemma HiddenCursorRestarts(items: seq<int>, hidden: set<int>, limit: nat, c: int)
    requires limit > 0 && Distinct(items) && c in items
    ensures ListPage(items, hidden, limit, Some(c), NEXT) == Page(items, limit, Some(c), NEXT) <==> c !in hidden
    ensures c in hidden ==> ListPage(items, hidden, limit, Some(c), NEXT) == Page(items, limit, None, NEXT)
  {
    var s := Sort(true, items);
    SortSorts(true, items);
    assert c in multiset(items) && c in s;
    var i := IndexOf(s, c);
    NextTakes(items, limit, i + 1);
    NextTakes(items, limit, 0);
    StrictlyAscending(items);
    DifferentPages(s, limit, i + 1);
  }

  // ---------- the walk through the listing ----------

  /** Where repeating a step leads after `i` times. */
  function Repeated(first: seq<int>, step: seq<int> -> seq<int>, i: nat): seq<int> {
    if i == 0 then first else step(Repeated(first, step, i - 1))
  }

  /** The page that a client asks for from the last element of the page at hand; behind an empty page there is none. */
  function PageAfter(items: seq<int>, hidden: set<int>, limit: nat, page: seq<int>): seq<int> {
    if page == [] then [] else ListPage(items, hidden, limit, Some(page[|page| - 1]), NEXT)
  }

  /** The page that a client walking NEXT through the listing gets at step `i`. */
  function WalkPage(items: seq<int>, hidden: set<int>, limit: nat, i: nat): seq<int> {
    Repeated(ListPage(items, hidden, limit, None, NEXT), page => PageAfter(items, hidden, limit, page), i)
  }

  predicate EndsVisible(page: seq<int>, hidden: set<int>) {
    page != [] && page[|page| - 1] !in hidden
  }

  /** The page at a position, or the empty page behind the last one. */
  function PageAt(pages: seq<seq<int>>, i: nat): seq<int> {
    if i < |pages| then pages[i] else []
  }

  lemma WalkShows(items: seq<int>, limit: nat, chunks: seq<seq<int>>, i: nat, seen: nat, page: seq<int>)
    requires limit > 0 && chunks == Chunks(Sort(true, items), limit) && i <= |chunks| && Walking(items, limit, chunks[..i], seen, page)
    ensures page == PageAt(chunks, i)
  {
    var rest := Sort(true, items)[seen..];
    assert chunks == chunks[..i] + Chunks(rest, limit);
    if i < |chunks| { assert chunks[i] == Chunks(rest, limit)[0]; }
  }

  /** The walk that stands before chunk `i`, having seen the chunks before it. */
  lemma {:induction false} ChunksWalk(items: seq<int>, limit: nat, chunks: seq<seq<int>>, i: nat) returns (seen: nat)
    requires limit > 0 && Distinct(items) && chunks == Chunks(Sort(true, items), limit) && i <= |chunks|
    ensures Walking(items, limit, chunks[..i], seen, PageAt(chunks, i))
  {
    if i == 0 {
      seen := 0;
      WalkStarts(items, limit);
      assert chunks[..0] == [];
      WalkShows(items, limit, chunks, 0, 0, Page(items, limit, None, NEXT));
    } else {
      var before := ChunksWalk(items, limit, chunks, i - 1);
      seen := before + |chunks[i - 1]|;
      ChunkFollows(items, limit, chunks, i - 1, before);
    }
  }

  /** The page behind page `c` is the one that follows it in the list. */
  ghost predicate FollowsAt(items: seq<int>, limit: nat, pages: seq<seq<int>>, c: nat)
    requires c < |pages|
  {
    pages[c] != [] && Page(items, limit, Some(pages[c][|pages[c]| - 1]), NEXT) == PageAt(pages, c + 1)
  }

  /** Behind chunk `i` comes chunk `i + 1`. */
  lemma ChunkFollows(items: seq<int>, limit: nat, chunks: seq<seq<int>>, i: nat, seen: nat)
    requires limit > 0 && Distinct(items) && chunks == Chunks(Sort(true, items), limit) && i < |chunks| && Walking(items, limit, chunks[..i], seen, chunks[i])
    ensures FollowsAt(items, limit, chunks, i)
    ensures Walking(items, limit, chunks[..i + 1], seen + |chunks[i]|, PageAt(chunks, i + 1))
  {
    var page := chunks[i];
    ChunkFilled(Sort(true, items), limit, i);
    WalkOn(items, limit, chunks, i, seen);
    WalkShows(items, limit, chunks, i + 1, seen + |page|, Page(items, limit, Some(page[|page| - 1]), NEXT));
  }

  lemma ChunkFilled(s: seq<int>, limit: nat, i: nat)
    requires limit > 0 && i < |Chunks(s, limit)|
    ensures Chunks(s, limit)[i] != []
  {
    var _ := ChunkAt(s, limit, i);
  }

  lemma WalkOn(items: seq<int>, limit: nat, pages: seq<seq<int>>, i: nat, seen: nat)
    requires limit > 0 && Distinct(items) && i < |pages| && pages[i] != [] && Walking(items, limit, pages[..i], seen, pages[i])
    ensures Walking(items, limit, pages[..i + 1], seen + |pages[i]|, Page(items, limit, Some(pages[i][|pages[i]| - 1]), NEXT))
  {
    WalkGoesOn(items, limit, pages[..i], seen, pages[i]);
    assert pages[..i + 1] == pages[..i] + [pages[i]];
  }

  /** Going forward, the pages are reached one after the other. */
  ghost predicate Follow(items: seq<int>, limit: nat, pages: seq<seq<int>>) {
    && Page(items, limit, None, NEXT) == PageAt(pages, 0)
    && forall c :: 0 <= c < |pages| ==> FollowsAt(items, limit, pages, c)
  }

  lemma ChunksFollow(items: seq<int>, limit: nat, chunks: seq<seq<int>>)
    requires limit > 0 && Distinct(items) && chunks == Chunks(Sort(true, items), limit)
    ensures Follow(items, limit, chunks)
  {
    WalkStarts(items, limit);
    assert chunks[..0] == [];
    WalkShows(items, limit, chunks, 0, 0, Page(items, limit, None, NEXT));
    forall c | 0 <= c < |chunks| ensures FollowsAt(items, limit, chunks, c) {
      var seen := ChunksWalk(items, limit, chunks, c);
      ChunkFollows(items, limit, chunks, c, seen);
    }
  }

  /** A step from page `c`: to the one behind it if it ends visible, and otherwise back to the first. */
  ghost predicate LeadsAt(step: seq<int> -> seq<int>, pages: seq<seq<int>>, hidden: set<int>, c: nat)
    requires c < |pages|
  {
    pages[c] != [] && step(pages[c]) == if EndsVisible(pages[c], hidden) then PageAt(pages, c + 1) else PageAt(pages, 0)
  }

  ghost predicate Leads(step: seq<int> -> seq<int>, pages: seq<seq<int>>, hidden: set<int>) {
    step([]) == [] && forall c :: 0 <= c < |pages| ==> LeadsAt(step, pages, hidden, c)
  }

  lemma ListingLeads(items: seq<int>, hidden: set<int>, limit: nat, pages: seq<seq<int>>)
    requires Follow(items, limit, pages)
    ensures Leads(page => PageAfter(items, hidden, limit, page), pages, hidden)
  {
    var step := page => PageAfter(items, hidden, limit, page);
    forall c | 0 <= c < |pages| ensures LeadsAt(step, pages, hidden, c) {
      assert FollowsAt(items, limit, pages, c);
    }
  }

  /** As long as the pages end on visible elements, repeating the step lists them one by one. */
  lemma {:induction false} ListsVisible(step: seq<int> -> seq<int>, pages: seq<seq<int>>, hidden: set<int>, i: nat)
    requires Leads(step, pages, hidden) && forall c :: 0 <= c < i && c < |pages| ==> EndsVisible(pages[c], hidden)
    ensures Repeated(PageAt(pages, 0), step, i) == PageAt(pages, i)
  {
    if i > 0 {
      ListsVisible(step, pages, hidden, i - 1);
      if i <= |pages| { assert LeadsAt(step, pages, hidden, i - 1) && EndsVisible(pages[i - 1], hidden); }
    }
  }

  /** The `i`-th position of a walk that goes round the positions 0 to `h`. */
  function Turn(h: nat, i: nat): (r: nat)
    ensures r <= h
  {
    if i == 0 || Turn(h, i - 1) == h then 0 else Turn(h, i - 1) + 1
  }

  /** If page `h` is the first that ends on a hidden element, repeating the step goes round the first `h + 1` pages for ever. */
  lemma {:induction false} GoesRound(step: seq<int> -> seq<int>, pages: seq<seq<int>>, hidden: set<int>, h: nat, i: nat)
    requires Leads(step, pages, hidden) && h < |pages| && !EndsVisible(pages[h], hidden) && forall c :: 0 <= c < h ==> EndsVisible(pages[c], hidden)
    ensures Repeated(PageAt(pages, 0), step, i) == pages[Turn(h, i)]
  {
    if i > 0 {
      GoesRound(step, pages, hidden, h, i - 1);
      var k := Turn(h, i - 1);
      assert LeadsAt(step, pages, hidden, k);
      if k < h { assert EndsVisible(pages[k], hidden); }
    }
  }

  lemma {:induction false} FirstHidden(pages: seq<seq<int>>, hidden: set<int>, n: nat) returns (h: nat)
    requires n < |pages| && !EndsVisible(pages[n], hidden)
    ensures h <= n && !EndsVisible(pages[h], hidden) && forall c :: 0 <= c < h ==> EndsVisible(pages[c], hidden)
  {
    if c :| 0 <= c < n && !EndsVisible(pages[c], hidden) { h := FirstHidden(pages, hidden, c); } else { h := n; }
  }

  /** The walk shows only the first `h + 1` pages, in turn. */
  ghost predicate Circles(items: seq<int>, hidden: set<int>, limit: nat, chunks: seq<seq<int>>, h: nat) {
    h < |chunks| && forall i: nat :: WalkPage(items, hidden, limit, i) == chunks[Turn(h, i)]
  }

  /**
   Walking NEXT through the listing reaches an empty page exactly when no page ends on a hidden account. Then
   it lists the sorted collection page by page and stops. Otherwise it goes round some leading pages for
   ever, and whatever lies behind them is never shown.
   */
  lemma HiddenWalk(items: seq<int>, hidden: set<int>, limit: nat, chunks: seq<seq<int>>)
    requires limit > 0 && Distinct(items) && chunks == Chunks(Sort(true, items), limit)
    ensures var visible := forall c :: 0 <= c < |chunks| ==> EndsVisible(chunks[c], hidden);
            && ((exists i: nat :: WalkPage(items, hidden, limit, i) == []) <==> visible)
            && (visible ==> forall i: nat :: WalkPage(items, hidden, limit, i) == PageAt(chunks, i))
            && (!visible ==> exists h: nat :: Circles(items, hidden, limit, chunks, h))
  {
    var step := page => PageAfter(items, hidden, limit, page);
    ChunksFollow(items, limit, chunks);
    ListingLeads(items, hidden, limit, chunks);
    if n :| 0 <= n < |chunks| && !EndsVisible(chunks[n], hidden) {
      var h := FirstHidden(chunks, hidden, n);
      forall i: nat ensures WalkPage(items, hidden, limit, i) == chunks[Turn(h, i)] && chunks[Turn(h, i)] != [] {
        GoesRound(step, chunks, hidden, h, i);
        assert LeadsAt(step, chunks, hidden, Turn(h, i));
      }
      assert Circles(items, hidden, limit, chunks, h);
    } else {
      forall i: nat ensures WalkPage(items, hidden, limit, i) == PageAt(chunks, i) { ListsVisible(step, chunks, hidden, i); }
      assert WalkPage(items, hidden, limit, |chunks|) == [];
    }
  }


  // ---------- what a page holds ----------

  /** Without a cursor NEXT shows the first elements and PREV the last ones, both ascending. */
  lemma FirstAndLastPage(items: seq<int>, limit: nat)
    ensures var s := Sort(true, items);
            && Page(items, limit, None, NEXT) == s[..Least(limit, |s|)]
            && Page(items, limit, None, PREV) == s[|s| - Least(limit, |s|)..]
  {
    var s := Sort(true, items);
    NextPage(items, limit, None, 0);
    PrevPage(items, limit, None, |s|);
    assert s[0..Least(limit, |s|)] == s[..Least(limit, |s|)];
    assert s[|s| - Least(limit, |s|)..|s|] == s[|s| - Least(limit, |s|)..];
  }

  /** From a cursor NEXT shows only elements above it and PREV only elements below it. */
  lemma {:induction false} KeptBeyond(direction: Direction, cursor: int, xs: seq<int>, x: int)
    ensures x in Kept(direction, Some(cursor), xs) <==> x in xs && if direction.NEXT? then cursor < x else x < cursor
  {
    if xs != [] {
      KeptBeyond(direction, cursor, xs[1..], x);
      HeadTail(xs);
    }
  }

  /** A page holds nothing but elements of the collection beyond the cursor, and all of them if they fit the limit. */
  lemma PageBeyond(items: seq<int>, limit: nat, cursor: int, direction: Direction, x: int)
    ensures var page := Page(items, limit, Some(cursor), direction);
            && |page| <= limit
            && (x in page ==> x in items && if direction.NEXT? then cursor < x else x < cursor)
            && (|page| < limit && x in items && (if direction.NEXT? then cursor < x else x < cursor) ==> x in page)
  {
    var sorted := Sort(direction.NEXT?, items);
    var kept := Kept(direction, Some(cursor), sorted);
    SortSorts(direction.NEXT?, items);
    KeptBeyond(direction, cursor, sorted, x);
    assert x in sorted <==> x in multiset(sorted);
    assert x in items <==> x in multiset(items);
    var taken := Take(limit, kept);
    assert |taken| < limit ==> taken == kept;
    assert x in taken ==> x in kept;
    if direction.PREV? {
      ReversedMultiset(taken);
      assert x in Reversed(taken) <==> x in multiset(Reversed(taken));
      assert x in taken <==> x in multiset(taken);
    }
  }
}
