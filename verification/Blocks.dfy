/** Blocking and unblocking: block rows, follow removal and the outbox, one transaction each. */
module Blocks {
  import opened Kernel
  import opened AccountProjector

  datatype Block = Block(source: Party, destination: Party)

  /** An activity. Its id is represented by the number that ends its URL. */
  datatype Activity =
    | BlockActivity(id: int, actor: string, blocked: string, recipients: seq<string>)
    | UndoActivity(id: int, actor: string, undone: Activity, recipients: seq<string>)

  datatype Entry = Entry(account: int, activity: Activity)

  datatype State = State(blocks: map<int, Block>, follows: map<int, Follow>, outbox: seq<Entry>)

  /** The actor URLs: of local accounts, from their permanent public id, and of remote accounts. */
  datatype Directory = Directory(localActor: int -> string, remoteActor: int -> string)

  /** Remote actor URLs are unique. */
  ghost predicate ValidDirectory(d: Directory) {
    forall r, q :: d.remoteActor(r) == d.remoteActor(q) ==> r == q
  }

  function BlockOf(d: Directory, blockId: int, a: int, r: int): Activity {
    BlockActivity(blockId, d.localActor(a), d.remoteActor(r), [d.remoteActor(r)])
  }

  function UndoOf(d: Directory, undoId: int, original: Activity, r: int): Activity {
    UndoActivity(undoId, original.actor, original, [d.remoteActor(r)])
  }

  /** The ids of the block rows of a pair. */
  function Matching(blocks: map<int, Block>, source: Party, destination: Party): set<int> {
    set id | id in blocks && blocks[id] == Block(source, destination)
  }

  predicate Between(f: Follow, p: Party, q: Party) {
    (f.source == p && f.destination == q) || (f.source == q && f.destination == p)
  }

  /** Every follow except those between the two parties. */
  function Apart(follows: map<int, Follow>, p: Party, q: Party): map<int, Follow> {
    map f | f in follows && !Between(follows[f], p, q) :: follows[f]
  }

  predicate UsedId(outbox: seq<Entry>, id: int) {
    exists i :: 0 <= i < |outbox| && outbox[i].activity.id == id
  }

  /** Queues an activity for a remote party; the outbox refuses a repeated activity id. */
  function Queued(s: State, a: int, activity: Activity): Result<State> {
    if UsedId(s.outbox, activity.id) then Err(Internal) else Ok(s.(outbox := s.outbox + [Entry(a, activity)]))
  }

  /** A block by a local account. */
  function Blocked(d: Directory, s: State, a: int, target: Party, blockId: int): Result<State> {
    if target == Local(a) then Err(Rejected)
    else if Matching(s.blocks, Local(a), target) != {} then Err(Rejected)
    else if blockId in s.blocks then Err(Rejected)
    else
      var next := s.(blocks := s.blocks[blockId := Block(Local(a), target)], follows := Apart(s.follows, Local(a), target));
      match target
      case Local(_) => Ok(next)
      case Remote(r) => Queued(next, a, BlockOf(d, blockId, a, r))
  }

  /** What searching the account's block rows for the target can return. */
  ghost predicate Finds(s: State, a: int, target: Party, found: Option<int>) {
    var ids := Matching(s.blocks, Local(a), target);
    if found.Some? then found.value in ids else ids == {}
  }

  /** An unblock by a local account, which found this block row. */
  function Unblocked(d: Directory, s: State, a: int, target: Party, found: Option<int>, undoId: int): Result<State> {
    if found.None? then Err(NotFound)
    else
      var next := s.(blocks := s.blocks - {found.value});
      match target
      case Local(_) => Ok(next)
      case Remote(r) => Queued(next, a, UndoOf(d, undoId, BlockOf(d, found.value, a, r), r))
  }

  // ---------- the transactions ----------

  class RelationStore {
    var blocks: map<int, Block>
    var follows: map<int, Follow>
    var outbox: seq<Entry>

    function Contents(): State
      reads this
    {
      State(blocks, follows, outbox)
    }

    /** Deletes the follows from `p` to `q`, one row at a time. */
    method RemoveFollows(p: Party, q: Party)
      modifies this`follows
      ensures forall f :: Get(follows, f) ==
                if f in old(follows) && old(follows)[f].source == p && old(follows)[f].destination == q then None else Get(old(follows), f)
    {
      var followings := set f | f in follows && follows[f].source == p && follows[f].destination == q;
      var remaining := followings;
      while remaining != {}
        invariant remaining <= followings
        invariant forall f :: Get(follows, f) == if f in followings && f !in remaining then None else Get(old(follows), f)
        decreases |remaining|
      {
        var f := AnyOf(remaining);
        follows := follows - {f};
        remaining := remaining - {f};
      }
    }

    /** Afterwards exactly the follows between the two parties are gone, in both directions. */
    method RemoveFollowsBetween(p: Party, q: Party)
      modifies this`follows
      ensures follows == Apart(old(follows), p, q)
    {
      RemoveFollows(p, q);
      ghost var mid := follows;
      RemoveFollows(q, p);
      forall f ensures Get(follows, f) == Get(Apart(old(follows), p, q), f) {
        assert Get(mid, f) == if f in old(follows) && old(follows)[f].source == p && old(follows)[f].destination == q then None else Get(old(follows), f);
      }
      SameRows(follows, Apart(old(follows), p, q));
    }

    method Rollback(saved: State)
      modifies this
      ensures Contents() == saved
    {
      blocks, follows, outbox := saved.blocks, saved.follows, saved.outbox;
    }

    method Queue(a: int, activity: Activity) returns (ok: bool)
      modifies this`outbox
      ensures ok == Queued(old(Contents()), a, activity).Ok?
      ensures Contents() == if ok then Queued(old(Contents()), a, activity).value else old(Contents())
    {
      ok := !UsedId(outbox, activity.id);
      if ok { outbox := outbox + [Entry(a, activity)]; }
    }

    /** `fails` stands for any database failure before the commit. */
    method BlockAccount(d: Directory, a: int, target: Party, blockId: int, fails: bool) returns (r: Result<int>)
      modifies this
      ensures var next := Blocked(d, old(Contents()), a, target, blockId);
              if fails || next.Err? then r.Err? && Contents() == old(Contents()) && (next.Err? ==> r == Err(next.error))
              else r == Ok(blockId) && Contents() == next.value
    {
      if target == Local(a) { return Err(Rejected); }
      var saved := Contents();
      var existing := Matching(blocks, Local(a), target);
      if existing != {} { return Err(Rejected); }
      if blockId in blocks { return Err(Rejected); }
      blocks := blocks[blockId := Block(Local(a), target)];
      RemoveFollowsBetween(Local(a), target);
      var ok := true;
      if target.Remote? { ok := Queue(a, BlockOf(d, blockId, a, target.remoteId)); }
      if fails || !ok {
        Rollback(saved);
        return Err(Internal);
      }
      r := Ok(blockId);
    }

    method UnblockAccount(d: Directory, a: int, target: Party, undoId: int, fails: bool) returns (r: Result<int>, ghost found: Option<int>)
      modifies this
      ensures Finds(old(Contents()), a, target, found)
      ensures var next := Unblocked(d, old(Contents()), a, target, found, undoId);
              if fails || next.Err? then r.Err? && Contents() == old(Contents()) && (next.Err? ==> r == Err(next.error))
              else r == Ok(found.value) && Contents() == next.value
    {
      var saved := Contents();
      var ids := Matching(blocks, Local(a), target);
      found := None;
      if ids == {} { return Err(NotFound), None; }
      var id := AnyOf(ids);
      found := Some(id);
      blocks := blocks - {id};
      var ok := true;
      if target.Remote? { ok := Queue(a, UndoOf(d, undoId, BlockOf(d, id, a, target.remoteId), target.remoteId)); }
      if fails || !ok {
        Rollback(saved);
        return Err(Internal), found;
      }
      r := Ok(id);
    }
  }

  // ---------- conservation over every run ----------

  datatype Action =
    | DoBlock(account: int, target: Party, blockId: int, fails: bool)
    | DoUnblock(account: int, target: Party, found: Option<int>, undoId: int, fails: bool)
    | ChangeFollows(follows: map<int, Follow>)

  function Step(d: Directory, s: State, action: Action): State {
    match action
    case DoBlock(a, target, blockId, fails) =>
      var r := Blocked(d, s, a, target, blockId); if fails || r.Err? then s else r.value
    case DoUnblock(a, target, found, undoId, fails) =>
      var r := Unblocked(d, s, a, target, found, undoId); if fails || r.Err? then s else r.value
    case ChangeFollows(follows) => s.(follows := follows)
  }

  function After(d: Directory, actions: seq<Action>): State {
    if actions == [] then State(map[], map[], [])
    else Step(d, After(d, actions[..|actions| - 1]), actions[|actions| - 1])
  }

  ghost predicate IsRun(d: Directory, actions: seq<Action>) {
    forall i :: 0 <= i < |actions| && actions[i].DoUnblock? ==>
      Finds(After(d, actions[..i]), actions[i].account, actions[i].target, actions[i].found)
  }

  predicate IsBlock(e: Entry, a: int, url: string) {
    e.account == a && e.activity.BlockActivity? && e.activity.blocked == url
  }

  predicate IsUndo(e: Entry, a: int, url: string) {
    e.account == a && e.activity.UndoActivity? && e.activity.undone.BlockActivity? && e.activity.undone.blocked == url
  }

  /** Block entries minus Undo entries for one pair. */
  function Balance(outbox: seq<Entry>, a: int, url: string): int {
    if outbox == [] then 0
    else
      var n := |outbox| - 1;
      Balance(outbox[..n], a, url) + if IsBlock(outbox[n], a, url) then 1 else if IsUndo(outbox[n], a, url) then -1 else 0
  }

  /** For each pair there is at most one block row, and the outbox balance is the number of rows. */
  ghost predicate Balanced(d: Directory, s: State) {
    forall a, r {:trigger Matching(s.blocks, Local(a), Remote(r))} ::
      var rows := |Matching(s.blocks, Local(a), Remote(r))|;
      rows <= 1 && Balance(s.outbox, a, d.remoteActor(r)) == rows
  }

  /** The entry undoes an earlier Block of the same account, with the same id and the same actor. */
  ghost predicate UndoesEarlier(outbox: seq<Entry>, j: int)
    requires 0 <= j < |outbox|
  {
    var undo := outbox[j].activity;
    && undo.UndoActivity? && undo.undone.BlockActivity?
    && exists i :: 0 <= i < j && outbox[i] == Entry(outbox[j].account, undo.undone) && undo.actor == outbox[i].activity.actor
  }

  ghost predicate UndosMatch(outbox: seq<Entry>) {
    forall j :: 0 <= j < |outbox| && outbox[j].activity.UndoActivity? ==> UndoesEarlier(outbox, j)
  }

  /** Every block row of a remote party was announced. */
  ghost predicate Announced(d: Directory, s: State) {
    forall id :: id in s.blocks && s.blocks[id].source.Local? && s.blocks[id].destination.Remote? ==>
      var a, url := s.blocks[id].source.accountId, d.remoteActor(s.blocks[id].destination.remoteId);
      Entry(a, BlockActivity(id, d.localActor(a), url, [url])) in s.outbox
  }

  lemma BalanceSnoc(outbox: seq<Entry>, e: Entry, a: int, url: string)
    ensures Balance(outbox + [e], a, url) ==
            Balance(outbox, a, url) + if IsBlock(e, a, url) then 1 else if IsUndo(e, a, url) then -1 else 0
  {
  }

  lemma MatchingAdds(blocks: map<int, Block>, id: int, b: Block, source: Party, destination: Party)
    requires id !in blocks
    ensures var now := Matching(blocks[id := b], source, destination);
            |now| == |Matching(blocks, source, destination)| + if b == Block(source, destination) then 1 else 0
  {
    var was, now := Matching(blocks, source, destination), Matching(blocks[id := b], source, destination);
    if b == Block(source, destination) { assert now == was + {id}; } else { assert now == was; }
  }

  lemma MatchingRemoves(blocks: map<int, Block>, id: int, source: Party, destination: Party)
    requires id in blocks
    ensures var now := Matching(blocks - {id}, source, destination);
            |now| == |Matching(blocks, source, destination)| - if blocks[id] == Block(source, destination) then 1 else 0
  {
    var was, now := Matching(blocks, source, destination), Matching(blocks - {id}, source, destination);
    if blocks[id] == Block(source, destination) { assert was == now + {id}; } else { assert now == was; }
  }

  lemma BlockBalances(d: Directory, s: State, a: int, target: Party, blockId: int)
    requires ValidDirectory(d) && Balanced(d, s) && Blocked(d, s, a, target, blockId).Ok?
    ensures Balanced(d, Blocked(d, s, a, target, blockId).value)
  {
    var next := Blocked(d, s, a, target, blockId).value;
    forall x, r ensures |Matching(next.blocks, Local(x), Remote(r))| <= 1 && Balance(next.outbox, x, d.remoteActor(r)) == |Matching(next.blocks, Local(x), Remote(r))| {
      MatchingAdds(s.blocks, blockId, Block(Local(a), target), Local(x), Remote(r));
      if target.Remote? { BalanceSnoc(s.outbox, Entry(a, BlockOf(d, blockId, a, target.remoteId)), x, d.remoteActor(r)); }
    }
  }

  lemma UnblockBalances(d: Directory, s: State, a: int, target: Party, found: Option<int>, undoId: int)
    requires ValidDirectory(d) && Balanced(d, s) && Finds(s, a, target, found) && Unblocked(d, s, a, target, found, undoId).Ok?
    ensures Balanced(d, Unblocked(d, s, a, target, found, undoId).value)
  {
    var next := Unblocked(d, s, a, target, found, undoId).value;
    forall x, r ensures |Matching(next.blocks, Local(x), Remote(r))| <= 1 && Balance(next.outbox, x, d.remoteActor(r)) == |Matching(next.blocks, Local(x), Remote(r))| {
      MatchingRemoves(s.blocks, found.value, Local(x), Remote(r));
      if target.Remote? {
        BalanceSnoc(s.outbox, Entry(a, UndoOf(d, undoId, BlockOf(d, found.value, a, target.remoteId), target.remoteId)), x, d.remoteActor(r));
      }
    }
  }

  lemma UndosKept(outbox: seq<Entry>, e: Entry)
    requires UndosMatch(outbox)
    requires e.activity.UndoActivity? ==> e.activity.undone.BlockActivity? && Entry(e.account, e.activity.undone) in outbox && e.activity.actor == e.activity.undone.actor
    ensures UndosMatch(outbox + [e])
  {
    var next := outbox + [e];
    forall j | 0 <= j < |next| && next[j].activity.UndoActivity? ensures UndoesEarlier(next, j) {
      if j < |outbox| {
        assert UndoesEarlier(outbox, j);
        var i :| 0 <= i < j && outbox[i] == Entry(outbox[j].account, outbox[j].activity.undone) && outbox[j].activity.actor == outbox[i].activity.actor;
        assert next[i] == outbox[i] && next[j] == outbox[j];
      } else {
        var i :| 0 <= i < |outbox| && outbox[i] == Entry(e.account, e.activity.undone);
        assert next[i] == outbox[i];
      }
    }
  }

  /** A block row whose Block activity was sent. */
  predicate IsRemoteRow(blocks: map<int, Block>, id: int) {
    id in blocks && blocks[id].source.Local? && blocks[id].destination.Remote?
  }

  /** No block row of a remote party has the id of an undone Block. */
  ghost predicate Spent(s: State) {
    forall j :: 0 <= j < |s.outbox| && s.outbox[j].activity.UndoActivity? ==> !IsRemoteRow(s.blocks, s.outbox[j].activity.undone.id)
  }

  /** No two Undos embed Blocks with the same id. */
  ghost predicate UndoneOnce(outbox: seq<Entry>) {
    forall i, j :: 0 <= i < j < |outbox| && outbox[i].activity.UndoActivity? && outbox[j].activity.UndoActivity? ==>
      outbox[i].activity.undone.id != outbox[j].activity.undone.id
  }

  lemma UndoneIsUsed(outbox: seq<Entry>, j: nat)
    requires UndosMatch(outbox) && j < |outbox| && outbox[j].activity.UndoActivity?
    ensures UsedId(outbox, outbox[j].activity.undone.id)
  {
    assert UndoesEarlier(outbox, j);
    var i :| 0 <= i < j && outbox[i] == Entry(outbox[j].account, outbox[j].activity.undone) && outbox[j].activity.actor == outbox[i].activity.actor;
    assert outbox[i].activity.id == outbox[j].activity.undone.id;
  }

  lemma BlockKeepsOnce(d: Directory, s: State, a: int, target: Party, blockId: int)
    requires UndosMatch(s.outbox) && Spent(s) && UndoneOnce(s.outbox) && Blocked(d, s, a, target, blockId).Ok?
    ensures var next := Blocked(d, s, a, target, blockId).value; Spent(next) && UndoneOnce(next.outbox)
  {
    var next := Blocked(d, s, a, target, blockId).value;
    forall j | 0 <= j < |s.outbox| && s.outbox[j].activity.UndoActivity? ensures !IsRemoteRow(next.blocks, s.outbox[j].activity.undone.id) {
      UndoneIsUsed(s.outbox, j);
    }
  }

  lemma UnblockKeepsOnce(d: Directory, s: State, a: int, target: Party, found: Option<int>, undoId: int)
    requires Spent(s) && UndoneOnce(s.outbox) && Finds(s, a, target, found) && Unblocked(d, s, a, target, found, undoId).Ok?
    ensures var next := Unblocked(d, s, a, target, found, undoId).value; Spent(next) && UndoneOnce(next.outbox)
  {
    assert target.Remote? ==> IsRemoteRow(s.blocks, found.value);
  }

  /** The activity speaks for the account and is addressed to exactly the party that it blocks, or whose block it undoes. */
  predicate WellAddressed(d: Directory, e: Entry) {
    && e.activity.actor == d.localActor(e.account)
    && match e.activity
       case BlockActivity(_, _, blocked, recipients) => recipients == [blocked]
       case UndoActivity(_, _, undone, recipients) => undone.BlockActivity? && undone.actor == d.localActor(e.account) && recipients == [undone.blocked]
  }

  ghost predicate AllWellAddressed(d: Directory, outbox: seq<Entry>) {
    forall i :: 0 <= i < |outbox| ==> WellAddressed(d, outbox[i])
  }

  ghost predicate Invariant(d: Directory, s: State) {
    Balanced(d, s) && UndosMatch(s.outbox) && Announced(d, s) && Spent(s) && UndoneOnce(s.outbox) && AllWellAddressed(d, s.outbox)
  }

  lemma BlockAnnounces(d: Directory, s: State, a: int, target: Party, blockId: int)
    requires Announced(d, s) && AllWellAddressed(d, s.outbox) && Blocked(d, s, a, target, blockId).Ok?
    ensures var next := Blocked(d, s, a, target, blockId).value; Announced(d, next) && AllWellAddressed(d, next.outbox)
  {
  }

  lemma UnblockAnnounces(d: Directory, s: State, a: int, target: Party, found: Option<int>, undoId: int)
    requires Announced(d, s) && AllWellAddressed(d, s.outbox) && Unblocked(d, s, a, target, found, undoId).Ok?
    ensures var next := Unblocked(d, s, a, target, found, undoId).value; Announced(d, next) && AllWellAddressed(d, next.outbox)
  {
  }

  lemma BlockConserves(d: Directory, s: State, a: int, target: Party, blockId: int)
    requires ValidDirectory(d) && Invariant(d, s) && Blocked(d, s, a, target, blockId).Ok?
    ensures Invariant(d, Blocked(d, s, a, target, blockId).value)
  {
    BlockBalances(d, s, a, target, blockId);
    BlockKeepsOnce(d, s, a, target, blockId);
    BlockAnnounces(d, s, a, target, blockId);
    if target.Remote? { UndosKept(s.outbox, Entry(a, BlockOf(d, blockId, a, target.remoteId))); }
  }

  lemma UnblockConserves(d: Directory, s: State, a: int, target: Party, found: Option<int>, undoId: int)
    requires ValidDirectory(d) && Invariant(d, s) && Finds(s, a, target, found) && Unblocked(d, s, a, target, found, undoId).Ok?
    ensures Invariant(d, Unblocked(d, s, a, target, found, undoId).value)
  {
    UnblockBalances(d, s, a, target, found, undoId);
    UnblockKeepsOnce(d, s, a, target, found, undoId);
    UnblockAnnounces(d, s, a, target, found, undoId);
    if target.Remote? { UndosKept(s.outbox, Entry(a, UndoOf(d, undoId, BlockOf(d, found.value, a, target.remoteId), target.remoteId))); }
  }

  lemma StepConserves(d: Directory, s: State, action: Action)
    requires ValidDirectory(d) && Invariant(d, s)
    requires action.DoUnblock? ==> Finds(s, action.account, action.target, action.found)
    ensures Invariant(d, Step(d, s, action))
  {
    match action
    case DoBlock(a, target, blockId, fails) =>
      if !fails && Blocked(d, s, a, target, blockId).Ok? { BlockConserves(d, s, a, target, blockId); }
    case DoUnblock(a, target, found, undoId, fails) =>
      if !fails && Unblocked(d, s, a, target, found, undoId).Ok? { UnblockConserves(d, s, a, target, found, undoId); }
    case ChangeFollows(_) =>
  }

  /**
   Conservation: after every run of block and unblock transactions, failed or not, each pair has at most
   one block row, the outbox holds exactly that many more Blocks than Undos for it, every Undo embeds an
   earlier Block of the same account, with that Block's own id and actor, no Block is undone twice, and every
   activity speaks for its account and is addressed to exactly the party concerned.
   */
  lemma {:induction false} OutboxConserved(d: Directory, actions: seq<Action>)
    requires ValidDirectory(d) && IsRun(d, actions)
    ensures Invariant(d, After(d, actions))
  {
    if actions == [] {
      forall a, r ensures Matching(map[], Local(a), Remote(r)) == {} {}
    } else {
      var n := |actions| - 1;
      forall i | 0 <= i < n && actions[..n][i].DoUnblock?
        ensures Finds(After(d, actions[..n][..i]), actions[..n][i].account, actions[..n][i].target, actions[..n][i].found)
      {
        assert actions[..n][..i] == actions[..i];
      }
      OutboxConserved(d, actions[..n]);
      StepConserves(d, After(d, actions[..n]), actions[n]);
    }
  }

  /** The row is a block of the target by the account. */
  predicate IsRowOf(blocks: map<int, Block>, id: int, a: int, target: Party) {
    id in blocks && blocks[id] == Block(Local(a), target)
  }

  /** The follow is from one of the two parties to the other. */
  predicate Joins(f: Follow, a: int, target: Party) {
    || (f.source == Local(a) && f.destination == target)
    || (f.source == target && f.destination == Local(a))
  }

  /** A successful block removes every follow between the two parties and no other; an unsuccessful one changes nothing. */
  lemma FollowRemovalExact(d: Directory, s: State, a: int, target: Party, blockId: int, fails: bool)
    ensures var next := Step(d, s, DoBlock(a, target, blockId, fails));
            && (next != s ==> blockId in next.blocks && blockId !in s.blocks)
            && (next != s ==> forall f :: Get(next.follows, f) == if f in s.follows && Joins(s.follows[f], a, target) then None else Get(s.follows, f))
            && (next != s <==> && !fails && target != Local(a) && blockId !in s.blocks
                               && (forall id :: !IsRowOf(s.blocks, id, a, target))
                               && (target.Remote? ==> forall i :: 0 <= i < |s.outbox| ==> s.outbox[i].activity.id != blockId))
  {
    MatchingEmpty(s.blocks, a, target);
  }

  lemma MatchingEmpty(blocks: map<int, Block>, a: int, target: Party)
    ensures Matching(blocks, Local(a), target) == {} <==> forall id :: !IsRowOf(blocks, id, a, target)
  {
    var ids := Matching(blocks, Local(a), target);
    forall id ensures id in ids <==> IsRowOf(blocks, id, a, target) {}
    EmptyIffNone(ids);
  }

  /** Unblocking right after blocking restores the block rows but not the follows. */
  lemma UnblockUndoesBlock(d: Directory, s: State, a: int, target: Party, blockId: int, undoId: int)
    requires Blocked(d, s, a, target, blockId).Ok? && undoId != blockId && !UsedId(s.outbox, undoId)
    ensures var mid := Blocked(d, s, a, target, blockId).value;
            var r := Unblocked(d, mid, a, target, Some(blockId), undoId);
            && Matching(mid.blocks, Local(a), target) == {blockId}
            && r.Ok? && r.value.blocks == s.blocks && r.value.follows == Apart(s.follows, Local(a), target)
  {
  }

  /** What a successful block of a remote party changes: one row, the follows between the two, one Block in the outbox. */
  lemma BlockSends(d: Directory, s: State, a: int, target: Party, blockId: int)
    requires Blocked(d, s, a, target, blockId).Ok?
    ensures var next := Blocked(d, s, a, target, blockId).value;
            && next.blocks == s.blocks[blockId := Block(Local(a), target)]
            && next.outbox == match target
                              case Local(_) => s.outbox
                              case Remote(r) => s.outbox + [Entry(a, BlockActivity(blockId, d.localActor(a), d.remoteActor(r), [d.remoteActor(r)]))]
  {
  }

  /** What a successful unblock changes: the row that was found, and one Undo in the outbox that repeats the Block. */
  lemma UnblockSends(d: Directory, s: State, a: int, target: Party, found: Option<int>, undoId: int)
    requires Unblocked(d, s, a, target, found, undoId).Ok?
    ensures var next := Unblocked(d, s, a, target, found, undoId).value;
            && found.Some? && next.blocks == s.blocks - {found.value} && next.follows == s.follows
            && next.outbox == match target
                              case Local(_) => s.outbox
                              case Remote(r) =>
                                var url := d.remoteActor(r);
                                s.outbox + [Entry(a, UndoActivity(undoId, d.localActor(a), BlockActivity(found.value, d.localActor(a), url, [url]), [url]))]
  {
  }

  /** When an unblock succeeds: exactly if the account blocks the party and, for a remote one, the activity id is unused. */
  lemma UnblockSucceeds(d: Directory, s: State, a: int, target: Party, found: Option<int>, undoId: int)
    requires Finds(s, a, target, found)
    ensures found.Some? <==> exists id :: IsRowOf(s.blocks, id, a, target)
    ensures Unblocked(d, s, a, target, found, undoId) == Err(NotFound) <==> found.None?
    ensures Unblocked(d, s, a, target, found, undoId).Ok? <==>
            found.Some? && (target.Remote? ==> forall i :: 0 <= i < |s.outbox| ==> s.outbox[i].activity.id != undoId)
  {
    var ids := Matching(s.blocks, Local(a), target);
    if found.Some? { assert found.value in ids && IsRowOf(s.blocks, found.value, a, target); }
    if id :| IsRowOf(s.blocks, id, a, target) { assert id in ids; }
  }
}
