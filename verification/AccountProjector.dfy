/** The account projector: folds account events, cascades deactivations, links creators. */
module AccountProjector {
  import opened Kernel
  import opened EventLog
  import opened RowProjection
  import opened Accounts
  import opened Profiles
  import opened Metadatas
  import opened ChildProjector

  datatype Party = Local(accountId: int) | Remote(remoteId: int)

  datatype Follow = Follow(source: Party, destination: Party, approved: bool)

  /** An auth account linked to the account it created. */
  datatype Link = Link(account: int, auth: int)

  /** The read-model tables that the account projector writes. */
  datatype Tables = Tables(
    accounts: map<int, Account>, profiles: map<int, Profile>, metadata: map<int, Metadata>,
    follows: map<int, Follow>, links: set<Link>)

  /** A suspension whose expiry has passed reads as active. */
  function AsRead(acc: Account, now: int): Account {
    if acc.status.Suspended? && acc.status.expiresAt.Some? && acc.status.expiresAt.value <= now
    then acc.(status := Active) else acc
  }

  /** The unfiltered account query: excludes only deactivated rows. */
  function Unfiltered(row: Option<Account>, now: int): Option<Account> {
    if row.Some? && !row.value.deleted then Some(AsRead(row.value, now)) else None
  }

  /** The auth account named by the first creation event. */
  function CreatedAuth(events: seq<AccountEnvelope>): Option<int> {
    if events == [] then None
    else if events[0].event.Created? then Some(events[0].event.authAccountId)
    else CreatedAuth(events[1..])
  }

  /** What a group's write amounts to. */
  datatype GroupWrite = Skip | Live(account: Account, auth: Option<int>) | Deactivation(account: Account)

  /** What a group writes, given its events in version order. */
  function Outcome(row: Option<Account>, sorted: seq<AccountEnvelope>, now: int): GroupWrite {
    var auth := CreatedAuth(sorted);
    var existing := Unfiltered(row, now);
    var pending := Pending(ACCOUNT, existing, sorted);
    if pending == [] && auth.None? then Skip
    else
      match Fold(ACCOUNT, existing, pending)
      case Err(_) => Skip
      case Ok(None) => Skip
      case Ok(Some(acc)) => if acc.deleted then Deactivation(acc) else Live(acc, auth)
  }

  /** A follow by the account, or an approved follow of it. */
  predicate Touches(f: Follow, a: int) {
    f.source == Local(a) || (f.destination == Local(a) && f.approved)
  }

  function ProfilesWithout(rows: map<int, Profile>, gone: set<int>): map<int, Profile> {
    map p | p in rows && rows[p].accountId !in gone :: rows[p]
  }

  function MetadataWithout(rows: map<int, Metadata>, gone: set<int>): map<int, Metadata> {
    map m | m in rows && rows[m].accountId !in gone :: rows[m]
  }

  function FollowsWithout(rows: map<int, Follow>, gone: set<int>): map<int, Follow> {
    map f | f in rows && (forall a :: a in gone ==> !Touches(rows[f], a)) :: rows[f]
  }

  /** Everything that belongs to the accounts in `gone` is removed, except their auth links. */
  function Cascaded(t: Tables, gone: set<int>): Tables {
    t.(profiles := ProfilesWithout(t.profiles, gone),
       metadata := MetadataWithout(t.metadata, gone),
       follows := FollowsWithout(t.follows, gone))
  }

  lemma CascadedTwice(t: Tables, gone: set<int>, a: int)
    ensures Cascaded(Cascaded(t, gone), {a}) == Cascaded(t, gone + {a})
  {
  }

  /** The tables after one group's write. */
  function Written(t: Tables, a: int, w: GroupWrite): Tables {
    match w
    case Skip => t
    case Live(acc, auth) =>
      t.(accounts := Put(t.accounts, a, Upsert(ACCOUNT, Get(t.accounts, a), acc)),
         links := t.links + if auth.Some? then {Link(a, auth.value)} else {})
    case Deactivation(acc) =>
      Cascaded(t.(accounts := Put(t.accounts, a, Upsert(ACCOUNT, Get(t.accounts, a), acc))), {a})
  }

  /** What the group of `a` writes, judged from the stored row. */
  function GroupOf(t: Tables, events: seq<SeqEvent<Accounts.Event>>, a: int, now: int): GroupWrite {
    Outcome(Get(t.accounts, a), SortByVersion(Stream(events, a)), now)
  }

  /** The tables after the groups were written one after the other. */
  function InOrder(t: Tables, events: seq<SeqEvent<Accounts.Event>>, order: seq<int>, now: int): Tables {
    if order == [] then t
    else
      var n := |order| - 1;
      var sofar := InOrder(t, events, order[..n], now);
      Written(sofar, order[n], GroupOf(sofar, events, order[n], now))
  }

  /** What every group of `ids` writes, judged from the stored rows before any of them is written. */
  function Plan(t: Tables, events: seq<SeqEvent<Accounts.Event>>, ids: set<int>, now: int): map<int, GroupWrite> {
    map a | a in ids :: GroupOf(t, events, a, now)
  }

  /** The accounts that a plan deactivates. */
  function Deactivating(plan: map<int, GroupWrite>): set<int> {
    set a | a in plan && plan[a].Deactivation?
  }

  function RowAfter(row: Option<Account>, w: GroupWrite): Option<Account> {
    if w.Skip? then row else Upsert(ACCOUNT, row, w.account)
  }

  function AccountsAfter(rows: map<int, Account>, plan: map<int, GroupWrite>): (r: map<int, Account>)
    ensures forall a :: Get(r, a) == if a in plan then RowAfter(Get(rows, a), plan[a]) else Get(rows, a)
  {
    map a | a in rows.Keys + plan.Keys && (a in plan ==> RowAfter(Get(rows, a), plan[a]).Some?)
      :: if a in plan then RowAfter(Get(rows, a), plan[a]).value else rows[a]
  }

  function LinksAdded(plan: map<int, GroupWrite>): set<Link> {
    set a | a in plan && plan[a].Live? && plan[a].auth.Some? :: Link(a, plan[a].auth.value)
  }

  lemma LinksAddedHas(plan: map<int, GroupWrite>, l: Link)
    ensures l in LinksAdded(plan) <==> l.account in plan && plan[l.account].Live? && plan[l.account].auth == Some(l.auth)
  {
    if l.account in plan && plan[l.account].Live? && plan[l.account].auth == Some(l.auth) {
      assert l == Link(l.account, plan[l.account].auth.value);
    }
  }

  /** The tables after all groups of a plan, described without any order. */
  function AfterPlan(t: Tables, plan: map<int, GroupWrite>): Tables {
    Cascaded(t.(accounts := AccountsAfter(t.accounts, plan), links := t.links + LinksAdded(plan)), Deactivating(plan))
  }

  lemma CascadedNone(t: Tables)
    ensures Cascaded(t, {}) == t
  {
  }

  lemma AfterNone(t: Tables)
    ensures AfterPlan(t, map[]) == t
  {
    SameRows(AccountsAfter(t.accounts, map[]), t.accounts);
    CascadedNone(t);
  }

  lemma AccountsNext(rows: map<int, Account>, plan: map<int, GroupWrite>, a: int, w: GroupWrite)
    requires a !in plan
    ensures AccountsAfter(rows, plan[a := w]) == Put(AccountsAfter(rows, plan), a, RowAfter(Get(rows, a), w))
  {
    var p, q := AccountsAfter(rows, plan[a := w]), Put(AccountsAfter(rows, plan), a, RowAfter(Get(rows, a), w));
    forall k ensures Get(p, k) == Get(q, k) {
      assert Get(AccountsAfter(rows, plan), k) == if k in plan then RowAfter(Get(rows, k), plan[k]) else Get(rows, k);
    }
    SameRows(p, q);
  }

  lemma PlanNext(plan: map<int, GroupWrite>, a: int, w: GroupWrite)
    requires a !in plan
    ensures Deactivating(plan[a := w]) == if w.Deactivation? then Deactivating(plan) + {a} else Deactivating(plan)
    ensures LinksAdded(plan[a := w]) ==
            if w.Live? && w.auth.Some? then LinksAdded(plan) + {Link(a, w.auth.value)} else LinksAdded(plan)
  {
    var next := plan[a := w];
    forall k | k in plan ensures next[k] == plan[k] {}
    forall l ensures l in LinksAdded(next) <==> l in LinksAdded(plan) || (w.Live? && w.auth.Some? && l == Link(a, w.auth.value)) {
      LinksAddedHas(plan, l);
      LinksAddedHas(next, l);
    }
  }

  lemma PutSame<E>(rows: map<int, E>, id: int)
    ensures Put(rows, id, Get(rows, id)) == rows
  {
  }

  lemma AfterNextLive(t: Tables, plan: map<int, GroupWrite>, a: int, acc: Account, auth: Option<int>)
    requires a !in plan
    ensures AfterPlan(t, plan[a := Live(acc, auth)]) == Written(AfterPlan(t, plan), a, Live(acc, auth))
  {
    var w := Live(acc, auth);
    PlanNext(plan, a, w);
    AccountsNext(t.accounts, plan, a, w);
    assert Get(AccountsAfter(t.accounts, plan), a) == Get(t.accounts, a);
    var p, q := AfterPlan(t, plan[a := w]), Written(AfterPlan(t, plan), a, w);
    assert p.links == q.links;
  }

  lemma AfterNextDeactivation(t: Tables, plan: map<int, GroupWrite>, a: int, acc: Account)
    requires a !in plan
    ensures AfterPlan(t, plan[a := Deactivation(acc)]) == Written(AfterPlan(t, plan), a, Deactivation(acc))
  {
    var w := Deactivation(acc);
    PlanNext(plan, a, w);
    AccountsNext(t.accounts, plan, a, w);
    assert Get(AccountsAfter(t.accounts, plan), a) == Get(t.accounts, a);
    var base := t.(accounts := AccountsAfter(t.accounts, plan[a := w]), links := t.links + LinksAdded(plan));
    CascadedTwice(base, Deactivating(plan), a);
  }

  /** Writing one more group extends the order-free description by that group. */
  lemma AfterNext(t: Tables, plan: map<int, GroupWrite>, a: int, w: GroupWrite)
    requires a !in plan
    ensures AfterPlan(t, plan[a := w]) == Written(AfterPlan(t, plan), a, w)
  {
    match w
    case Skip =>
      PlanNext(plan, a, w);
      AccountsNext(t.accounts, plan, a, w);
      assert Get(AccountsAfter(t.accounts, plan), a) == Get(t.accounts, a);
      PutSame(AccountsAfter(t.accounts, plan), a);
    case Live(acc, auth) => AfterNextLive(t, plan, a, acc, auth);
    case Deactivation(acc) => AfterNextDeactivation(t, plan, a, acc);
  }

  ghost predicate NoDuplicates(order: seq<int>) {
    forall i, j :: 0 <= i < j < |order| ==> order[i] != order[j]
  }

  /** A group not yet written still sees the row it would have seen at the start. */
  lemma PlanStable(t: Tables, events: seq<SeqEvent<Accounts.Event>>, ids: set<int>, a: int, now: int)
    requires a !in ids
    ensures GroupOf(AfterPlan(t, Plan(t, events, ids, now)), events, a, now) == GroupOf(t, events, a, now)
    ensures Plan(t, events, ids + {a}, now) == Plan(t, events, ids, now)[a := GroupOf(t, events, a, now)]
  {
    var plan := Plan(t, events, ids, now);
    assert a !in plan;
    assert Get(AfterPlan(t, plan).accounts, a) == Get(t.accounts, a);
  }

  lemma PlanNone(t: Tables, events: seq<SeqEvent<Accounts.Event>>, now: int)
    ensures AfterPlan(t, Plan(t, events, {}, now)) == t
  {
    assert Plan(t, events, {}, now) == map[];
    AfterNone(t);
  }

  /** Writing the group of one more account. */
  lemma PlanExtends(t: Tables, events: seq<SeqEvent<Accounts.Event>>, ids: set<int>, a: int, now: int)
    requires a !in ids
    ensures var sofar := AfterPlan(t, Plan(t, events, ids, now));
            AfterPlan(t, Plan(t, events, ids + {a}, now)) == Written(sofar, a, GroupOf(sofar, events, a, now))
  {
    PlanStable(t, events, ids, a, now);
    AfterNext(t, Plan(t, events, ids, now), a, GroupOf(t, events, a, now));
  }

  /** The accounts of an order. */
  function Members(order: seq<int>): set<int> {
    set a | a in order
  }

  lemma MembersSnoc(order: seq<int>)
    requires NoDuplicates(order) && order != []
    ensures var n := |order| - 1;
            && Members(order) == Members(order[..n]) + {order[n]}
            && order[n] !in Members(order[..n])
            && NoDuplicates(order[..n])
  {
  }

  /** Whatever order the groups are taken in, the tables come out the same. */
  lemma {:induction false} OrderFree(t: Tables, events: seq<SeqEvent<Accounts.Event>>, order: seq<int>, now: int)
    requires NoDuplicates(order)
    ensures InOrder(t, events, order, now) == AfterPlan(t, Plan(t, events, Members(order), now))
  {
    if order == [] {
      assert Members(order) == {};
      PlanNone(t, events, now);
    } else {
      var n := |order| - 1;
      MembersSnoc(order);
      OrderFree(t, events, order[..n], now);
      PlanExtends(t, events, Members(order[..n]), order[n], now);
    }
  }

  lemma SamePlan(t: Tables, xs: seq<SeqEvent<Accounts.Event>>, ys: seq<SeqEvent<Accounts.Event>>, ids: set<int>, now: int)
    requires SameGroups(xs, ys)
    ensures Plan(t, xs, ids, now) == Plan(t, ys, ids, now)
  {
    forall a | a in ids ensures GroupOf(t, xs, a, now) == GroupOf(t, ys, a, now) {
      SortIgnoresOrder(Stream(xs, a), Stream(ys, a));
    }
  }

  /** Neither the order of the groups nor the order of the same envelopes inside them matters. */
  lemma OrderIndependence(t: Tables, xs: seq<SeqEvent<Accounts.Event>>, ys: seq<SeqEvent<Accounts.Event>>, p: seq<int>, q: seq<int>, now: int)
    requires SameGroups(xs, ys)
    requires NoDuplicates(p) && NoDuplicates(q) && Members(p) == Members(q)
    ensures InOrder(t, xs, p, now) == InOrder(t, ys, q, now)
  {
    OrderFree(t, xs, p, now);
    OrderFree(t, ys, q, now);
    SamePlan(t, xs, ys, Members(p), now);
  }

  /** The tables after one poll in which the writes of `failed` were rolled back. */
  function PolledTables(t: Tables, log: seq<SeqEvent<Accounts.Event>>, checkpoint: Option<int>, failed: set<int>, now: int): Tables {
    var batch := Window(log, Position(checkpoint));
    AfterPlan(t, Plan(t, batch, Ids(batch) - failed, now))
  }

  /** A poll with failing writes is the poll of the batch without those groups. */
  lemma FailureIsolation(t: Tables, batch: seq<SeqEvent<Accounts.Event>>, failed: set<int>, now: int)
    ensures var kept := Dropping(batch, failed);
            AfterPlan(t, Plan(t, batch, Ids(batch) - failed, now)) == AfterPlan(t, Plan(t, kept, Ids(kept), now))
  {
    var kept := Dropping(batch, failed);
    var ids := Ids(batch) - failed;
    assert Ids(kept) == ids by {
      forall a ensures a in Ids(kept) <==> a in ids {
        DroppingKeepsOthers(batch, failed, a);
        OfEmptyIffAbsent(batch, a);
        OfEmptyIffAbsent(kept, a);
      }
    }
    assert Plan(t, batch, ids, now) == Plan(t, kept, ids, now) by {
      forall a | a in ids ensures GroupOf(t, batch, a, now) == GroupOf(t, kept, a, now) {
        DroppingKeepsOthers(batch, failed, a);
      }
    }
  }

  /**
   A deactivation and its cascade land together or not at all: an account row newly deactivated by a
   plan has no profile, no metadata, no follow of its own and no approved follower left.
   */
  lemma CascadeAtomic(t: Tables, events: seq<SeqEvent<Accounts.Event>>, ids: set<int>, now: int, a: int)
    requires var after := AfterPlan(t, Plan(t, events, ids, now));
             a in after.accounts && after.accounts[a].deleted && (a in t.accounts ==> !t.accounts[a].deleted)
    ensures var after := AfterPlan(t, Plan(t, events, ids, now));
            && (forall p :: p in after.profiles ==> after.profiles[p].accountId != a)
            && (forall m :: m in after.metadata ==> after.metadata[m].accountId != a)
            && (forall f :: f in after.follows ==> !Touches(after.follows[f], a))
    ensures a in ids && GroupOf(t, events, a, now).Deactivation?
  {
    var plan := Plan(t, events, ids, now);
    assert Get(AfterPlan(t, plan).accounts, a) == if a in plan then RowAfter(Get(t.accounts, a), plan[a]) else Get(t.accounts, a);
    assert plan[a] == GroupOf(t, events, a, now);
    assert a in Deactivating(plan);
  }

  /**
   Which follows naming a deactivated account survive the poll that deactivates it: exactly the pending
   requests to follow it from elsewhere, unless another account deactivated in the same poll takes them.
   */
  lemma SurvivingFollows(t: Tables, log: seq<SeqEvent<Accounts.Event>>, checkpoint: Option<int>, failed: set<int>, now: int, a: int, f: int)
    requires var batch := Window(log, Position(checkpoint)); a in Deactivating(Plan(t, batch, Ids(batch) - failed, now))
    requires f in t.follows && (t.follows[f].source == Local(a) || t.follows[f].destination == Local(a))
    ensures var batch, follow := Window(log, Position(checkpoint)), t.follows[f];
            var gone, after := Deactivating(Plan(t, batch, Ids(batch) - failed, now)), PolledTables(t, log, checkpoint, failed, now).follows;
            && (f in after <==> && follow.destination == Local(a) && !follow.approved && follow.source != Local(a)
                                && forall b :: b in gone && b != a ==> !Touches(follow, b))
            && (f in after ==> after[f] == follow)
  {
  }

  // ---------- which auth accounts a poll links ----------

  /** The first creation among the events is the one at `i`. */
  predicate FirstCreation(events: seq<AccountEnvelope>, i: int) {
    0 <= i < |events| && events[i].event.Created? && forall j :: 0 <= j < i ==> !events[j].event.Created?
  }

  lemma {:induction false} CreatedAuthIs(events: seq<AccountEnvelope>, auth: int)
    ensures CreatedAuth(events) == Some(auth) <==> exists i :: FirstCreation(events, i) && events[i].event.authAccountId == auth
  {
    if events != [] {
      if events[0].event.Created? {
        assert FirstCreation(events, 0);
      } else {
        CreatedAuthIs(events[1..], auth);
        var rest := events[1..];
        assert forall i :: 0 < i < |events| ==> events[i] == rest[i - 1];
        if i :| FirstCreation(events, i) && events[i].event.authAccountId == auth { assert FirstCreation(rest, i - 1); }
        if i :| FirstCreation(rest, i) && rest[i].event.authAccountId == auth { assert FirstCreation(events, i + 1) && events[i + 1] == rest[i]; }
      }
    }
  }

  /** The events of a group bring its account, as read back from its row, to a state that is not deactivated. */
  predicate StaysLive(row: Option<Account>, sorted: seq<AccountEnvelope>, now: int) {
    var existing := Unfiltered(row, now);
    match Fold(ACCOUNT, existing, Pending(ACCOUNT, existing, sorted))
    case Ok(Some(acc)) => !acc.deleted
    case _ => false
  }

  /**
   Which auth links exist after a poll: those from before, deactivations included, and for each group that is
   written and leaves its account live the one to the auth account that the first creation in its events names.
   */
  lemma LinksExactly(t: Tables, log: seq<SeqEvent<Accounts.Event>>, checkpoint: Option<int>, failed: set<int>, now: int, l: Link)
    ensures var batch := Window(log, Position(checkpoint));
            var sorted := SortByVersion(Stream(batch, l.account));
            l in PolledTables(t, log, checkpoint, failed, now).links <==>
              || l in t.links
              || (&& l.account in Ids(batch) && l.account !in failed && StaysLive(Get(t.accounts, l.account), sorted, now)
                  && exists i :: FirstCreation(sorted, i) && sorted[i].event.authAccountId == l.auth)
  {
    var batch := Window(log, Position(checkpoint));
    var plan := Plan(t, batch, Ids(batch) - failed, now);
    LinksAddedHas(plan, l);
    LivesWithAuth(Get(t.accounts, l.account), SortByVersion(Stream(batch, l.account)), now, l.auth);
  }

  lemma LivesWithAuth(row: Option<Account>, sorted: seq<AccountEnvelope>, now: int, auth: int)
    ensures var w := Outcome(row, sorted, now);
            w.Live? && w.auth == Some(auth) <==>
            StaysLive(row, sorted, now) && exists i :: FirstCreation(sorted, i) && sorted[i].event.authAccountId == auth
  {
    CreatedAuthIs(sorted, auth);
  }

  // ---------- what a poll removes ----------

  /** The poll writes the group of this account, and its events end with the account deactivated. */
  ghost predicate GoneBy(t: Tables, batch: seq<SeqEvent<Accounts.Event>>, failed: set<int>, now: int, a: int) {
    var existing := Unfiltered(Get(t.accounts, a), now);
    var folded := Fold(ACCOUNT, existing, Pending(ACCOUNT, existing, SortByVersion(Stream(batch, a))));
    a in Ids(batch) && a !in failed && folded.Ok? && folded.value.Some? && folded.value.value.deleted
  }

  lemma GoneIsDeactivating(t: Tables, batch: seq<SeqEvent<Accounts.Event>>, failed: set<int>, now: int, a: int)
    ensures GoneBy(t, batch, failed, now, a) <==> a in Deactivating(Plan(t, batch, Ids(batch) - failed, now))
  {
  }

  /**
   A poll removes exactly the profiles and metadata of the accounts that it deactivates, the follows by them and
   the approved follows of them, and leaves every other such row as it was.
   */
  lemma RemovedExactly(t: Tables, log: seq<SeqEvent<Accounts.Event>>, checkpoint: Option<int>, failed: set<int>, now: int, id: int)
    ensures var batch, after := Window(log, Position(checkpoint)), PolledTables(t, log, checkpoint, failed, now);
            && Get(after.profiles, id) == (if id in t.profiles && GoneBy(t, batch, failed, now, t.profiles[id].accountId) then None else Get(t.profiles, id))
            && Get(after.metadata, id) == (if id in t.metadata && GoneBy(t, batch, failed, now, t.metadata[id].accountId) then None else Get(t.metadata, id))
            && Get(after.follows, id) ==
               if id in t.follows && exists a :: GoneBy(t, batch, failed, now, a) && (t.follows[id].source == Local(a) || (t.follows[id].destination == Local(a) && t.follows[id].approved))
               then None else Get(t.follows, id)
  {
    var batch := Window(log, Position(checkpoint));
    forall a ensures GoneBy(t, batch, failed, now, a) <==> a in Deactivating(Plan(t, batch, Ids(batch) - failed, now)) {
      GoneIsDeactivating(t, batch, failed, now, a);
    }
  }
}
