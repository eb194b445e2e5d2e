/** The positional diff of an account's profile fields, applied to the event streams and to the read model. */
module FieldDiff {
  import opened Kernel
  import opened EventLog
  import opened Metadatas

  /** A field as a client submits it. */
  datatype Field = Field(fieldLabel: string, content: string)

  datatype FieldUpdate =
    | Update(metadataId: int, fieldLabel: string, content: string)
    | Delete(metadataId: int)
    | Create(fieldLabel: string, content: string)

  function Shown(row: Metadata): Field {
    Field(row.fieldLabel, row.content)
  }

  function ShownAll(rows: seq<Metadata>): (r: seq<Field>)
    ensures |r| == |rows| && forall i :: 0 <= i < |r| ==> r[i] == Shown(rows[i])
  {
    seq(|rows|, i requires 0 <= i < |rows| => Shown(rows[i]))
  }

  function Deletions(rows: seq<Metadata>): (r: seq<FieldUpdate>)
    ensures |r| == |rows| && forall i :: 0 <= i < |r| ==> r[i] == Delete(rows[i].id)
  {
    seq(|rows|, i requires 0 <= i < |rows| => Delete(rows[i].id))
  }

  function Creations(fields: seq<Field>): (r: seq<FieldUpdate>)
    ensures |r| == |fields| && forall i :: 0 <= i < |r| ==> r[i] == Create(fields[i].fieldLabel, fields[i].content)
  {
    seq(|fields|, i requires 0 <= i < |fields| => Create(fields[i].fieldLabel, fields[i].content))
  }

  /** The update of one pair, if the pair differs. */
  function PairUpdate(row: Metadata, field: Field): seq<FieldUpdate> {
    if Shown(row) == field then [] else [Update(row.id, field.fieldLabel, field.content)]
  }

  /** The plan, pair by pair. */
  function FieldPlan(existing: seq<Metadata>, submitted: seq<Field>): seq<FieldUpdate> {
    if existing == [] then Creations(submitted)
    else if submitted == [] then Deletions(existing)
    else PairUpdate(existing[0], submitted[0]) + FieldPlan(existing[1..], submitted[1..])
  }

  lemma {:induction false} PlanSplits(existing: seq<Metadata>, submitted: seq<Field>, n: nat)
    requires n < |existing| && n < |submitted|
    ensures FieldPlan(existing[..n + 1], submitted[..n + 1]) == FieldPlan(existing[..n], submitted[..n]) + PairUpdate(existing[n], submitted[n])
  {
    if n == 0 {
      assert existing[..1][1..] == [] && submitted[..1][1..] == [];
      assert FieldPlan([], []) == [];
    } else {
      PlanSplits(existing[1..], submitted[1..], n - 1);
      assert existing[..n + 1][1..] == existing[1..][..n] && submitted[..n + 1][1..] == submitted[1..][..n];
      assert existing[..n][1..] == existing[1..][..n - 1] && submitted[..n][1..] == submitted[1..][..n - 1];
    }
  }

  lemma SlicesOfTail<T>(xs: seq<T>, n: nat)
    requires 0 < n <= |xs|
    ensures xs[..n][0] == xs[0] && xs[..n][1..] == xs[1..][..n - 1] && xs[1..][n - 1..] == xs[n..]
  {
  }

  lemma {:induction false} PlanTail(existing: seq<Metadata>, submitted: seq<Field>, n: nat)
    requires n <= |existing| && n <= |submitted|
    ensures FieldPlan(existing, submitted) == FieldPlan(existing[..n], submitted[..n]) + FieldPlan(existing[n..], submitted[n..])
  {
    if n == 0 {
      assert existing[..0] == [] && submitted[..0] == [] && existing[0..] == existing && submitted[0..] == submitted;
    } else {
      PlanTail(existing[1..], submitted[1..], n - 1);
      SlicesOfTail(existing, n);
      SlicesOfTail(submitted, n);
      var pair, mid, rest := PairUpdate(existing[0], submitted[0]), FieldPlan(existing[1..][..n - 1], submitted[1..][..n - 1]), FieldPlan(existing[n..], submitted[n..]);
      Regroup(pair, mid, rest);
    }
  }

  method PlanFieldUpdates(existing: seq<Metadata>, submitted: seq<Field>) returns (operations: seq<FieldUpdate>)
    ensures operations == FieldPlan(existing, submitted)
  {
    var paired := if |existing| <= |submitted| then |existing| else |submitted|;
    operations := [];
    for index := 0 to paired
      invariant operations == FieldPlan(existing[..index], submitted[..index])
    {
      PlanSplits(existing, submitted, index);
      var current, next := existing[index], submitted[index];
      if current.fieldLabel != next.fieldLabel || current.content != next.content {
        operations := operations + [Update(current.id, next.fieldLabel, next.content)];
      }
    }
    PlanTail(existing, submitted, paired);
    operations := operations + Deletions(existing[paired..]);
    operations := operations + Creations(submitted[paired..]);
  }

  function ChangedPairs(existing: seq<Metadata>, submitted: seq<Field>): nat {
    if existing == [] || submitted == [] then 0
    else (if Shown(existing[0]) == submitted[0] then 0 else 1) + ChangedPairs(existing[1..], submitted[1..])
  }

  /** A plan never both deletes and creates; it has one operation per changed pair and one per field in excess. */
  lemma {:induction false} PlanShape(existing: seq<Metadata>, submitted: seq<Field>)
    ensures var plan := FieldPlan(existing, submitted);
            && |plan| == ChangedPairs(existing, submitted) +
                         (if |existing| >= |submitted| then |existing| - |submitted| else |submitted| - |existing|)
            && (|existing| <= |submitted| ==> forall i :: 0 <= i < |plan| ==> !plan[i].Delete?)
            && (|existing| >= |submitted| ==> forall i :: 0 <= i < |plan| ==> !plan[i].Create?)
  {
    if existing != [] && submitted != [] { PlanShape(existing[1..], submitted[1..]); }
  }

  // ---------- applying a plan ----------

  /** The metadata streams, each in version order, and the metadata rows. */
  datatype Store = Store(streams: map<int, seq<MetadataEnvelope>>, rows: map<int, Metadata>)

  /** What the id generator hands out for one operation. */
  datatype Ticket = Ticket(id: int, version: int, nanoid: string)

  function StreamAt(streams: map<int, seq<MetadataEnvelope>>, m: int): seq<MetadataEnvelope> {
    if m in streams then streams[m] else []
  }

  function Saved(streams: map<int, seq<MetadataEnvelope>>, m: int, event: Metadatas.Event, version: int): map<int, seq<MetadataEnvelope>> {
    streams[m := Insert(Envelope(m, event, version), StreamAt(streams, m))]
  }

  /** The metadata aggregate rebuilt from its stream. */
  function LoadMetadata(streams: map<int, seq<MetadataEnvelope>>, m: int): Result<Metadata> {
    if StreamAt(streams, m) == [] then Err(NotFound)
    else
      match Fold(METADATA, None, StreamAt(streams, m))
      case Err(e) => Err(e)
      case Ok(None) => Err(NotFound)
      case Ok(Some(x)) => Ok(x)
  }

  /** One operation of a plan. A version just loaded in the same transaction is still the newest one. */
  function Operated(s: Store, account: int, op: FieldUpdate, t: Ticket): Result<Store> {
    match op
    case Update(m, l, c) =>
      (match LoadMetadata(s.streams, m)
       case Err(e) => Err(e)
       case Ok(_) =>
         var streams := Saved(s.streams, m, Metadatas.Updated(l, c), t.version);
         match LoadMetadata(streams, m)
         case Err(e) => Err(e)
         case Ok(x) =>
           if m !in s.rows then Err(NotFound)
           else Ok(Store(streams, s.rows[m := s.rows[m].(fieldLabel := x.fieldLabel, content := x.content, version := x.version)])))
    case Delete(m) =>
      (match LoadMetadata(s.streams, m)
       case Err(e) => Err(e)
       case Ok(_) =>
         if m !in s.rows then Err(NotFound)
         else Ok(Store(Saved(s.streams, m, Metadatas.Deleted, t.version), s.rows - {m})))
    case Create(l, c) =>
      if StreamAt(s.streams, t.id) != [] then Err(Concurrency)
      else if t.id in s.rows then Err(Internal)
      else Ok(Store(Saved(s.streams, t.id, Metadatas.Created(account, l, c, t.nanoid), t.version),
                    s.rows[t.id := Metadata(t.id, account, l, c, t.version, t.nanoid)]))
  }

  /**
   When one operation with a newest version succeeds, and how it fails. An update or a deletion needs a stream that
   replays to a field and the field's row; a creation needs an unused id.
   */
  lemma OperationOutcome(s: Store, account: int, op: FieldUpdate, t: Ticket)
    requires !op.Create? ==> forall i :: 0 <= i < |StreamAt(s.streams, op.metadataId)| ==> StreamAt(s.streams, op.metadataId)[i].version < t.version
    ensures var r := Operated(s, account, op, t);
            if op.Create? then
              (if StreamAt(s.streams, t.id) != [] then r == Err(Concurrency) else if t.id in s.rows then r == Err(Internal) else r.Ok?)
            else
              var folded := Fold(METADATA, None, StreamAt(s.streams, op.metadataId));
              if folded.Err? then r == Err(folded.error)
              else if folded.value.None? || op.metadataId !in s.rows then r == Err(NotFound)
              else r.Ok?
  {
    if op.Update? {
      var m, env := op.metadataId, Envelope(op.metadataId, Metadatas.Updated(op.fieldLabel, op.content), t.version);
      InsertLast(env, StreamAt(s.streams, m));
      FoldSnoc(METADATA, None, StreamAt(s.streams, m), env);
      assert StreamAt(Saved(s.streams, m, env.event, t.version), m) == StreamAt(s.streams, m) + [env];
    }
  }

  /** The operations one after the other; the first refusal rolls everything back. */
  function Applied(s: Store, account: int, plan: seq<FieldUpdate>, tickets: seq<Ticket>): Result<Store>
    requires |plan| <= |tickets|
    decreases |plan|
  {
    if plan == [] then Ok(s)
    else
      match Operated(s, account, plan[0], tickets[0])
      case Err(e) => Err(e)
      case Ok(next) => Applied(next, account, plan[1..], tickets[1..])
  }

  lemma {:induction false} AppliedSnoc(s: Store, account: int, plan: seq<FieldUpdate>, tickets: seq<Ticket>, n: nat)
    requires n < |plan| <= |tickets|
    ensures Applied(s, account, plan[..n + 1], tickets) ==
            match Applied(s, account, plan[..n], tickets)
            case Err(e) => Err(e)
            case Ok(next) => Operated(next, account, plan[n], tickets[n])
    decreases n
  {
    if n == 0 {
      assert plan[..1][1..] == [];
    } else {
      match Operated(s, account, plan[0], tickets[0])
      case Err(_) =>
      case Ok(next) =>
        AppliedSnoc(next, account, plan[1..], tickets[1..], n - 1);
        assert plan[..n + 1][1..] == plan[1..][..n] && plan[..n][1..] == plan[1..][..n - 1];
    }
  }

  lemma {:induction false} AppliedFails(s: Store, account: int, plan: seq<FieldUpdate>, tickets: seq<Ticket>, n: nat)
    requires n <= |plan| <= |tickets| && Applied(s, account, plan[..n], tickets).Err?
    ensures Applied(s, account, plan, tickets) == Applied(s, account, plan[..n], tickets)
    decreases n
  {
    assert n > 0 && plan[..n][0] == plan[0];
    match Operated(s, account, plan[0], tickets[0])
    case Err(_) =>
    case Ok(next) =>
      assert plan[..n][1..] == plan[1..][..n - 1];
      AppliedFails(next, account, plan[1..], tickets[1..], n - 1);
  }

  /** The tables inside the transaction. */
  class FieldTables {
    var streams: map<int, seq<MetadataEnvelope>>
    var rows: map<int, Metadata>

    function Contents(): Store
      reads this
    {
      Store(streams, rows)
    }

    method Rehydrate(m: int) returns (r: Result<Metadata>)
      ensures r == LoadMetadata(streams, m)
    {
      var loaded := FromEventsAllowDeletion(METADATA, StreamAt(streams, m));
      if loaded.Err? { return Err(loaded.error); }
      r := if loaded.value.None? then Err(NotFound) else Ok(loaded.value.value.aggregate);
    }

    method ApplyOne(account: int, op: FieldUpdate, t: Ticket) returns (r: Result<bool>)
      modifies this
      ensures var next := Operated(old(Contents()), account, op, t);
              if r.Ok? then next == Ok(Contents()) else next == Err(r.error)
    {
      r := Ok(true);
      match op
      case Update(m, l, c) =>
        var current := Rehydrate(m);
        if current.Err? { return Err(current.error); }
        streams := Saved(streams, m, Metadatas.Updated(l, c), t.version);
        var updated := Rehydrate(m);
        if updated.Err? { return Err(updated.error); }
        if m !in rows { return Err(NotFound); }
        rows := rows[m := rows[m].(fieldLabel := updated.value.fieldLabel, content := updated.value.content, version := updated.value.version)];
      case Delete(m) =>
        var current := Rehydrate(m);
        if current.Err? { return Err(current.error); }
        streams := Saved(streams, m, Metadatas.Deleted, t.version);
        if m !in rows { return Err(NotFound); }
        rows := rows - {m};
      case Create(l, c) =>
        if StreamAt(streams, t.id) != [] { return Err(Concurrency); }
        streams := Saved(streams, t.id, Metadatas.Created(account, l, c, t.nanoid), t.version);
        if t.id in rows { return Err(Internal); }
        rows := rows[t.id := Metadata(t.id, account, l, c, t.version, t.nanoid)];
    }

    /** The operations one after the other, up to the first refusal. */
    method ApplyAll(account: int, operations: seq<FieldUpdate>, tickets: seq<Ticket>) returns (r: Result<bool>)
      requires |operations| <= |tickets|
      modifies this
      ensures var next := Applied(old(Contents()), account, operations, tickets);
              if r.Ok? then next == Ok(Contents()) else next == Err(r.error)
    {
      ghost var start := Contents();
      for i := 0 to |operations|
        invariant Applied(start, account, operations[..i], tickets) == Ok(Contents())
      {
        AppliedSnoc(start, account, operations, tickets, i);
        var done := ApplyOne(account, operations[i], tickets[i]);
        if done.Err? {
          AppliedFails(start, account, operations, tickets, i + 1);
          return Err(done.error);
        }
      }
      assert operations[..|operations|] == operations;
      r := Ok(true);
    }

    /** Plans and applies; a refused operation ends the transaction, which rolls everything back. */
    method ApplyFieldUpdates(account: int, existing: seq<Metadata>, submitted: seq<Field>, tickets: seq<Ticket>) returns (r: Result<bool>)
      requires |FieldPlan(existing, submitted)| <= |tickets|
      modifies this
      ensures var next := Applied(old(Contents()), account, FieldPlan(existing, submitted), tickets);
              if r.Ok? then next == Ok(Contents()) else next == Err(r.error) && Contents() == old(Contents())
    {
      var operations := PlanFieldUpdates(existing, submitted);
      var streamsBefore, rowsBefore := streams, rows;
      r := ApplyAll(account, operations, tickets);
      if r.Err? { streams, rows := streamsBefore, rowsBefore; }
    }
  }

  // ---------- round trip ----------

  /** The list holds exactly the account's rows, in id order. */
  ghost predicate Listed(list: seq<Metadata>, rows: map<int, Metadata>, account: int) {
    && (forall i, j :: 0 <= i < j < |list| ==> list[i].id < list[j].id)
    && (forall i :: 0 <= i < |list| ==> list[i].id in rows && rows[list[i].id] == list[i] && list[i].accountId == account)
    && (forall m :: m in rows && rows[m].accountId == account ==> rows[m].id == m && rows[m] in list)
  }

  /** Every row of the account is what its stream folds to. */
  ghost predicate Agreed(s: Store, account: int) {
    forall m :: m in s.rows && s.rows[m].accountId == account ==>
      s.rows[m].id == m && Fold(METADATA, None, StreamAt(s.streams, m)) == Ok(Some(s.rows[m]))
  }

  /** Every id and version in use is below a bound. */
  ghost predicate Under(s: Store, bound: int) {
    && (forall m :: m in s.rows ==> m < bound)
    && (forall m :: m in s.streams ==> m < bound)
    && (forall m :: m in s.streams ==> forall i :: 0 <= i < |s.streams[m]| ==> s.streams[m][i].version < bound)
  }

  /** The generator hands out growing numbers: an id, then the version of its event, then the next id. */
  ghost predicate Growing(bound: int, tickets: seq<Ticket>)
    decreases |tickets|
  {
    tickets != [] ==> bound <= tickets[0].id < tickets[0].version && Growing(tickets[0].version + 1, tickets[1..])
  }

  lemma StreamUnder(s: Store, m: int, bound: int)
    requires Under(s, bound)
    ensures forall i :: 0 <= i < |StreamAt(s.streams, m)| ==> StreamAt(s.streams, m)[i].version < bound
  {
  }

  lemma SavedUnder(s: Store, m: int, event: Metadatas.Event, version: int, rows: map<int, Metadata>)
    requires Under(s, version) && m <= version && forall k :: k in rows ==> k <= version
    ensures Saved(s.streams, m, event, version) == s.streams[m := StreamAt(s.streams, m) + [Envelope(m, event, version)]]
    ensures Under(Store(Saved(s.streams, m, event, version), rows), version + 1)
  {
    StreamUnder(s, m, version);
    InsertLast(Envelope(m, event, version), StreamAt(s.streams, m));
  }

  lemma UnderMore(s: Store, bound: int, more: int)
    requires Under(s, bound) && bound <= more
    ensures Under(s, more)
  {
  }

  lemma UpdateLands(s: Store, account: int, row: Metadata, field: Field, t: Ticket) returns (next: Store)
    requires Agreed(s, account) && Under(s, t.id) && t.id < t.version
    requires row.id in s.rows && s.rows[row.id] == row && row.accountId == account
    ensures Operated(s, account, Update(row.id, field.fieldLabel, field.content), t) == Ok(next)
    ensures next.rows == s.rows[row.id := row.(fieldLabel := field.fieldLabel, content := field.content, version := t.version)]
    ensures Agreed(next, account) && Under(next, t.version + 1)
  {
    var m, event := row.id, Metadatas.Updated(field.fieldLabel, field.content);
    var rows := s.rows[m := row.(fieldLabel := field.fieldLabel, content := field.content, version := t.version)];
    UnderMore(s, t.id, t.version);
    SavedUnder(s, m, event, t.version, rows);
    next := Store(Saved(s.streams, m, event, t.version), rows);
    FoldSnoc(METADATA, None, StreamAt(s.streams, m), Envelope(m, event, t.version));
    assert StreamAt(s.streams, m) != [];
    assert LoadMetadata(next.streams, m) == Ok(rows[m]);
  }

  lemma DeleteLands(s: Store, account: int, row: Metadata, t: Ticket) returns (next: Store)
    requires Agreed(s, account) && Under(s, t.id) && t.id < t.version
    requires row.id in s.rows && s.rows[row.id] == row && row.accountId == account
    ensures Operated(s, account, Delete(row.id), t) == Ok(next)
    ensures next.rows == s.rows - {row.id}
    ensures Agreed(next, account) && Under(next, t.version + 1)
  {
    var m := row.id;
    UnderMore(s, t.id, t.version);
    SavedUnder(s, m, Metadatas.Deleted, t.version, s.rows - {m});
    next := Store(Saved(s.streams, m, Metadatas.Deleted, t.version), s.rows - {m});
    FoldSnoc(METADATA, None, StreamAt(s.streams, m), Envelope(m, Metadatas.Deleted, t.version));
    assert StreamAt(s.streams, m) != [];
  }

  lemma CreateLands(s: Store, account: int, field: Field, t: Ticket) returns (next: Store)
    requires Agreed(s, account) && Under(s, t.id) && t.id < t.version
    ensures Operated(s, account, Create(field.fieldLabel, field.content), t) == Ok(next)
    ensures t.id !in s.rows && next.rows == s.rows[t.id := Metadata(t.id, account, field.fieldLabel, field.content, t.version, t.nanoid)]
    ensures Agreed(next, account) && Under(next, t.version + 1)
  {
    var event := Metadatas.Created(account, field.fieldLabel, field.content, t.nanoid);
    var rows := s.rows[t.id := Metadata(t.id, account, field.fieldLabel, field.content, t.version, t.nanoid)];
    UnderMore(s, t.id, t.version);
    SavedUnder(s, t.id, event, t.version, rows);
    next := Store(Saved(s.streams, t.id, event, t.version), rows);
    FoldSnoc(METADATA, None, [], Envelope(t.id, event, t.version));
    assert [] + [Envelope(t.id, event, t.version)] == StreamAt(next.streams, t.id);
  }

  lemma ListedUpdate(done: seq<Metadata>, row: Metadata, rest: seq<Metadata>, rows: map<int, Metadata>, account: int, updated: Metadata)
    requires Listed(done + [row] + rest, rows, account) && updated.id == row.id && updated.accountId == account
    ensures Listed(done + [updated] + rest, rows[row.id := updated], account)
  {
    var before, after := done + [row] + rest, done + [updated] + rest;
    assert before[|done|] == row;
    forall i | 0 <= i < |before| ensures i != |done| ==> after[i] == before[i] && before[i].id != row.id {}
    forall m | m in rows && rows[m].accountId == account && m != row.id ensures rows[m] in after {
      var i :| 0 <= i < |before| && before[i] == rows[m];
      assert i != |done|;
      assert after[i] == rows[m];
    }
    assert after[|done|] == updated;
  }

  lemma WithoutMember(done: seq<Metadata>, row: Metadata, rest: seq<Metadata>, x: Metadata)
    requires x in done + [row] + rest && x != row
    ensures x in done + rest
  {
  }

  lemma WithoutAscends(done: seq<Metadata>, row: Metadata, rest: seq<Metadata>)
    requires forall i, j :: 0 <= i < j < |done + [row] + rest| ==> (done + [row] + rest)[i].id < (done + [row] + rest)[j].id
    ensures forall i, j :: 0 <= i < j < |done + rest| ==> (done + rest)[i].id < (done + rest)[j].id
    ensures forall i :: 0 <= i < |done + rest| ==> (done + rest)[i].id != row.id && (done + rest)[i] in done + [row] + rest
  {
    var before, after := done + [row] + rest, done + rest;
    assert before[|done|] == row;
    forall i | 0 <= i < |after| ensures after[i] == before[if i < |done| then i else i + 1] {}
  }

  lemma ListedDelete(done: seq<Metadata>, row: Metadata, rest: seq<Metadata>, rows: map<int, Metadata>, account: int)
    requires Listed(done + [row] + rest, rows, account)
    ensures Listed(done + rest, rows - {row.id}, account)
  {
    WithoutAscends(done, row, rest);
    forall m | m in rows && rows[m].accountId == account && m != row.id ensures rows[m] in done + rest {
      WithoutMember(done, row, rest, rows[m]);
    }
  }

  lemma ListedAppend(list: seq<Metadata>, rows: map<int, Metadata>, account: int, created: Metadata)
    requires Listed(list, rows, account) && created.accountId == account && forall m :: m in rows ==> m < created.id
    ensures Listed(list + [created], rows[created.id := created], account)
  {
  }

  lemma SmallestFirst(p: seq<Metadata>, q: seq<Metadata>)
    requires p != [] && q != []
    requires forall i, j :: 0 <= i < j < |p| ==> p[i].id < p[j].id
    requires forall i, j :: 0 <= i < j < |q| ==> q[i].id < q[j].id
    requires forall x :: x in p <==> x in q
    ensures p[0] == q[0]
    ensures forall x :: x in p[1..] <==> x in q[1..]
  {
    assert p[0] in q && q[0] in p;
    var i :| 0 <= i < |q| && q[i] == p[0];
    var j :| 0 <= j < |p| && p[j] == q[0];
    HeadTail(p);
    HeadTail(q);
    forall x ensures x in p[1..] <==> x in p && x != p[0] {}
    forall x ensures x in q[1..] <==> x in q && x != q[0] {}
  }

  /** Only one list holds an account's rows in id order. */
  lemma {:induction false} ListedUnique(p: seq<Metadata>, q: seq<Metadata>)
    requires forall i, j :: 0 <= i < j < |p| ==> p[i].id < p[j].id
    requires forall i, j :: 0 <= i < j < |q| ==> q[i].id < q[j].id
    requires forall x :: x in p <==> x in q
    ensures p == q
  {
    assert |q| > 0 ==> q[0] in p;
    assert |p| > 0 ==> p[0] in q;
    if p != [] {
      SmallestFirst(p, q);
      ListedUnique(p[1..], q[1..]);
      HeadTail(p);
      HeadTail(q);
    }
  }

  /** The new list: same ids in front, and the submitted fields. */
  ghost predicate Renewed(existing: seq<Metadata>, submitted: seq<Field>, list: seq<Metadata>) {
    && ShownAll(list) == submitted
    && (forall i :: 0 <= i < |list| && i < |existing| ==> list[i].id == existing[i].id && list[i].nanoid == existing[i].nanoid)
    && (forall i :: 0 <= i < |list| && i < |existing| && Shown(existing[i]) == submitted[i] ==> list[i] == existing[i])
  }

  lemma RenewedCons(row: Metadata, existing: seq<Metadata>, field: Field, submitted: seq<Field>, first: Metadata, list: seq<Metadata>)
    requires Renewed(existing, submitted, list) && Shown(first) == field && first.id == row.id && first.nanoid == row.nanoid
    requires Shown(row) == field ==> first == row
    ensures Renewed([row] + existing, [field] + submitted, [first] + list)
  {
  }

  /** The account's rows are this list, they agree with their streams, and numbers from `bound` on are unused. */
  ghost predicate Ready(s: Store, account: int, list: seq<Metadata>, bound: int) {
    Listed(list, s.rows, account) && Agreed(s, account) && Under(s, bound)
  }

  /** What applying a plan must achieve, given the rows already dealt with. */
  ghost predicate Achieved(account: int, done: seq<Metadata>, existing: seq<Metadata>, submitted: seq<Field>, next: Store, list: seq<Metadata>) {
    Listed(done + list, next.rows, account) && Renewed(existing, submitted, list) && Agreed(next, account)
  }

  lemma AchievedCons(next: Store, account: int, done: seq<Metadata>, existing: seq<Metadata>, submitted: seq<Field>, first: Metadata, rest: seq<Metadata>)
    requires existing != [] && submitted != [] && Shown(first) == submitted[0] && first.id == existing[0].id && first.nanoid == existing[0].nanoid
    requires Shown(existing[0]) == submitted[0] ==> first == existing[0]
    requires Achieved(account, done + [first], existing[1..], submitted[1..], next, rest)
    ensures Achieved(account, done, existing, submitted, next, [first] + rest)
  {
    Regroup(done, [first], rest);
    HeadTail(existing);
    HeadTail(submitted);
    RenewedCons(existing[0], existing[1..], submitted[0], submitted[1..], first, rest);
  }

  lemma CreateStep(s: Store, account: int, done: seq<Metadata>, field: Field, t: Ticket) returns (mid: Store, created: Metadata)
    requires Ready(s, account, done, t.id) && t.id < t.version
    ensures Operated(s, account, Create(field.fieldLabel, field.content), t) == Ok(mid)
    ensures Ready(mid, account, done + [created], t.version + 1) && Shown(created) == field
  {
    mid := CreateLands(s, account, field, t);
    created := mid.rows[t.id];
    ListedAppend(done, s.rows, account, created);
  }

  lemma FirstListed(done: seq<Metadata>, existing: seq<Metadata>, rows: map<int, Metadata>, account: int)
    requires Listed(done + existing, rows, account) && existing != []
    ensures done + existing == done + [existing[0]] + existing[1..]
    ensures existing[0].id in rows && rows[existing[0].id] == existing[0] && existing[0].accountId == account
  {
    HeadTail(existing);
    Regroup(done, [existing[0]], existing[1..]);
    assert (done + existing)[|done|] == existing[0];
  }

  lemma DeleteStep(s: Store, account: int, done: seq<Metadata>, existing: seq<Metadata>, t: Ticket) returns (mid: Store)
    requires Ready(s, account, done + existing, t.id) && t.id < t.version && existing != []
    ensures Operated(s, account, Delete(existing[0].id), t) == Ok(mid)
    ensures Ready(mid, account, done + existing[1..], t.version + 1)
  {
    FirstListed(done, existing, s.rows, account);
    mid := DeleteLands(s, account, existing[0], t);
    ListedDelete(done, existing[0], existing[1..], s.rows, account);
  }

  lemma UpdateStep(s: Store, account: int, done: seq<Metadata>, existing: seq<Metadata>, field: Field, t: Ticket) returns (mid: Store, updated: Metadata)
    requires Ready(s, account, done + existing, t.id) && t.id < t.version && existing != []
    ensures Operated(s, account, Update(existing[0].id, field.fieldLabel, field.content), t) == Ok(mid)
    ensures Ready(mid, account, done + [updated] + existing[1..], t.version + 1)
    ensures updated.id == existing[0].id && updated.nanoid == existing[0].nanoid && Shown(updated) == field
  {
    FirstListed(done, existing, s.rows, account);
    mid := UpdateLands(s, account, existing[0], field, t);
    updated := mid.rows[existing[0].id];
    ListedUpdate(done, existing[0], existing[1..], s.rows, account, updated);
  }

  lemma ReadyMore(s: Store, account: int, list: seq<Metadata>, bound: int, more: int)
    requires Ready(s, account, list, bound) && bound <= more
    ensures Ready(s, account, list, more)
  {
  }

  lemma {:induction false} CreatesAchieve(s: Store, account: int, done: seq<Metadata>, submitted: seq<Field>, tickets: seq<Ticket>, bound: int)
    returns (next: Store, list: seq<Metadata>)
    requires Ready(s, account, done, bound) && Growing(bound, tickets) && |submitted| <= |tickets|
    ensures Applied(s, account, Creations(submitted), tickets) == Ok(next)
    ensures Achieved(account, done, [], submitted, next, list)
    decreases |submitted|
  {
    if submitted == [] {
      next, list := s, [];
      assert done + [] == done;
    } else {
      var t := tickets[0];
      ReadyMore(s, account, done, bound, t.id);
      var mid, created := CreateStep(s, account, done, submitted[0], t);
      var rest;
      next, rest := CreatesAchieve(mid, account, done + [created], submitted[1..], tickets[1..], t.version + 1);
      list := [created] + rest;
      assert Creations(submitted)[1..] == Creations(submitted[1..]);
      Regroup(done, [created], rest);
      ShownCons(created, rest, submitted);
      }
  }

  lemma ShownCons(first: Metadata, rest: seq<Metadata>, submitted: seq<Field>)
    requires submitted != [] && Shown(first) == submitted[0] && ShownAll(rest) == submitted[1..]
    ensures ShownAll([first] + rest) == submitted
  {
  }

  lemma {:induction false} DeletesAchieve(s: Store, account: int, done: seq<Metadata>, existing: seq<Metadata>, tickets: seq<Ticket>, bound: int)
    returns (next: Store)
    requires Ready(s, account, done + existing, bound) && Growing(bound, tickets) && |existing| <= |tickets|
    ensures Applied(s, account, Deletions(existing), tickets) == Ok(next)
    ensures Achieved(account, done, existing, [], next, [])
    decreases |existing|
  {
    assert done + [] == done;
    if existing == [] {
      next := s;
    } else {
      var t := tickets[0];
      ReadyMore(s, account, done + existing, bound, t.id);
      var mid := DeleteStep(s, account, done, existing, t);
      next := DeletesAchieve(mid, account, done, existing[1..], tickets[1..], t.version + 1);
      assert Deletions(existing)[1..] == Deletions(existing[1..]);
      }
  }

  lemma {:induction false} PlanAchieves(s: Store, account: int, done: seq<Metadata>, existing: seq<Metadata>, submitted: seq<Field>, tickets: seq<Ticket>, bound: int)
    returns (next: Store, list: seq<Metadata>)
    requires Ready(s, account, done + existing, bound) && Growing(bound, tickets)
    requires |FieldPlan(existing, submitted)| <= |tickets|
    ensures Applied(s, account, FieldPlan(existing, submitted), tickets) == Ok(next)
    ensures Achieved(account, done, existing, submitted, next, list)
    decreases |existing|, 1
  {
    if existing == [] {
      assert done + existing == done;
      next, list := CreatesAchieve(s, account, done, submitted, tickets, bound);
    } else if submitted == [] {
      next := DeletesAchieve(s, account, done, existing, tickets, bound);
      list := [];
    } else if Shown(existing[0]) == submitted[0] {
      var row := existing[0];
      FirstListed(done, existing, s.rows, account);
      var plan := FieldPlan(existing[1..], submitted[1..]);
      assert [] + plan == plan;
      var rest;
      next, rest := PlanAchieves(s, account, done + [row], existing[1..], submitted[1..], tickets, bound);
      list := [row] + rest;
      AchievedCons(next, account, done, existing, submitted, row, rest);
    } else {
      next, list := PairAchieves(s, account, done, existing, submitted, tickets, bound);
    }
  }

  lemma {:induction false} PairAchieves(s: Store, account: int, done: seq<Metadata>, existing: seq<Metadata>, submitted: seq<Field>, tickets: seq<Ticket>, bound: int)
    returns (next: Store, list: seq<Metadata>)
    requires Ready(s, account, done + existing, bound) && Growing(bound, tickets)
    requires |FieldPlan(existing, submitted)| <= |tickets|
    requires existing != [] && submitted != [] && Shown(existing[0]) != submitted[0]
    ensures Applied(s, account, FieldPlan(existing, submitted), tickets) == Ok(next)
    ensures Achieved(account, done, existing, submitted, next, list)
    decreases |existing|, 0
  {
    var t := tickets[0];
    ReadyMore(s, account, done + existing, bound, t.id);
    var mid, updated := UpdateStep(s, account, done, existing, submitted[0], t);
    assert FieldPlan(existing, submitted)[1..] == FieldPlan(existing[1..], submitted[1..]);
    var rest;
    next, rest := PlanAchieves(mid, account, done + [updated], existing[1..], submitted[1..], tickets[1..], t.version + 1);
    list := [updated] + rest;
    AchievedCons(next, account, done, existing, submitted, updated, rest);
  }

  // ---------- what a plan saves ----------

  /** The aggregate that an operation acts on, and the event it saves. */
  function Target(op: FieldUpdate, t: Ticket): int {
    if op.Create? then t.id else op.metadataId
  }

  function SavedEvent(account: int, op: FieldUpdate, t: Ticket): MetadataEnvelope {
    match op
    case Update(m, l, c) => Envelope(m, Metadatas.Updated(l, c), t.version)
    case Delete(m) => Envelope(m, Metadatas.Deleted, t.version)
    case Create(l, c) => Envelope(t.id, Metadatas.Created(account, l, c, t.nanoid), t.version)
  }

  /** A stream grew by these events; without any its row is as before, and behind a deletion there is none. */
  ghost predicate GrewBy(s: Store, next: Store, m: int, events: seq<MetadataEnvelope>) {
    && StreamAt(next.streams, m) == StreamAt(s.streams, m) + events
    && (events == [] ==> Get(next.rows, m) == Get(s.rows, m))
    && (events != [] && events[|events| - 1].event.Deleted? ==> m !in next.rows)
  }

  lemma GrewChain(s: Store, mid: Store, next: Store, m: int, first: seq<MetadataEnvelope>, rest: seq<MetadataEnvelope>)
    requires GrewBy(s, mid, m, first) && GrewBy(mid, next, m, rest)
    ensures GrewBy(s, next, m, first + rest)
  {
    assert StreamAt(s.streams, m) + first + rest == StreamAt(s.streams, m) + (first + rest);
  }

  /** The event that an operation saves for one aggregate, if it acts on it. */
  function SavedFor(account: int, op: FieldUpdate, t: Ticket, m: int): seq<MetadataEnvelope> {
    if Target(op, t) == m then [SavedEvent(account, op, t)] else []
  }

  /** The events that a plan saves for one aggregate, in order. */
  function Planned(account: int, plan: seq<FieldUpdate>, tickets: seq<Ticket>, m: int): seq<MetadataEnvelope>
    requires |plan| <= |tickets|
    decreases |plan|
  {
    if plan == [] then [] else SavedFor(account, plan[0], tickets[0], m) + Planned(account, plan[1..], tickets[1..], m)
  }

  lemma OperatedGrows(s: Store, account: int, op: FieldUpdate, t: Ticket, m: int)
    requires Under(s, t.id) && t.id < t.version && Operated(s, account, op, t).Ok?
    ensures var next := Operated(s, account, op, t).value;
            Under(next, t.version + 1) && GrewBy(s, next, m, SavedFor(account, op, t, m))
  {
    var next, k := Operated(s, account, op, t).value, Target(op, t);
    UnderMore(s, t.id, t.version);
    SavedUnder(s, k, SavedEvent(account, op, t).event, t.version, next.rows);
    assert StreamAt(s.streams, m) + [] == StreamAt(s.streams, m);
  }

  /** Applying a plan appends to each stream exactly the events planned for it, and leaves every other row alone. */
  lemma {:induction false} StreamsGrow(s: Store, account: int, plan: seq<FieldUpdate>, tickets: seq<Ticket>, bound: int, m: int)
    requires Under(s, bound) && Growing(bound, tickets) && |plan| <= |tickets| && Applied(s, account, plan, tickets).Ok?
    ensures GrewBy(s, Applied(s, account, plan, tickets).value, m, Planned(account, plan, tickets, m))
    decreases |plan|
  {
    if plan == [] {
      assert StreamAt(s.streams, m) + [] == StreamAt(s.streams, m);
    } else {
      var t := tickets[0];
      UnderMore(s, bound, t.id);
      OperatedGrows(s, account, plan[0], t, m);
      var mid := Operated(s, account, plan[0], t).value;
      StreamsGrow(mid, account, plan[1..], tickets[1..], t.version + 1, m);
      GrewChain(s, mid, Applied(s, account, plan, tickets).value, m, SavedFor(account, plan[0], t, m), Planned(account, plan[1..], tickets[1..], m));
    }
  }

  /** The rows that a submitted list changes or deletes. */
  function ChangedIds(existing: seq<Metadata>, submitted: seq<Field>): set<int> {
    set i | 0 <= i < |existing| && (i < |submitted| ==> Shown(existing[i]) != submitted[i]) :: existing[i].id
  }

  lemma ChangedTail(existing: seq<Metadata>, submitted: seq<Field>)
    requires existing != [] && submitted != []
    ensures ChangedIds(existing[1..], submitted[1..]) <= ChangedIds(existing, submitted)
    ensures Shown(existing[0]) != submitted[0] ==> existing[0].id in ChangedIds(existing, submitted)
  {
    forall m | m in ChangedIds(existing[1..], submitted[1..]) ensures m in ChangedIds(existing, submitted) {
      var i :| 0 <= i < |existing[1..]| && (i < |submitted[1..]| ==> Shown(existing[1..][i]) != submitted[1..][i]) && existing[1..][i].id == m;
      assert existing[i + 1].id == m;
    }
    if Shown(existing[0]) != submitted[0] { assert existing[0].id in ChangedIds(existing, submitted); }
  }

  /** A plan updates and deletes only rows that the submitted list changes. */
  lemma {:induction false} PlanNames(existing: seq<Metadata>, submitted: seq<Field>, op: FieldUpdate)
    requires op in FieldPlan(existing, submitted) && !op.Create?
    ensures op.metadataId in ChangedIds(existing, submitted)
  {
    if existing != [] && submitted != [] {
      ChangedTail(existing, submitted);
      if op in FieldPlan(existing[1..], submitted[1..]) { PlanNames(existing[1..], submitted[1..], op); }
    }
  }

  lemma {:induction false} PlannedNone(account: int, plan: seq<FieldUpdate>, tickets: seq<Ticket>, bound: int, m: int)
    requires |plan| <= |tickets| && Growing(bound, tickets) && m < bound && forall op :: op in plan && !op.Create? ==> op.metadataId != m
    ensures Planned(account, plan, tickets, m) == []
    decreases |plan|
  {
    if plan != [] {
      assert plan[0] in plan && forall op :: op in plan[1..] ==> op in plan;
      PlannedNone(account, plan[1..], tickets[1..], tickets[0].version + 1, m);
    }
  }

  lemma {:induction false} DeletionPlanned(account: int, rows: seq<Metadata>, tickets: seq<Ticket>, bound: int, i: nat)
    requires i < |rows| <= |tickets| && Growing(bound, tickets) && rows[i].id < bound && forall j, k :: 0 <= j < k < |rows| ==> rows[j].id < rows[k].id
    ensures exists v :: Planned(account, Deletions(rows), tickets, rows[i].id) == [Envelope(rows[i].id, Metadatas.Deleted, v)]
    decreases |rows|
  {
    var m, rest := rows[i].id, rows[1..];
    assert Deletions(rows)[1..] == Deletions(rest);
    if i == 0 {
      PlannedNone(account, Deletions(rest), tickets[1..], tickets[0].version + 1, m);
      assert Planned(account, Deletions(rows), tickets, m) == [Envelope(m, Metadatas.Deleted, tickets[0].version)];
    } else {
      DeletionPlanned(account, rest, tickets[1..], tickets[0].version + 1, i - 1);
      assert Planned(account, Deletions(rows), tickets, m) == Planned(account, Deletions(rest), tickets[1..], m);
    }
  }

  /** A row in excess of the submitted list gets exactly one event, its deletion. */
  lemma {:induction false} ExcessPlanned(account: int, existing: seq<Metadata>, submitted: seq<Field>, tickets: seq<Ticket>, bound: int, i: nat)
    requires |submitted| <= i < |existing| && |FieldPlan(existing, submitted)| <= |tickets| && Growing(bound, tickets)
    requires existing[i].id < bound && forall j, k :: 0 <= j < k < |existing| ==> existing[j].id < existing[k].id
    ensures exists v :: Planned(account, FieldPlan(existing, submitted), tickets, existing[i].id) == [Envelope(existing[i].id, Metadatas.Deleted, v)]
    decreases |existing|
  {
    if submitted == [] {
      DeletionPlanned(account, existing, tickets, bound, i);
    } else {
      var m, plan, rest := existing[i].id, FieldPlan(existing, submitted), FieldPlan(existing[1..], submitted[1..]);
      if Shown(existing[0]) == submitted[0] {
        assert plan == rest;
        ExcessPlanned(account, existing[1..], submitted[1..], tickets, bound, i - 1);
      } else {
        assert plan[1..] == rest;
        ExcessPlanned(account, existing[1..], submitted[1..], tickets[1..], tickets[0].version + 1, i - 1);
        assert Planned(account, plan, tickets, m) == Planned(account, rest, tickets[1..], m);
      }
    }
  }

  /** Rows and streams that existed before and that the submitted list does not change are as before, whoever owns them. */
  ghost predicate Untouched(s: Store, next: Store, existing: seq<Metadata>, submitted: seq<Field>, bound: int) {
    forall m :: m < bound && m !in ChangedIds(existing, submitted) ==>
      Get(next.rows, m) == Get(s.rows, m) && StreamAt(next.streams, m) == StreamAt(s.streams, m)
  }

  /** The deletion of every row in excess is recorded: its stream folds to nothing. */
  ghost predicate Recorded(next: Store, existing: seq<Metadata>, submitted: seq<Field>) {
    forall i :: |submitted| <= i < |existing| ==>
      existing[i].id !in next.rows && Fold(METADATA, None, StreamAt(next.streams, existing[i].id)) == Ok(None)
  }

  lemma PlanLeaves(s: Store, account: int, existing: seq<Metadata>, submitted: seq<Field>, tickets: seq<Ticket>, bound: int)
    requires Under(s, bound) && Growing(bound, tickets) && |FieldPlan(existing, submitted)| <= |tickets|
    requires Applied(s, account, FieldPlan(existing, submitted), tickets).Ok?
    ensures Untouched(s, Applied(s, account, FieldPlan(existing, submitted), tickets).value, existing, submitted, bound)
  {
    var plan := FieldPlan(existing, submitted);
    var next := Applied(s, account, plan, tickets).value;
    forall m | m < bound && m !in ChangedIds(existing, submitted)
      ensures Get(next.rows, m) == Get(s.rows, m) && StreamAt(next.streams, m) == StreamAt(s.streams, m)
    {
      forall op | op in plan && !op.Create? ensures op.metadataId != m { PlanNames(existing, submitted, op); }
      PlannedNone(account, plan, tickets, bound, m);
      StreamsGrow(s, account, plan, tickets, bound, m);
    }
  }

  lemma DeletionFolds(s: Store, account: int, existing: seq<Metadata>, submitted: seq<Field>, tickets: seq<Ticket>, bound: int, i: nat)
    requires Ready(s, account, existing, bound) && Growing(bound, tickets) && |FieldPlan(existing, submitted)| <= |tickets|
    requires Applied(s, account, FieldPlan(existing, submitted), tickets).Ok? && |submitted| <= i < |existing|
    ensures var next := Applied(s, account, FieldPlan(existing, submitted), tickets).value;
            existing[i].id !in next.rows && Fold(METADATA, None, StreamAt(next.streams, existing[i].id)) == Ok(None)
  {
    var m, plan := existing[i].id, FieldPlan(existing, submitted);
    StreamsGrow(s, account, plan, tickets, bound, m);
    ExcessPlanned(account, existing, submitted, tickets, bound, i);
    var v :| Planned(account, plan, tickets, m) == [Envelope(m, Metadatas.Deleted, v)];
    FoldSnoc(METADATA, None, StreamAt(s.streams, m), Envelope(m, Metadatas.Deleted, v));
  }

  lemma {:induction false} PlanApplies(s: Store, account: int, existing: seq<Metadata>, submitted: seq<Field>, tickets: seq<Ticket>, bound: int)
    returns (next: Store, list: seq<Metadata>)
    requires Ready(s, account, existing, bound) && Growing(bound, tickets) && |FieldPlan(existing, submitted)| <= |tickets|
    ensures Applied(s, account, FieldPlan(existing, submitted), tickets) == Ok(next)
    ensures Achieved(account, [], existing, submitted, next, list)
  {
    assert [] + existing == existing;
    next, list := PlanAchieves(s, account, [], existing, submitted, tickets, bound);
  }

  lemma OnlyList(next: Store, account: int, existing: seq<Metadata>, submitted: seq<Field>, list: seq<Metadata>)
    requires Achieved(account, [], existing, submitted, next, list)
    ensures Listed(list, next.rows, account)
    ensures forall other :: Listed(other, next.rows, account) ==> Renewed(existing, submitted, other)
  {
    assert [] + list == list;
    forall other | Listed(other, next.rows, account) ensures Renewed(existing, submitted, other) {
      forall x ensures x in list <==> x in other {}
      ListedUnique(list, other);
    }
  }

  lemma DeletionsRecorded(s: Store, account: int, existing: seq<Metadata>, submitted: seq<Field>, tickets: seq<Ticket>, bound: int)
    requires Ready(s, account, existing, bound) && Growing(bound, tickets) && |FieldPlan(existing, submitted)| <= |tickets|
    requires Applied(s, account, FieldPlan(existing, submitted), tickets).Ok?
    ensures Recorded(Applied(s, account, FieldPlan(existing, submitted), tickets).value, existing, submitted)
  {
    var next := Applied(s, account, FieldPlan(existing, submitted), tickets).value;
    forall i | |submitted| <= i < |existing| ensures existing[i].id !in next.rows && Fold(METADATA, None, StreamAt(next.streams, existing[i].id)) == Ok(None) {
      DeletionFolds(s, account, existing, submitted, tickets, bound, i);
    }
  }

  /**
   The field diff round trip: applying the plan never fails, and reading the account's fields back in id
   order gives exactly the submitted list. Rows that stay keep their id, every row is still the fold of its
   stream, the streams of deleted rows fold to nothing, and whatever the submitted list does not change,
   in the account or elsewhere, is as before, the streams of fields deleted earlier included.
   */
  lemma {:induction false} FieldDiffRoundTrip(s: Store, account: int, existing: seq<Metadata>, submitted: seq<Field>, tickets: seq<Ticket>, bound: int)
    requires Ready(s, account, existing, bound) && Growing(bound, tickets)
    requires |FieldPlan(existing, submitted)| <= |tickets|
    ensures var r := Applied(s, account, FieldPlan(existing, submitted), tickets);
            && r.Ok? && Agreed(r.value, account)
            && Untouched(s, r.value, existing, submitted, bound) && Recorded(r.value, existing, submitted)
            && (exists list :: Listed(list, r.value.rows, account))
            && (forall list :: Listed(list, r.value.rows, account) ==> Renewed(existing, submitted, list))
  {
    var next, list := PlanApplies(s, account, existing, submitted, tickets, bound);
    OnlyList(next, account, existing, submitted, list);
    PlanLeaves(s, account, existing, submitted, tickets, bound);
    DeletionsRecorded(s, account, existing, submitted, tickets, bound);
  }
}
