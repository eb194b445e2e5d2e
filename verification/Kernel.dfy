/** Shared kernel vocabulary: results, event envelopes, and folding an event stream into an aggregate. */
module Kernel {

  datatype Option<+T> = None | Some(value: T)

  datatype KernelError = Concurrency | Internal | PermissionDenied | NotFound | Rejected | Validation

  datatype Result<+T> = Ok(value: T) | Err(error: KernelError)

  /** A persisted event: the aggregate it belongs to, its payload, and its per-aggregate version. */
  datatype Envelope<+Ev> = Envelope(id: int, event: Ev, version: int)

  /**
   An event-sourced entity: how one event changes it, and which part of the entity is its version.

   `hidden` marks the states a projector cannot read back from the row it wrote (a deactivated
   account); `terminal` marks the events that lead to such a state or delete the entity.
   */
  datatype Applier<!E, !Ev> = Applier(
    apply: (Option<E>, Envelope<Ev>) -> Result<Option<E>>,
    version: E -> int,
    hidden: E -> bool,
    terminal: Ev -> bool)

  /** No row, or a row that the projector cannot read back. */
  predicate Dark<E, Ev>(a: Applier<E, Ev>, x: Option<E>) {
    x.None? || a.hidden(x.value)
  }

  /** Every state of the entity can be read back. */
  ghost predicate AlwaysSeen<E(!new), Ev>(a: Applier<E, Ev>) {
    forall e: E :: !a.hidden(e)
  }

  /**
   What an applier owes the projectors: it stamps the event's version, goes dark only on terminal
   events, does not mix deletion with hiding, and accepts on nothing only what it refuses on something.
   */
  ghost predicate Lawful<E(!new), Ev(!new)>(a: Applier<E, Ev>) {
    forall x: Option<E>, env: Envelope<Ev> {:trigger a.apply(x, env)} :: a.apply(x, env).Ok? ==>
      var y := a.apply(x, env).value;
      && (y.Some? ==> a.version(y.value) == env.version)
      && (a.terminal(env.event) ==> Dark(a, y))
      && (Dark(a, y) ==> a.terminal(env.event) || (x.Some? && a.hidden(x.value)))
      && (y.None? ==> AlwaysSeen(a))
      && (x.Some? ==> a.apply(None, env).Err?)
  }

  /** Applies the events in order and stops at the first one that is refused. */
  function Fold<E, Ev>(a: Applier<E, Ev>, init: Option<E>, events: seq<Envelope<Ev>>): Result<Option<E>>
    decreases |events|
  {
    if events == [] then Ok(init)
    else
      match a.apply(init, events[0])
      case Err(e) => Err(e)
      case Ok(next) => Fold(a, next, events[1..])
  }

  lemma {:induction false} FoldConcat<E, Ev>(a: Applier<E, Ev>, init: Option<E>, xs: seq<Envelope<Ev>>, ys: seq<Envelope<Ev>>)
    ensures Fold(a, init, xs + ys) ==
            match Fold(a, init, xs)
            case Err(e) => Err(e)
            case Ok(mid) => Fold(a, mid, ys)
    decreases |xs|
  {
    if xs == [] {
      assert xs + ys == ys;
    } else {
      assert (xs + ys)[0] == xs[0] && (xs + ys)[1..] == xs[1..] + ys;
      match a.apply(init, xs[0])
      case Err(_) =>
      case Ok(next) => FoldConcat(a, next, xs[1..], ys);
    }
  }

  lemma FoldSnoc<E, Ev>(a: Applier<E, Ev>, init: Option<E>, xs: seq<Envelope<Ev>>, env: Envelope<Ev>)
    ensures Fold(a, init, xs + [env]) ==
            match Fold(a, init, xs)
            case Err(e) => Err(e)
            case Ok(mid) => a.apply(mid, env)
  {
    FoldConcat(a, init, xs, [env]);
    match Fold(a, init, xs)
    case Err(_) =>
    case Ok(mid) =>
      match a.apply(mid, env)
      case Err(_) =>
      case Ok(next) => assert [env][1..] == []; assert Fold(a, next, []) == Ok(next);
  }

  /** An accepted non-empty fold carries the last event's version, and is dark exactly after a terminal event. */
  lemma {:induction false} FoldLast<E(!new), Ev(!new)>(a: Applier<E, Ev>, events: seq<Envelope<Ev>>)
    requires Lawful(a)
    requires events != [] && Fold(a, None, events).Ok?
    requires forall i :: 0 <= i < |events| - 1 ==> !a.terminal(events[i].event)
    ensures var y := Fold(a, None, events).value;
            && (y.Some? ==> a.version(y.value) == events[|events| - 1].version)
            && (Dark(a, y) <==> a.terminal(events[|events| - 1].event))
            && (y.None? ==> AlwaysSeen(a))
  {
    var n := |events| - 1;
    var init := events[..n];
    assert events == init + [events[n]];
    FoldSnoc(a, None, init, events[n]);
    if n > 0 {
      forall i | 0 <= i < |init| ensures !a.terminal(init[i].event) { assert init[i] == events[i]; }
      FoldLast(a, init);
    } else {
      assert init == [];
    }
  }

  /** The aggregate rebuilt from its stream, with the version it was loaded at. */
  datatype Rehydrated<+E> = Rehydrated(aggregate: E, version: int)

  /** Folds a stream strictly: a stream that folds to nothing is corrupt. */
  method FromEvents<E, Ev>(a: Applier<E, Ev>, events: seq<Envelope<Ev>>) returns (r: Result<Option<Rehydrated<E>>>)
    ensures r == Load(a, events)
  {
    if events == [] { return Ok(None); }
    var version := events[|events| - 1].version;
    var aggregate: Option<E> := None;
    for i := 0 to |events|
      invariant Fold(a, None, events[..i]) == Ok(aggregate)
    {
      var applied := a.apply(aggregate, events[i]);
      FoldSnoc(a, None, events[..i], events[i]);
      assert events[..i] + [events[i]] == events[..i + 1];
      if applied.Err? {
        FoldConcat(a, None, events[..i + 1], events[i + 1..]);
        assert events[..i + 1] + events[i + 1..] == events;
        return Err(applied.error);
      }
      aggregate := applied.value;
    }
    assert events[..|events|] == events;
    r := if aggregate.None? then Err(Internal) else Ok(Some(Rehydrated(aggregate.value, version)));
  }

  /** Folds a stream whose deletion is legitimate: a stream that folds to nothing loads as absent. */
  method FromEventsAllowDeletion<E, Ev>(a: Applier<E, Ev>, events: seq<Envelope<Ev>>)
    returns (r: Result<Option<Rehydrated<E>>>)
    ensures r == if events != [] && Fold(a, None, events) == Ok(None) then Ok(None) else Load(a, events)
  {
    if events == [] { return Ok(None); }
    var version := events[|events| - 1].version;
    var aggregate: Option<E> := None;
    for i := 0 to |events|
      invariant Fold(a, None, events[..i]) == Ok(aggregate)
    {
      var applied := a.apply(aggregate, events[i]);
      FoldSnoc(a, None, events[..i], events[i]);
      assert events[..i] + [events[i]] == events[..i + 1];
      if applied.Err? {
        FoldConcat(a, None, events[..i + 1], events[i + 1..]);
        assert events[..i + 1] + events[i + 1..] == events;
        return Err(applied.error);
      }
      aggregate := applied.value;
    }
    assert events[..|events|] == events;
    r := if aggregate.None? then Ok(None) else Ok(Some(Rehydrated(aggregate.value, version)));
  }

  /** What loading a stream means: absent, refused, or the folded aggregate at its last version. */
  function Load<E, Ev>(a: Applier<E, Ev>, events: seq<Envelope<Ev>>): Result<Option<Rehydrated<E>>> {
    if events == [] then Ok(None)
    else
      match Fold(a, None, events)
      case Err(e) => Err(e)
      case Ok(None) => Err(Internal)
      case Ok(Some(x)) => Ok(Some(Rehydrated(x, events[|events| - 1].version)))
  }

  /** A row table is read through its key. */
  function Get<E>(rows: map<int, E>, id: int): Option<E> {
    if id in rows then Some(rows[id]) else None
  }

  /** Writes or removes the row under a key. */
  function Put<E>(rows: map<int, E>, id: int, row: Option<E>): (r: map<int, E>)
    ensures forall k :: Get(r, k) == if k == id then row else Get(rows, k)
  {
    match row
    case None => rows - {id}
    case Some(e) => rows[id := e]
  }

  /** Tables that agree under every key are the same table. */
  lemma SameRows<E>(p: map<int, E>, q: map<int, E>)
    requires forall k :: Get(p, k) == Get(q, k)
    ensures p == q
  {
    forall k ensures k in p <==> k in q { assert Get(p, k) == Get(q, k); }
    forall k | k in p ensures p[k] == q[k] { assert Get(p, k) == Get(q, k); }
  }

  lemma HeadTail<T>(xs: seq<T>)
    requires xs != []
    ensures xs == [xs[0]] + xs[1..]
  {
  }

  lemma Regroup<T>(xs: seq<T>, ys: seq<T>, zs: seq<T>)
    ensures xs + ys + zs == xs + (ys + zs)
  {
  }

  lemma EmptyIffNone(s: set<int>)
    ensures s == {} <==> forall y :: y !in s
  {
    if forall y :: y !in s { assert s == {}; }
  }

  /** A work list: every key is either still to do or done. */
  ghost predicate Partition(keys: set<int>, todo: set<int>, done: set<int>) {
    forall k :: (k in keys <==> k in todo || k in done) && !(k in todo && k in done)
  }

  lemma PartitionStep(keys: set<int>, todo: set<int>, done: set<int>, k: int)
    requires Partition(keys, todo, done) && k in todo
    ensures Partition(keys, todo - {k}, done + {k})
    ensures k in keys && k !in done && |todo - {k}| < |todo|
  {
  }

  lemma PartitionDone(keys: set<int>, done: set<int>)
    requires Partition(keys, {}, done)
    ensures done == keys
  {
    forall k ensures k in done <==> k in keys {}
  }

  /** Some element of a set, in no particular order. */
  method AnyOf(ids: set<int>) returns (x: int)
    requires ids != {}
    ensures x in ids
  {
    EmptyIffNone(ids);
    x :| x in ids;
  }

  // ---------- which event fixed a part of an aggregate ----------

  /** The last event of the stream that satisfies `p` is the one at `i`. */
  ghost predicate LastAt<Ev>(events: seq<Envelope<Ev>>, p: Ev -> bool, i: int) {
    0 <= i < |events| && p(events[i].event) && forall j :: i < j < |events| ==> !p(events[j].event)
  }

  lemma LastAtSnoc<Ev>(init: seq<Envelope<Ev>>, env: Envelope<Ev>, p: Ev -> bool, i: int)
    requires p(env.event) || LastAt(init, p, i)
    ensures LastAt(init + [env], p, if p(env.event) then |init| else i)
    ensures !p(env.event) ==> (init + [env])[i] == init[i]
  {
  }

  /** The last event that satisfies `p` also satisfies `q`. */
  ghost predicate LastIs<Ev>(events: seq<Envelope<Ev>>, p: Ev -> bool, q: Ev -> bool) {
    exists i :: LastAt(events, p, i) && q(events[i].event)
  }

  lemma LastIsAt<Ev>(events: seq<Envelope<Ev>>, p: Ev -> bool, q: Ev -> bool, i: int)
    requires LastAt(events, p, i)
    ensures LastIs(events, p, q) <==> q(events[i].event)
  {
  }
}
