/** The profile-field ("metadata") aggregate, which has a deletion event. */
module Metadatas {
  import opened Kernel

  datatype Metadata = Metadata(id: int, accountId: int, fieldLabel: string, content: string, version: int, nanoid: string)

  datatype Event =
    | Created(accountId: int, fieldLabel: string, content: string, nanoid: string)
    | Updated(fieldLabel: string, content: string)
    | Deleted

  type MetadataEnvelope = Envelope<Event>

  function Apply(entity: Option<Metadata>, env: MetadataEnvelope): Result<Option<Metadata>> {
    match env.event
    case Created(accountId, fieldLabel, content, nanoid) =>
      if entity.Some? then Err(Internal)
      else Ok(Some(Metadata(env.id, accountId, fieldLabel, content, env.version, nanoid)))
    case Updated(fieldLabel, content) =>
      if entity.None? then Err(Internal)
      else Ok(Some(entity.value.(fieldLabel := fieldLabel, content := content, version := env.version)))
    case Deleted =>
      if entity.None? then Err(Internal) else Ok(None)
  }

  const METADATA: Applier<Metadata, Event> :=
    Applier(Apply, (m: Metadata) => m.version, (m: Metadata) => false, (e: Event) => e.Deleted?)

  /** The account a creation event names as parent. */
  function ParentOf(e: Event): Option<int> {
    if e.Created? then Some(e.accountId) else None
  }

  lemma MetadataLawful()
    ensures Lawful(METADATA)
  {
  }

  // ---------- what a metadata stream folds to ----------

  predicate IsCreation(e: Event) { e.Created? }

  /** Creations stand at the start or right behind a deletion, and everything else behind a creation or an update. */
  ghost predicate WellFormed(events: seq<MetadataEnvelope>) {
    forall i :: 0 <= i < |events| ==> (events[i].event.Created? <==> Vacant(events[..i]))
  }

  /** Nothing is there: no event, or a deletion last. */
  predicate Vacant(events: seq<MetadataEnvelope>) {
    events == [] || events[|events| - 1].event.Deleted?
  }

  /** Label and content are the last event's, the rest is the last creation's. */
  ghost predicate Decomposes(events: seq<MetadataEnvelope>, m: Metadata) {
    && events != [] && !events[|events| - 1].event.Deleted?
    && m.version == events[|events| - 1].version
    && m.fieldLabel == events[|events| - 1].event.fieldLabel && m.content == events[|events| - 1].event.content
    && exists i :: LastAt(events, IsCreation, i) && m.id == events[i].id && m.accountId == events[i].event.accountId && m.nanoid == events[i].event.nanoid
  }

  lemma DecomposesSnoc(init: seq<MetadataEnvelope>, m: Metadata, env: MetadataEnvelope, next: Metadata)
    requires Decomposes(init, m) && Apply(Some(m), env) == Ok(Some(next))
    ensures Decomposes(init + [env], next)
  {
    var i :| LastAt(init, IsCreation, i) && m.id == init[i].id && m.accountId == init[i].event.accountId && m.nanoid == init[i].event.nanoid;
    LastAtSnoc(init, env, IsCreation, i);
  }

  lemma WellFormedSnoc(init: seq<MetadataEnvelope>, env: MetadataEnvelope)
    ensures WellFormed(init + [env]) <==> WellFormed(init) && (env.event.Created? <==> Vacant(init))
  {
    var all := init + [env];
    assert all[..|init|] == init && all[|init|] == env;
    assert forall i :: 0 <= i < |init| ==> all[..i] == init[..i] && all[i] == init[i];
  }

  /**
   Exactly the well-formed streams replay. They fold to nothing if they are empty or end with a deletion, and
   otherwise to the label and content of the last event and the origin of the last creation.
   */
  lemma {:induction false} MetadataDecomposition(events: seq<MetadataEnvelope>)
    ensures var folded := Fold(METADATA, None, events);
            && (folded.Ok? <==> WellFormed(events))
            && (folded.Ok? ==> (folded.value.None? <==> Vacant(events)))
            && (folded.Ok? && folded.value.Some? ==> Decomposes(events, folded.value.value))
  {
    if events != [] {
      var n := |events| - 1;
      var init, env := events[..n], events[n];
      assert events == init + [env];
      MetadataDecomposition(init);
      WellFormedSnoc(init, env);
      FoldSnoc(METADATA, None, init, env);
      var before, after := Fold(METADATA, None, init), Fold(METADATA, None, events);
      if after.Ok? && after.value.Some? {
        if before.value.None? { assert LastAt(events, IsCreation, n); } else { DecomposesSnoc(init, before.value.value, env, after.value.value); }
      }
    }
  }
}
