/** The profile aggregate, whose update event carries one action per field. */
module Profiles {
  import opened Kernel

  datatype FieldAction<+T> = Unchanged | Clear | Set(value: T)

  /** The value an action leaves in a field. */
  function Acted<T>(action: FieldAction<T>, current: Option<T>): Option<T> {
    match action
    case Unchanged => current
    case Clear => None
    case Set(v) => Some(v)
  }

  datatype Profile = Profile(
    id: int, accountId: int, displayName: Option<string>, summary: Option<string>,
    icon: Option<int>, banner: Option<int>, version: int, nanoid: string)

  datatype Event =
    | Created(accountId: int, displayName: Option<string>, summary: Option<string>,
              icon: Option<int>, banner: Option<int>, nanoid: string)
    | Updated(displayNameAction: FieldAction<string>, summaryAction: FieldAction<string>,
              iconAction: FieldAction<int>, bannerAction: FieldAction<int>)

  type ProfileEnvelope = Envelope<Event>

  function Apply(entity: Option<Profile>, env: ProfileEnvelope): Result<Option<Profile>> {
    match env.event
    case Created(accountId, displayName, summary, icon, banner, nanoid) =>
      if entity.Some? then Err(Internal)
      else Ok(Some(Profile(env.id, accountId, displayName, summary, icon, banner, env.version, nanoid)))
    case Updated(displayName, summary, icon, banner) =>
      if entity.None? then Err(Internal)
      else
        var p := entity.value;
        Ok(Some(p.(displayName := Acted(displayName, p.displayName), summary := Acted(summary, p.summary),
                   icon := Acted(icon, p.icon), banner := Acted(banner, p.banner), version := env.version)))
  }

  const PROFILE: Applier<Profile, Event> :=
    Applier(Apply, (p: Profile) => p.version, (p: Profile) => false, (e: Event) => false)

  /** The account a creation event names as parent. */
  function ParentOf(e: Event): Option<int> {
    if e.Created? then Some(e.accountId) else None
  }

  lemma ProfileLawful()
    ensures Lawful(PROFILE)
  {
  }

  // ---------- what a profile stream folds to ----------

  predicate SetsName(e: Event) { e.Created? || !e.displayNameAction.Unchanged? }
  predicate SetsSummary(e: Event) { e.Created? || !e.summaryAction.Unchanged? }
  predicate SetsIcon(e: Event) { e.Created? || !e.iconAction.Unchanged? }
  predicate SetsBanner(e: Event) { e.Created? || !e.bannerAction.Unchanged? }

  /** What the first event fixes for good, and what the last event stamps. */
  ghost predicate OriginFixed(events: seq<ProfileEnvelope>, p: Profile) {
    && events != [] && events[0].event.Created?
    && p.id == events[0].id && p.accountId == events[0].event.accountId && p.nanoid == events[0].event.nanoid
    && p.version == events[|events| - 1].version
  }

  ghost predicate NameFixed(events: seq<ProfileEnvelope>, p: Profile) {
    exists i :: LastAt(events, SetsName, i) &&
      p.displayName == match events[i].event
                       case Created(_, name, _, _, _, _) => name
                       case Updated(action, _, _, _) => if action.Set? then Some(action.value) else None
  }

  ghost predicate SummaryFixed(events: seq<ProfileEnvelope>, p: Profile) {
    exists i :: LastAt(events, SetsSummary, i) &&
      p.summary == match events[i].event
                   case Created(_, _, summary, _, _, _) => summary
                   case Updated(_, action, _, _) => if action.Set? then Some(action.value) else None
  }

  ghost predicate IconFixed(events: seq<ProfileEnvelope>, p: Profile) {
    exists i :: LastAt(events, SetsIcon, i) &&
      p.icon == match events[i].event
                case Created(_, _, _, icon, _, _) => icon
                case Updated(_, _, action, _) => if action.Set? then Some(action.value) else None
  }

  ghost predicate BannerFixed(events: seq<ProfileEnvelope>, p: Profile) {
    exists i :: LastAt(events, SetsBanner, i) &&
      p.banner == match events[i].event
                  case Created(_, _, _, _, banner, _) => banner
                  case Updated(_, _, _, action) => if action.Set? then Some(action.value) else None
  }

  /** Which event of an accepted stream determined each part of the profile. */
  ghost predicate Decomposes(events: seq<ProfileEnvelope>, p: Profile) {
    OriginFixed(events, p) && NameFixed(events, p) && SummaryFixed(events, p) && IconFixed(events, p) && BannerFixed(events, p)
  }

  lemma NameSnoc(init: seq<ProfileEnvelope>, p: Profile, env: ProfileEnvelope, next: Profile)
    requires NameFixed(init, p) && Apply(Some(p), env) == Ok(Some(next))
    ensures NameFixed(init + [env], next)
  {
    var i :| LastAt(init, SetsName, i) &&
      p.displayName == match init[i].event
                       case Created(_, name, _, _, _, _) => name
                       case Updated(action, _, _, _) => if action.Set? then Some(action.value) else None;
    LastAtSnoc(init, env, SetsName, i);
  }

  lemma SummarySnoc(init: seq<ProfileEnvelope>, p: Profile, env: ProfileEnvelope, next: Profile)
    requires SummaryFixed(init, p) && Apply(Some(p), env) == Ok(Some(next))
    ensures SummaryFixed(init + [env], next)
  {
    var i :| LastAt(init, SetsSummary, i) &&
      p.summary == match init[i].event
                   case Created(_, _, summary, _, _, _) => summary
                   case Updated(_, action, _, _) => if action.Set? then Some(action.value) else None;
    LastAtSnoc(init, env, SetsSummary, i);
  }

  lemma IconSnoc(init: seq<ProfileEnvelope>, p: Profile, env: ProfileEnvelope, next: Profile)
    requires IconFixed(init, p) && Apply(Some(p), env) == Ok(Some(next))
    ensures IconFixed(init + [env], next)
  {
    var i :| LastAt(init, SetsIcon, i) &&
      p.icon == match init[i].event
                case Created(_, _, _, icon, _, _) => icon
                case Updated(_, _, action, _) => if action.Set? then Some(action.value) else None;
    LastAtSnoc(init, env, SetsIcon, i);
  }

  lemma BannerSnoc(init: seq<ProfileEnvelope>, p: Profile, env: ProfileEnvelope, next: Profile)
    requires BannerFixed(init, p) && Apply(Some(p), env) == Ok(Some(next))
    ensures BannerFixed(init + [env], next)
  {
    var i :| LastAt(init, SetsBanner, i) &&
      p.banner == match init[i].event
                  case Created(_, _, _, _, banner, _) => banner
                  case Updated(_, _, _, action) => if action.Set? then Some(action.value) else None;
    LastAtSnoc(init, env, SetsBanner, i);
  }

  /**
   Exactly the streams that are one creation followed by updates replay. Each of the four parts is then what
   the last event that does not leave it unchanged put there; owner, id and nanoid are the creation's, and the
   version is the last event's.
   */
  lemma {:induction false} ProfileDecomposition(events: seq<ProfileEnvelope>)
    ensures var folded := Fold(PROFILE, None, events);
            && (folded.Ok? <==> forall i :: 0 <= i < |events| ==> (events[i].event.Created? <==> i == 0))
            && (events != [] && folded.Ok? ==> folded.value.Some? && Decomposes(events, folded.value.value))
  {
    if events != [] {
      var n := |events| - 1;
      var init, env := events[..n], events[n];
      assert events == init + [env];
      ProfileDecomposition(init);
      FoldSnoc(PROFILE, None, init, env);
      if Fold(PROFILE, None, events).Ok? {
        if n == 0 {
          assert LastAt(events, SetsName, 0) && LastAt(events, SetsSummary, 0) && LastAt(events, SetsIcon, 0) && LastAt(events, SetsBanner, 0);
        } else {
          var p, next := Fold(PROFILE, None, init).value.value, Fold(PROFILE, None, events).value.value;
          NameSnoc(init, p, env, next);
          SummarySnoc(init, p, env, next);
          IconSnoc(init, p, env, next);
          BannerSnoc(init, p, env, next);
        }
      }
    }
  }
}
