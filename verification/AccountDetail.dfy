/** The account-detail update, whose response is built without re-reading, and the read that composes details. */
module AccountDetail {
  import opened Kernel
  import opened EventLog
  import opened FieldDiff
  import Accounts
  import Profiles
  import Metadatas
  import AccountCommands
  import AccountProjector

  type Account = Accounts.Account
  type Profile = Profiles.Profile
  type Row = Metadatas.Metadata

  datatype Image = Image(id: int, url: string)

  function FindByUrl(images: seq<Image>, url: string): Option<int> {
    if images == [] then None
    else if images[0].url == url then Some(images[0].id)
    else FindByUrl(images[1..], url)
  }

  function UrlOf(images: seq<Image>, id: Option<int>): Option<string> {
    if id.None? || images == [] then None
    else if images[0].id == id.value then Some(images[0].url)
    else UrlOf(images[1..], id)
  }

  /** The image table has unique ids. */
  ghost predicate DistinctImages(images: seq<Image>) {
    forall i, j :: 0 <= i < j < |images| ==> images[i].id != images[j].id
  }

  lemma {:induction false} FoundIsListed(images: seq<Image>, url: string)
    requires FindByUrl(images, url).Some?
    ensures exists i :: 0 <= i < |images| && images[i] == Image(FindByUrl(images, url).value, url)
  {
    if images[0].url == url {
      assert images[0] == Image(FindByUrl(images, url).value, url);
    } else {
      FoundIsListed(images[1..], url);
      var i :| 0 <= i < |images[1..]| && images[1..][i] == Image(FindByUrl(images[1..], url).value, url);
      assert images[i + 1] == images[1..][i];
    }
  }

  /** The image found for a submitted URL shows that URL. */
  lemma {:induction false} FoundShows(images: seq<Image>, url: string)
    requires DistinctImages(images) && FindByUrl(images, url).Some?
    ensures UrlOf(images, FindByUrl(images, url)) == Some(url)
  {
    if images[0].url != url {
      FoundIsListed(images[1..], url);
      FoundShows(images[1..], url);
    }
  }

  /** What the transaction reads and writes. Profiles are kept by account, which is unique. */
  /** A URL resolves exactly if some image has it. */
  lemma {:induction false} FoundExactly(images: seq<Image>, url: string)
    ensures FindByUrl(images, url).Some? <==> exists i :: 0 <= i < |images| && images[i].url == url
  {
    if images != [] && images[0].url != url {
      FoundExactly(images[1..], url);
      assert forall i :: 0 < i < |images| ==> images[i] == images[1..][i - 1];
      if i :| 0 <= i < |images| && images[i].url == url { assert images[1..][i - 1].url == url; }
      if i :| 0 <= i < |images[1..]| && images[1..][i].url == url { assert images[i + 1].url == url; }
    }
  }

  /** An image id shows a URL exactly if the image with that id has it; no id shows none. */
  lemma {:induction false} ShowsExactly(images: seq<Image>, id: Option<int>, url: string)
    requires DistinctImages(images)
    ensures UrlOf(images, id) == Some(url) <==> id.Some? && exists i :: 0 <= i < |images| && images[i] == Image(id.value, url)
  {
    if id.Some? && images != [] {
      var rest := images[1..];
      ShowsExactly(rest, id, url);
      assert forall i :: 0 < i < |images| ==> images[i] == rest[i - 1];
      if i :| 0 <= i < |images| && images[i] == Image(id.value, url) { if i > 0 { assert rest[i - 1] == Image(id.value, url); } }
      if i :| 0 <= i < |rest| && rest[i] == Image(id.value, url) { assert images[i + 1] == Image(id.value, url); }
    }
  }

  datatype Tables = Tables(
    accountStreams: map<int, seq<Accounts.AccountEnvelope>>, accounts: map<int, Account>,
    profileStreams: map<int, seq<Profiles.ProfileEnvelope>>, profiles: map<int, Profile>,
    fields: Store, images: seq<Image>)

  function AccountStream(t: Tables, a: int): seq<Accounts.AccountEnvelope> {
    if a in t.accountStreams then t.accountStreams[a] else []
  }

  function ProfileStream(t: Tables, p: int): seq<Profiles.ProfileEnvelope> {
    if p in t.profileStreams then t.profileStreams[p] else []
  }

  /** The update request. `fields` is absent when the fields are to stay as they are. */
  datatype Change = Change(
    bot: Profiles.FieldAction<bool>, displayName: Profiles.FieldAction<string>, summary: Profiles.FieldAction<string>,
    iconUrl: Profiles.FieldAction<string>, bannerUrl: Profiles.FieldAction<string>, fields: Option<seq<Field>>)

  /** Versions and ids handed out during the update. */
  datatype Numbers = Numbers(botVersion: int, profileVersion: int, tickets: seq<Ticket>)

  datatype Detail = Detail(
    nanoid: string, name: string, displayName: Option<string>, summary: Option<string>, iconUrl: Option<string>,
    bannerUrl: Option<string>, isBot: bool, fields: seq<Field>, createdAt: int, moderation: Accounts.Status)

  function DetailOf(acc: Account, displayName: Option<string>, summary: Option<string>, iconUrl: Option<string>, bannerUrl: Option<string>, fields: seq<Field>): Detail {
    Detail(acc.nanoid, acc.name, displayName, summary, iconUrl, bannerUrl, acc.isBot, fields, acc.createdAt, acc.status)
  }

  /** The filtered account query: no deactivated, banned or currently suspended rows. The row comes back as stored. */
  function Filtered(row: Option<Account>, now: int): Option<Account> {
    var seen := AccountProjector.Unfiltered(row, now);
    if seen.Some? && seen.value.status.Active? then row else None
  }

  // ---------- fields in id order ----------

  predicate Before(x: Row, y: Row) {
    x.accountId < y.accountId || (x.accountId == y.accountId && x.id < y.id)
  }

  function InsertField(x: Row, xs: seq<Row>): seq<Row> {
    if xs == [] || !Before(xs[0], x) then [x] + xs else [xs[0]] + InsertField(x, xs[1..])
  }

  /** Sorted by account and id; for the rows of one account, sorted by id. */
  function SortFields(xs: seq<Row>): seq<Row> {
    if xs == [] then [] else InsertField(xs[0], SortFields(xs[1..]))
  }

  ghost predicate Ascending(xs: seq<Row>) {
    forall i, j :: 0 <= i < j < |xs| ==> Before(xs[i], xs[j])
  }

  ghost predicate DistinctIds(xs: seq<Row>) {
    forall i, j :: 0 <= i < j < |xs| ==> xs[i].id != xs[j].id
  }

  lemma {:induction false} InsertKeepsMembers(x: Row, xs: seq<Row>)
    ensures forall y :: y in InsertField(x, xs) <==> y == x || y in xs
  {
    if xs != [] && Before(xs[0], x) {
      InsertKeepsMembers(x, xs[1..]);
      HeadTail(xs);
    }
  }

  lemma {:induction false} InsertAscends(x: Row, xs: seq<Row>)
    requires Ascending(xs) && forall y :: y in xs ==> y.id != x.id
    ensures Ascending(InsertField(x, xs))
  {
    if xs != [] {
      if Before(xs[0], x) {
        assert forall y :: y in xs[1..] ==> y in xs;
        InsertAscends(x, xs[1..]);
        InsertKeepsMembers(x, xs[1..]);
        var rest := InsertField(x, xs[1..]);
        forall i | 0 <= i < |rest| ensures Before(xs[0], rest[i]) {
          assert rest[i] in rest;
          if rest[i] != x {
            var k :| 0 <= k < |xs[1..]| && xs[1..][k] == rest[i];
            assert xs[k + 1] == rest[i];
          }
        }
      } else {
        assert xs[0] in xs;
      }
    }
  }

  /** Sorting rows with distinct ids lists the same rows in ascending order. */
  lemma {:induction false} SortAscends(xs: seq<Row>)
    requires DistinctIds(xs)
    ensures Ascending(SortFields(xs)) && forall y :: y in SortFields(xs) <==> y in xs
  {
    if xs != [] {
      SortAscends(xs[1..]);
      InsertKeepsMembers(xs[0], SortFields(xs[1..]));
      HeadTail(xs);
      forall y | y in SortFields(xs[1..]) ensures y.id != xs[0].id {
        assert y in xs[1..];
        var k :| 0 <= k < |xs[1..]| && xs[1..][k] == y;
        assert xs[k + 1] == y;
      }
      InsertAscends(xs[0], SortFields(xs[1..]));
    }
  }

  /** A query for the account's rows returned exactly these, in some order. */
  ghost predicate Fetched(fetched: seq<Row>, rows: map<int, Row>, account: int) {
    && DistinctIds(fetched)
    && (forall x :: x in fetched ==> x.id in rows && rows[x.id] == x && x.accountId == account)
    && (forall m :: m in rows && rows[m].accountId == account ==> rows[m].id == m && rows[m] in fetched)
  }

  lemma FetchedLists(fetched: seq<Row>, rows: map<int, Row>, account: int)
    requires Fetched(fetched, rows, account)
    ensures Listed(SortFields(fetched), rows, account)
  {
    SortAscends(fetched);
    var list := SortFields(fetched);
    forall i | 0 <= i < |list| ensures list[i] in fetched { assert list[i] in list; }
  }

  // ---------- the update ----------

  function Resolve(images: seq<Image>, action: Profiles.FieldAction<string>): Result<Profiles.FieldAction<int>> {
    match action
    case Unchanged => Ok(Profiles.Unchanged)
    case Clear => Ok(Profiles.Clear)
    case Set(url) => if FindByUrl(images, url).None? then Err(NotFound) else Ok(Profiles.Set(FindByUrl(images, url).value))
  }

  /** The bot flag, saved and written only if it changes. */
  function WithBot(t: Tables, a: int, action: Profiles.FieldAction<bool>, version: int): Result<Tables> {
    match Load(Accounts.ACCOUNT, AccountStream(t, a))
    case Err(e) => Err(e)
    case Ok(None) => Err(NotFound)
    case Ok(Some(loaded)) =>
      var bot := AccountCommands.Chosen(action, loaded.aggregate.isBot);
      var env := Envelope(a, Accounts.Event.Updated(bot), version);
      if bot == loaded.aggregate.isBot then Ok(t)
      else
        match Accounts.Apply(Some(loaded.aggregate), env)
        case Err(e) => Err(e)
        case Ok(None) => Err(Internal)
        case Ok(Some(acc)) =>
          if a !in t.accounts then Err(NotFound)
          else Ok(t.(accountStreams := t.accountStreams[a := Insert(env, AccountStream(t, a))],
                     accounts := t.accounts[a := t.accounts[a].(name := acc.name, isBot := acc.isBot, version := acc.version,
                                                                deleted := acc.deleted, status := acc.status)]))
  }

  predicate TouchesProfile(change: Change) {
    !change.displayName.Unchanged? || !change.summary.Unchanged? || !change.iconUrl.Unchanged? || !change.bannerUrl.Unchanged?
  }

  /** The profile event is saved without an expected version; the row is rewritten from the reloaded stream. */
  function WithProfile(t: Tables, a: int, change: Change, icon: Profiles.FieldAction<int>, banner: Profiles.FieldAction<int>, version: int): Result<Tables>
    requires a in t.profiles
  {
    var row := t.profiles[a];
    var stream := Insert(Envelope(row.id, Profiles.Event.Updated(change.displayName, change.summary, icon, banner), version), ProfileStream(t, row.id));
    if !TouchesProfile(change) then Ok(t)
    else
      match Load(Profiles.PROFILE, stream)
      case Err(e) => Err(e)
      case Ok(None) => Err(NotFound)
      case Ok(Some(loaded)) =>
        var p := loaded.aggregate;
        Ok(t.(profileStreams := t.profileStreams[row.id := stream],
              profiles := t.profiles[a := row.(displayName := p.displayName, summary := p.summary, icon := p.icon, banner := p.banner, version := p.version)]))
  }

  function WithFields(t: Tables, a: int, existing: seq<Row>, submitted: Option<seq<Field>>, tickets: seq<Ticket>): Result<Tables>
    requires submitted.Some? ==> |FieldPlan(existing, submitted.value)| <= |tickets|
  {
    if submitted.None? then Ok(t)
    else
      match Applied(t.fields, a, FieldPlan(existing, submitted.value), tickets)
      case Err(e) => Err(e)
      case Ok(next) => Ok(t.(fields := next))
  }

  /** The image an action leaves, judged from the request and the profile row read before the update. */
  function ShownImage(images: seq<Image>, action: Profiles.FieldAction<string>, current: Option<int>): Option<int> {
    match action
    case Unchanged => current
    case Clear => None
    case Set(url) => FindByUrl(images, url)
  }

  /** The response: the account re-read, everything else from the request and the rows read before. */
  function Response(acc: Account, images: seq<Image>, profile: Profile, change: Change, existing: seq<Row>): Detail {
    DetailOf(acc, Profiles.Acted(change.displayName, profile.displayName), Profiles.Acted(change.summary, profile.summary),
             UrlOf(images, ShownImage(images, change.iconUrl, profile.icon)),
             UrlOf(images, ShownImage(images, change.bannerUrl, profile.banner)),
             if change.fields.Some? then change.fields.value else ShownAll(existing))
  }

  datatype Outcome = Outcome(tables: Tables, detail: Detail, mediaChanged: bool)

  /** Enough tickets for the field operations. */
  predicate Supplied(change: Change, fetched: seq<Row>, numbers: Numbers) {
    change.fields.Some? ==> |FieldPlan(SortFields(fetched), change.fields.value)| <= |numbers.tickets|
  }

  /** `fetched` is what the metadata query of the transaction returned. */
  function Updated(t: Tables, a: int, change: Change, fetched: seq<Row>, numbers: Numbers, now: int): Result<Outcome>
    requires Supplied(change, fetched, numbers)
  {
    var projection := AccountProjector.Unfiltered(Get(t.accounts, a), now);
    if projection.None? then Err(NotFound)
    else if !projection.value.status.Active? then Err(Rejected)
    else
      match WithBot(t, a, change.bot, numbers.botVersion)
      case Err(e) => Err(e)
      case Ok(t1) =>
        if a !in t1.profiles then Err(NotFound)
        else
          var profile := t1.profiles[a];
          match (Resolve(t1.images, change.iconUrl), Resolve(t1.images, change.bannerUrl))
          case (Err(e), _) => Err(e)
          case (_, Err(e)) => Err(e)
          case (Ok(icon), Ok(banner)) =>
            match WithProfile(t1, a, change, icon, banner, numbers.profileVersion)
            case Err(e) => Err(e)
            case Ok(t2) =>
              match WithFields(t2, a, SortFields(fetched), change.fields, numbers.tickets)
              case Err(e) => Err(e)
              case Ok(t3) =>
                var acc := Filtered(Get(t3.accounts, a), now);
                if acc.None? then Err(NotFound)
                else
                  var media := Profiles.Acted(icon, profile.icon) != profile.icon || Profiles.Acted(banner, profile.banner) != profile.banner;
                  Ok(Outcome(t3, Response(acc.value, t3.images, profile, change, SortFields(fetched)), media))
  }

  /** The detail of one account as a later read composes it. */
  function Composed(t: Tables, acc: Account, fetched: seq<Row>): Result<Detail> {
    if acc.id !in t.profiles then Err(NotFound)
    else
      var p := t.profiles[acc.id];
      Ok(DetailOf(acc, p.displayName, p.summary, UrlOf(t.images, p.icon), UrlOf(t.images, p.banner), ShownAll(SortFields(fetched))))
  }

  // ---------- read-after-write ----------

  /** The stream of the account's profile folds to `folded`, and its versions are below a bound. */
  ghost predicate ProfileFolds(t: Tables, a: int, folded: Profile, bound: int)
    requires a in t.profiles
  {
    var stream := ProfileStream(t, t.profiles[a].id);
    Fold(Profiles.PROFILE, None, stream) == Ok(Some(folded)) && forall i :: 0 <= i < |stream| ==> stream[i].version < bound
  }

  /** The account's profile row is what its stream folds to. */
  ghost predicate ProfileAgreed(t: Tables, a: int, bound: int) {
    a in t.profiles ==> ProfileFolds(t, a, t.profiles[a], bound)
  }

  function ActedOn(p: Profile, change: Change, icon: Profiles.FieldAction<int>, banner: Profiles.FieldAction<int>, version: int): Profile {
    p.(displayName := Profiles.Acted(change.displayName, p.displayName), summary := Profiles.Acted(change.summary, p.summary),
       icon := Profiles.Acted(icon, p.icon), banner := Profiles.Acted(banner, p.banner), version := version)
  }

  /** A touched profile row gets the four parts of its stream's fold with the actions applied, whatever it held before. */
  lemma ProfileRewritten(t: Tables, a: int, change: Change, icon: Profiles.FieldAction<int>, banner: Profiles.FieldAction<int>, version: int, folded: Profile)
    requires a in t.profiles && ProfileFolds(t, a, folded, version) && TouchesProfile(change)
    ensures var r := WithProfile(t, a, change, icon, banner, version);
            var acted := ActedOn(folded, change, icon, banner, version);
            && r.Ok? && r.value == t.(profileStreams := r.value.profileStreams, profiles := r.value.profiles)
            && a in r.value.profiles && ProfileFolds(r.value, a, acted, version + 1)
            && r.value.profiles[a] == t.profiles[a].(displayName := acted.displayName, summary := acted.summary, icon := acted.icon, banner := acted.banner, version := version)
  {
    var row := t.profiles[a];
    var env := Envelope(row.id, Profiles.Event.Updated(change.displayName, change.summary, icon, banner), version);
    InsertLast(env, ProfileStream(t, row.id));
    FoldSnoc(Profiles.PROFILE, None, ProfileStream(t, row.id), env);
    assert Profiles.PROFILE.apply(Some(folded), env) == Profiles.Apply(Some(folded), env);
  }

  /** An updated profile row is the old row with the actions applied, and still the fold of its stream. */
  lemma ProfileMoves(t: Tables, a: int, change: Change, icon: Profiles.FieldAction<int>, banner: Profiles.FieldAction<int>, version: int)
    requires a in t.profiles && ProfileAgreed(t, a, version)
    requires change.iconUrl.Unchanged? <==> icon.Unchanged?
    requires change.bannerUrl.Unchanged? <==> banner.Unchanged?
    ensures var r := WithProfile(t, a, change, icon, banner, version);
            && r.Ok? && r.value == t.(profileStreams := r.value.profileStreams, profiles := r.value.profiles)
            && a in r.value.profiles && ProfileAgreed(r.value, a, version + 1)
            && r.value.profiles[a].displayName == Profiles.Acted(change.displayName, t.profiles[a].displayName)
            && r.value.profiles[a].summary == Profiles.Acted(change.summary, t.profiles[a].summary)
            && r.value.profiles[a].icon == Profiles.Acted(icon, t.profiles[a].icon)
            && r.value.profiles[a].banner == Profiles.Acted(banner, t.profiles[a].banner)
  {
    if TouchesProfile(change) {
      ProfileRewritten(t, a, change, icon, banner, version, t.profiles[a]);
    }
  }

  lemma ResolveKeepsKind(images: seq<Image>, action: Profiles.FieldAction<string>)
    requires Resolve(images, action).Ok?
    ensures Resolve(images, action).value.Unchanged? <==> action.Unchanged?
    ensures forall current :: Profiles.Acted(Resolve(images, action).value, current) == ShownImage(images, action, current)
  {
  }

  lemma BotMoves(t: Tables, a: int, action: Profiles.FieldAction<bool>, version: int)
    requires WithBot(t, a, action, version).Ok?
    ensures var next := WithBot(t, a, action, version).value;
            next == t.(accountStreams := next.accountStreams, accounts := next.accounts)
  {
  }

  /** The account's row is what its stream folds to, and its versions are below a bound. */
  ghost predicate AccountAgreed(t: Tables, a: int, bound: int) {
    && a in t.accounts && Fold(Accounts.ACCOUNT, None, AccountStream(t, a)) == Ok(Some(t.accounts[a]))
    && forall i :: 0 <= i < |AccountStream(t, a)| ==> AccountStream(t, a)[i].version < bound
  }

  /** The flag that a request leaves: the submitted one, false for a cleared one, and the old one if unchanged. */
  ghost predicate FlagAfter(action: Profiles.FieldAction<bool>, before: bool, after: bool) {
    && (action.Set? ==> after == action.value)
    && (action.Clear? ==> !after)
    && (action.Unchanged? ==> after == before)
  }

  /**
   The bot flag of an account whose row agrees with its stream: the row gets the flag that the request leaves
   and nothing else but a version, it is the fold of the new stream, an event is saved exactly if the flag
   changes, and no other account is touched.
   */
  lemma BotWritten(t: Tables, a: int, action: Profiles.FieldAction<bool>, version: int)
    requires AccountAgreed(t, a, version)
    ensures var r := WithBot(t, a, action, version);
            && r.Ok? && AccountAgreed(r.value, a, version + 1)
            && var was, now := t.accounts[a], r.value.accounts[a];
               && FlagAfter(action, was.isBot, now.isBot)
               && now == was.(isBot := now.isBot, version := now.version)
               && AccountStream(r.value, a) ==
                  (if now.isBot == was.isBot then AccountStream(t, a) else AccountStream(t, a) + [Envelope(a, Accounts.Event.Updated(now.isBot), version)])
    ensures var r := WithBot(t, a, action, version);
            r.Ok? && forall b :: b != a ==> AccountStream(r.value, b) == AccountStream(t, b) && Get(r.value.accounts, b) == Get(t.accounts, b)
  {
    var stream, row := AccountStream(t, a), t.accounts[a];
    assert stream != [];
    assert Load(Accounts.ACCOUNT, stream).Ok? && Load(Accounts.ACCOUNT, stream).value.value.aggregate == row;
    var env := Envelope(a, Accounts.Event.Updated(AccountCommands.Chosen(action, row.isBot)), version);
    InsertLast(env, stream);
    FoldSnoc(Accounts.ACCOUNT, None, stream, env);
    assert Accounts.ACCOUNT.apply(Some(row), env) == Accounts.Apply(Some(row), env);
  }

  /** Reading the fields back shows what the response showed. */
  lemma FieldsShow(t: Tables, a: int, fetched: seq<Row>, submitted: Option<seq<Field>>, tickets: seq<Ticket>, bound: int, later: seq<Row>)
    requires Fetched(fetched, t.fields.rows, a) && Agreed(t.fields, a) && Under(t.fields, bound) && Growing(bound, tickets)
    requires submitted.Some? ==> |FieldPlan(SortFields(fetched), submitted.value)| <= |tickets|
    requires var r := WithFields(t, a, SortFields(fetched), submitted, tickets); r.Ok? && Fetched(later, r.value.fields.rows, a)
    ensures ShownAll(SortFields(later)) == if submitted.Some? then submitted.value else ShownAll(SortFields(fetched))
  {
    var next := WithFields(t, a, SortFields(fetched), submitted, tickets).value;
    FetchedLists(fetched, t.fields.rows, a);
    FetchedLists(later, next.fields.rows, a);
    if submitted.Some? {
      FieldDiffRoundTrip(t.fields, a, SortFields(fetched), submitted.value, tickets, bound);
    } else {
      SameListed(SortFields(fetched), SortFields(later), t.fields.rows, a);
    }
  }

  lemma SameListed(p: seq<Row>, q: seq<Row>, rows: map<int, Row>, a: int)
    requires Listed(p, rows, a) && Listed(q, rows, a)
    ensures p == q
  {
    forall x ensures x in p <==> x in q {}
    ListedUnique(p, q);
  }

  /** The query returned the account's fields, whose rows agree with their streams, and fresh numbers are above those in use. */
  ghost predicate FieldsConsistent(t: Tables, a: int, fetched: seq<Row>, numbers: Numbers, bound: int) {
    Fetched(fetched, t.fields.rows, a) && Agreed(t.fields, a) && Under(t.fields, bound) && Growing(bound, numbers.tickets)
  }

  /** A successful update, and the account and fields that a later read with `account` as its account query finds. */
  ghost predicate UpdatedAndRead(t: Tables, a: int, change: Change, fetched: seq<Row>, numbers: Numbers, now: int, account: Option<Account>, later: seq<Row>)
    requires Supplied(change, fetched, numbers)
  {
    var r := Updated(t, a, change, fetched, numbers, now);
    r.Ok? && account.Some? && account.value.id == a && Fetched(later, r.value.tables.fields.rows, a)
  }

  /** What a successful update did, seen from its response and the rows a later read finds. */
  lemma UpdatedParts(t: Tables, a: int, change: Change, fetched: seq<Row>, numbers: Numbers, now: int, bound: int, account: Option<Account>, later: seq<Row>)
    returns (t1: Tables, icon: Profiles.FieldAction<int>, banner: Profiles.FieldAction<int>)
    requires Supplied(change, fetched, numbers) && FieldsConsistent(t, a, fetched, numbers, bound)
    requires UpdatedAndRead(t, a, change, fetched, numbers, now, account, later)
    ensures t1 == t.(accountStreams := t1.accountStreams, accounts := t1.accounts) && WithBot(t, a, change.bot, numbers.botVersion) == Ok(t1)
    ensures a in t.profiles && WithProfile(t1, a, change, icon, banner, numbers.profileVersion).Ok?
    ensures change.iconUrl.Unchanged? <==> icon.Unchanged?
    ensures change.bannerUrl.Unchanged? <==> banner.Unchanged?
    ensures forall current :: Profiles.Acted(icon, current) == ShownImage(t.images, change.iconUrl, current)
    ensures forall current :: Profiles.Acted(banner, current) == ShownImage(t.images, change.bannerUrl, current)
    ensures var out := Updated(t, a, change, fetched, numbers, now).value;
            var t2 := WithProfile(t1, a, change, icon, banner, numbers.profileVersion).value;
            && out.tables == t2.(fields := out.tables.fields)
            && out.mediaChanged == (Profiles.Acted(icon, t.profiles[a].icon) != t.profiles[a].icon || Profiles.Acted(banner, t.profiles[a].banner) != t.profiles[a].banner)
            && Filtered(Get(t1.accounts, a), now).Some?
            && out.detail == Response(Filtered(Get(t1.accounts, a), now).value, t.images, t.profiles[a], change, SortFields(fetched))
            && ShownAll(SortFields(later)) == out.detail.fields
  {
    BotMoves(t, a, change.bot, numbers.botVersion);
    t1 := WithBot(t, a, change.bot, numbers.botVersion).value;
    icon, banner := Resolve(t1.images, change.iconUrl).value, Resolve(t1.images, change.bannerUrl).value;
    ResolveKeepsKind(t1.images, change.iconUrl);
    ResolveKeepsKind(t1.images, change.bannerUrl);
    var t2 := WithProfile(t1, a, change, icon, banner, numbers.profileVersion).value;
    FieldsShow(t2, a, fetched, change.fields, numbers.tickets, bound, later);
  }

  /**
   Read-after-write: for every combination of field actions, the response of a successful update is what
   composing the account's details from the committed tables gives, at any time at which the account is
   found, and the media flag tells whether the stored icon or banner changed.
   */
  lemma ReadAfterWrite(t: Tables, a: int, change: Change, fetched: seq<Row>, numbers: Numbers, now: int, bound: int, at: int, acc: Account, later: seq<Row>)
    requires Supplied(change, fetched, numbers) && FieldsConsistent(t, a, fetched, numbers, bound) && ProfileAgreed(t, a, numbers.profileVersion)
    requires UpdatedAndRead(t, a, change, fetched, numbers, now, Some(acc), later)
    requires Filtered(Get(Updated(t, a, change, fetched, numbers, now).value.tables.accounts, a), at) == Some(acc)
    ensures var out := Updated(t, a, change, fetched, numbers, now).value;
            && Composed(out.tables, acc, later) == Ok(out.detail)
            && a in t.profiles && a in out.tables.profiles
            && (out.mediaChanged <==> out.tables.profiles[a].icon != t.profiles[a].icon || out.tables.profiles[a].banner != t.profiles[a].banner)
  {
    var t1, icon, banner := UpdatedParts(t, a, change, fetched, numbers, now, bound, Some(acc), later);
    assert ProfileStream(t1, t.profiles[a].id) == ProfileStream(t, t.profiles[a].id);
    ProfileMoves(t1, a, change, icon, banner, numbers.profileVersion);
  }

  /** The status in the account's row is that of its stream. */
  ghost predicate StatusAgreed(t: Tables, a: int) {
    var loaded := Load(Accounts.ACCOUNT, AccountStream(t, a));
    a in t.accounts && loaded.Ok? && loaded.value.Some? ==> loaded.value.value.aggregate.status == t.accounts[a].status
  }

  /**
   The owner's listing shows the account through the unfiltered query. At any later time it shows the
   response of a successful update with the moderation status replaced by active, so the two agree exactly
   when the row that was updated carried no suspension; one that is still there at that point has lapsed.
   */
  lemma ListingAgrees(t: Tables, a: int, change: Change, fetched: seq<Row>, numbers: Numbers, now: int, bound: int, at: int, listed: Account, later: seq<Row>)
    requires Supplied(change, fetched, numbers) && FieldsConsistent(t, a, fetched, numbers, bound) && ProfileAgreed(t, a, numbers.profileVersion)
    requires UpdatedAndRead(t, a, change, fetched, numbers, now, Some(listed), later) && StatusAgreed(t, a) && at >= now
    requires AccountProjector.Unfiltered(Get(Updated(t, a, change, fetched, numbers, now).value.tables.accounts, a), at) == Some(listed)
    ensures var out := Updated(t, a, change, fetched, numbers, now).value;
            && Composed(out.tables, listed, later) == Ok(out.detail.(moderation := Accounts.Active))
            && a in t.accounts && (Composed(out.tables, listed, later) == Ok(out.detail) <==> !t.accounts[a].status.Suspended?)
  {
    UpdatedAccounts(t, a, change, fetched, numbers, now);
    var out := Updated(t, a, change, fetched, numbers, now).value;
    var acc := out.tables.accounts[a];
    EditableIsRead(Get(out.tables.accounts, a), now);
    ReadAfterWrite(t, a, change, fetched, numbers, now, bound, now, acc, later);
    BotKeepsStatus(t, a, change.bot, numbers.botVersion);
    assert listed == acc.(status := Accounts.Active);
  }

  lemma BotKeepsStatus(t: Tables, a: int, action: Profiles.FieldAction<bool>, version: int)
    requires StatusAgreed(t, a) && WithBot(t, a, action, version).Ok? && a in WithBot(t, a, action, version).value.accounts
    ensures a in t.accounts && WithBot(t, a, action, version).value.accounts[a].status == t.accounts[a].status
  {
  }

  /** Every part that the request leaves unchanged shows the same in both profiles. */
  predicate SameUntouched(images: seq<Image>, change: Change, row: Profile, folded: Profile) {
    && (change.displayName.Unchanged? ==> row.displayName == folded.displayName)
    && (change.summary.Unchanged? ==> row.summary == folded.summary)
    && (change.iconUrl.Unchanged? ==> UrlOf(images, row.icon) == UrlOf(images, folded.icon))
    && (change.bannerUrl.Unchanged? ==> UrlOf(images, row.banner) == UrlOf(images, folded.banner))
  }

  /**
   If the profile row lags behind its stream, the response still is what a later read composes exactly when
   the request touches no part of the profile, or every part it leaves unchanged shows the same in the row
   and in the stream's fold.
   */
  lemma LaggingProfile(t: Tables, a: int, change: Change, fetched: seq<Row>, numbers: Numbers, now: int, bound: int, at: int, acc: Account, later: seq<Row>, folded: Profile)
    requires Supplied(change, fetched, numbers) && FieldsConsistent(t, a, fetched, numbers, bound)
    requires a in t.profiles && ProfileFolds(t, a, folded, numbers.profileVersion)
    requires UpdatedAndRead(t, a, change, fetched, numbers, now, Some(acc), later)
    requires Filtered(Get(Updated(t, a, change, fetched, numbers, now).value.tables.accounts, a), at) == Some(acc)
    ensures var out := Updated(t, a, change, fetched, numbers, now).value;
            Composed(out.tables, acc, later) == Ok(out.detail) <==> (TouchesProfile(change) ==> SameUntouched(t.images, change, t.profiles[a], folded))
  {
    var t1, icon, banner := UpdatedParts(t, a, change, fetched, numbers, now, bound, Some(acc), later);
    assert ProfileStream(t1, t.profiles[a].id) == ProfileStream(t, t.profiles[a].id);
    if TouchesProfile(change) { ProfileRewritten(t1, a, change, icon, banner, numbers.profileVersion, folded); }
  }

  // ---------- the update, step by step ----------

  class DetailStore {
    var accountStreams: map<int, seq<Accounts.AccountEnvelope>>
    var accounts: map<int, Account>
    var profileStreams: map<int, seq<Profiles.ProfileEnvelope>>
    var profiles: map<int, Profile>
    var images: seq<Image>
    const fieldTables: FieldTables

    constructor (tables: FieldTables)
      ensures fieldTables == tables
    {
      fieldTables := tables;
    }

    function Contents(): Tables
      reads this, fieldTables
    {
      Tables(accountStreams, accounts, profileStreams, profiles, fieldTables.Contents(), images)
    }

    method Rollback(saved: Tables)
      modifies this, fieldTables
      ensures Contents() == saved
    {
      accountStreams, accounts, profileStreams, profiles, images :=
        saved.accountStreams, saved.accounts, saved.profileStreams, saved.profiles, saved.images;
      fieldTables.streams, fieldTables.rows := saved.fields.streams, saved.fields.rows;
    }

    method UpdateBot(a: int, action: Profiles.FieldAction<bool>, version: int) returns (r: Result<bool>)
      modifies this
      ensures var next := WithBot(old(Contents()), a, action, version);
              if r.Ok? then next == Ok(Contents()) else next == Err(r.error)
    {
      var stream := if a in accountStreams then accountStreams[a] else [];
      var loaded := FromEvents(Accounts.ACCOUNT, stream);
      if loaded.Err? { return Err(loaded.error); }
      if loaded.value.None? { return Err(NotFound); }
      var current := loaded.value.value.aggregate;
      var bot := AccountCommands.Chosen(action, current.isBot);
      if bot != current.isBot {
        var env := Envelope(a, Accounts.Event.Updated(bot), version);
        var applied := Accounts.Apply(Some(current), env);
        if applied.Err? { return Err(applied.error); }
        if applied.value.None? { return Err(Internal); }
        if a !in accounts { return Err(NotFound); }
        var acc := applied.value.value;
        accountStreams := accountStreams[a := Insert(env, stream)];
        accounts := accounts[a := accounts[a].(name := acc.name, isBot := acc.isBot, version := acc.version, deleted := acc.deleted, status := acc.status)];
      }
      r := Ok(true);
    }

    method UpdateProfile(a: int, change: Change, icon: Profiles.FieldAction<int>, banner: Profiles.FieldAction<int>, version: int) returns (r: Result<bool>)
      requires a in profiles
      modifies this
      ensures var next := WithProfile(old(Contents()), a, change, icon, banner, version);
              if r.Ok? then next == Ok(Contents()) else next == Err(r.error)
    {
      if TouchesProfile(change) {
        var row := profiles[a];
        var stream := if row.id in profileStreams then profileStreams[row.id] else [];
        stream := Insert(Envelope(row.id, Profiles.Event.Updated(change.displayName, change.summary, icon, banner), version), stream);
        var loaded := FromEvents(Profiles.PROFILE, stream);
        if loaded.Err? { return Err(loaded.error); }
        if loaded.value.None? { return Err(NotFound); }
        var p := loaded.value.value.aggregate;
        profileStreams := profileStreams[row.id := stream];
        profiles := profiles[a := row.(displayName := p.displayName, summary := p.summary, icon := p.icon, banner := p.banner, version := p.version)];
      }
      r := Ok(true);
    }

    method UpdateFields(a: int, existing: seq<Row>, submitted: Option<seq<Field>>, tickets: seq<Ticket>) returns (r: Result<bool>)
      requires submitted.Some? ==> |FieldPlan(existing, submitted.value)| <= |tickets|
      modifies fieldTables
      ensures var next := WithFields(old(Contents()), a, existing, submitted, tickets);
              if r.Ok? then next == Ok(Contents()) else next == Err(r.error)
    {
      r := Ok(true);
      if submitted.Some? { r := fieldTables.ApplyFieldUpdates(a, existing, submitted.value, tickets); }
    }

    /** Everything inside the transaction; on an error the caller rolls back. */
    method Attempt(a: int, change: Change, fetched: seq<Row>, numbers: Numbers, now: int) returns (r: Result<(Detail, bool)>)
      requires Supplied(change, fetched, numbers)
      modifies this, fieldTables
      ensures match Updated(old(Contents()), a, change, fetched, numbers, now)
              case Ok(out) => r == Ok((out.detail, out.mediaChanged)) && Contents() == out.tables
              case Err(e) => r == Err(e)
    {
      var projection := AccountProjector.Unfiltered(Get(accounts, a), now);
      if projection.None? { return Err(NotFound); }
      if !projection.value.status.Active? { return Err(Rejected); }
      var botDone := UpdateBot(a, change.bot, numbers.botVersion);
      if botDone.Err? { return Err(botDone.error); }
      if a !in profiles { return Err(NotFound); }
      var profile := profiles[a];
      var icon := Resolve(images, change.iconUrl);
      if icon.Err? { return Err(icon.error); }
      var banner := Resolve(images, change.bannerUrl);
      if banner.Err? { return Err(banner.error); }
      var media := Profiles.Acted(icon.value, profile.icon) != profile.icon || Profiles.Acted(banner.value, profile.banner) != profile.banner;
      var profileDone := UpdateProfile(a, change, icon.value, banner.value, numbers.profileVersion);
      if profileDone.Err? { return Err(profileDone.error); }
      var existing := SortFields(fetched);
      var fieldsDone := UpdateFields(a, existing, change.fields, numbers.tickets);
      if fieldsDone.Err? { return Err(fieldsDone.error); }
      var acc := Filtered(Get(accounts, a), now);
      if acc.None? { return Err(NotFound); }
      r := Ok((Response(acc.value, images, profile, change, existing), media));
    }

    method UpdateAccountDetail(a: int, change: Change, fetched: seq<Row>, numbers: Numbers, now: int) returns (r: Result<(Detail, bool)>)
      requires Supplied(change, fetched, numbers)
      modifies this, fieldTables
      ensures match Updated(old(Contents()), a, change, fetched, numbers, now)
              case Ok(out) => r == Ok((out.detail, out.mediaChanged)) && Contents() == out.tables
              case Err(e) => r == Err(e) && Contents() == old(Contents())
    {
      var saved := Contents();
      r := Attempt(a, change, fetched, numbers, now);
      if r.Err? { Rollback(saved); }
    }
  }

  // ---------- composing many details ----------

  /** The rows of one account, in the order they stand. */
  function FieldsFor(rows: seq<Row>, a: int): seq<Row> {
    if rows == [] then []
    else
      var n := |rows| - 1;
      FieldsFor(rows[..n], a) + if rows[n].accountId == a then [rows[n]] else []
  }

  function Collected(groups: map<int, seq<Field>>, a: int): seq<Field> {
    if a in groups then groups[a] else []
  }

  lemma FieldsForSnoc(rows: seq<Row>, k: nat, a: int)
    requires k < |rows|
    ensures ShownAll(FieldsFor(rows[..k + 1], a)) ==
            ShownAll(FieldsFor(rows[..k], a)) + if rows[k].accountId == a then [Shown(rows[k])] else []
  {
    assert rows[..k + 1][..k] == rows[..k];
  }

  ghost predicate Groups(groups: map<int, seq<Field>>, rows: seq<Row>) {
    forall a :: Collected(groups, a) == ShownAll(FieldsFor(rows, a))
  }

  lemma GroupsSnoc(groups: map<int, seq<Field>>, rows: seq<Row>, k: nat)
    requires k < |rows| && Groups(groups, rows[..k])
    ensures var owner := rows[k].accountId;
            Groups(groups[owner := Collected(groups, owner) + [Shown(rows[k])]], rows[..k + 1])
  {
    var owner := rows[k].accountId;
    var next := groups[owner := Collected(groups, owner) + [Shown(rows[k])]];
    forall a ensures Collected(next, a) == ShownAll(FieldsFor(rows[..k + 1], a)) {
      FieldsForSnoc(rows, k, a);
      assert Collected(groups, a) == ShownAll(FieldsFor(rows[..k], a));
    }
  }

  /** Groups the sorted fields by account. */
  method GroupFields(rows: seq<Row>) returns (groups: map<int, seq<Field>>)
    ensures Groups(groups, rows)
  {
    groups := map[];
    for k := 0 to |rows|
      invariant Groups(groups, rows[..k])
    {
      GroupsSnoc(groups, rows, k);
      var owner := rows[k].accountId;
      groups := groups[owner := Collected(groups, owner) + [Shown(rows[k])]];
    }
    assert rows[..|rows|] == rows;
  }

  /** One of the first `i` accounts has this id. */
  predicate Among(accounts: seq<Account>, i: nat, a: int)
    requires i <= |accounts|
  {
    exists j :: 0 <= j < i && accounts[j].id == a
  }

  /** The fields that position `i` finds: a repeated account finds its fields already taken. */
  function FieldsAt(accounts: seq<Account>, rows: seq<Row>, i: nat, a: int): seq<Field>
    requires i <= |accounts|
  {
    if Among(accounts, i, a) then [] else ShownAll(FieldsFor(rows, a))
  }

  function DetailAt(t: Tables, accounts: seq<Account>, rows: seq<Row>, i: nat): Detail
    requires i < |accounts| && accounts[i].id in t.profiles
  {
    var acc := accounts[i];
    var p := t.profiles[acc.id];
    DetailOf(acc, p.displayName, p.summary, UrlOf(t.images, p.icon), UrlOf(t.images, p.banner), FieldsAt(accounts, rows, i, acc.id))
  }

  ghost predicate Left(groups: map<int, seq<Field>>, accounts: seq<Account>, rows: seq<Row>, i: nat)
    requires i <= |accounts|
  {
    forall a :: Collected(groups, a) == FieldsAt(accounts, rows, i, a)
  }

  lemma LeftNext(groups: map<int, seq<Field>>, accounts: seq<Account>, rows: seq<Row>, i: nat)
    requires i < |accounts| && Left(groups, accounts, rows, i)
    ensures Left(groups - {accounts[i].id}, accounts, rows, i + 1)
  {
    var next := groups - {accounts[i].id};
    forall a ensures Collected(next, a) == FieldsAt(accounts, rows, i + 1, a) {
      assert Collected(groups, a) == FieldsAt(accounts, rows, i, a);
      assert Among(accounts, i + 1, a) <==> Among(accounts, i, a) || accounts[i].id == a;
    }
  }

  lemma LeftStart(groups: map<int, seq<Field>>, accounts: seq<Account>, rows: seq<Row>)
    requires Groups(groups, rows)
    ensures Left(groups, accounts, rows, 0)
  {
  }

  /** The leading details are in place. */
  ghost predicate Detailed(t: Tables, accounts: seq<Account>, rows: seq<Row>, details: seq<Detail>) {
    && |details| <= |accounts|
    && forall k :: 0 <= k < |details| ==> accounts[k].id in t.profiles && details[k] == DetailAt(t, accounts, rows, k)
  }

  lemma DetailedNext(t: Tables, accounts: seq<Account>, rows: seq<Row>, details: seq<Detail>, groups: map<int, seq<Field>>)
    requires Detailed(t, accounts, rows, details) && |details| < |accounts| && accounts[|details|].id in t.profiles
    requires Left(groups, accounts, rows, |details|)
    ensures var acc := accounts[|details|];
            var p := t.profiles[acc.id];
            Detailed(t, accounts, rows, details + [DetailOf(acc, p.displayName, p.summary, UrlOf(t.images, p.icon), UrlOf(t.images, p.banner), Collected(groups, acc.id))])
  {
  }

  method ComposeDetails(t: Tables, accounts: seq<Account>, fetched: seq<Row>) returns (r: Result<seq<Detail>>)
    ensures r.Ok? <==> forall i :: 0 <= i < |accounts| ==> accounts[i].id in t.profiles
    ensures r.Err? ==> r.error == NotFound
    ensures r.Ok? ==> |r.value| == |accounts| && Detailed(t, accounts, SortFields(fetched), r.value)
  {
    var rows := SortFields(fetched);
    var groups := GroupFields(rows);
    var details := [];
    LeftStart(groups, accounts, rows);
    for i := 0 to |accounts|
      invariant |details| == i && Detailed(t, accounts, rows, details) && Left(groups, accounts, rows, i)
    {
      var acc := accounts[i];
      if acc.id !in t.profiles { return Err(NotFound); }
      var p := t.profiles[acc.id];
      DetailedNext(t, accounts, rows, details, groups);
      LeftNext(groups, accounts, rows, i);
      details := details + [DetailOf(acc, p.displayName, p.summary, UrlOf(t.images, p.icon), UrlOf(t.images, p.banner), Collected(groups, acc.id))];
      groups := groups - {acc.id};
    }
    r := Ok(details);
  }

  lemma {:induction false} FieldsForMembers(rows: seq<Row>, a: int)
    ensures forall x :: x in FieldsFor(rows, a) <==> x in rows && x.accountId == a
    ensures Ascending(rows) ==> Ascending(FieldsFor(rows, a))
  {
    if rows != [] {
      var n := |rows| - 1;
      FieldsForMembers(rows[..n], a);
      assert rows == rows[..n] + [rows[n]];
      if Ascending(rows) {
        forall x | x in rows[..n] ensures Before(x, rows[n]) {
          var k :| 0 <= k < n && rows[..n][k] == x;
          assert rows[k] == x;
        }
      }
    }
  }

  /** A query for the rows of several accounts. */
  ghost predicate FetchedAll(fetched: seq<Row>, rows: map<int, Row>, ids: set<int>) {
    && DistinctIds(fetched)
    && (forall x :: x in fetched ==> x.id in rows && rows[x.id] == x && x.accountId in ids)
    && (forall m :: m in rows && rows[m].accountId in ids ==> rows[m].id == m && rows[m] in fetched)
  }

  /** In a batch read each account listed once gets exactly its own fields in id order, as if it were read alone. */
  lemma BatchReadIsSingleReads(t: Tables, accounts: seq<Account>, fetched: seq<Row>, ids: set<int>, i: nat, own: seq<Row>)
    requires i < |accounts| && accounts[i].id in t.profiles && accounts[i].id in ids && !Among(accounts, i, accounts[i].id)
    requires FetchedAll(fetched, t.fields.rows, ids) && Fetched(own, t.fields.rows, accounts[i].id)
    ensures Composed(t, accounts[i], own) == Ok(DetailAt(t, accounts, SortFields(fetched), i))
  {
    var a := accounts[i].id;
    SortAscends(fetched);
    FieldsForMembers(SortFields(fetched), a);
    var list := FieldsFor(SortFields(fetched), a);
    forall k | 0 <= k < |list| ensures list[k] in fetched && list[k].accountId == a { assert list[k] in list; }
    FetchedLists(own, t.fields.rows, a);
    assert Listed(list, t.fields.rows, a);
    SameListed(list, SortFields(own), t.fields.rows, a);
  }

  // ---------- what the response and a read show ----------

  /** What an update leaves of the accounts is what its bot step left, and the response shows that row. */
  lemma UpdatedAccounts(t: Tables, a: int, change: Change, fetched: seq<Row>, numbers: Numbers, now: int)
    requires Supplied(change, fetched, numbers) && Updated(t, a, change, fetched, numbers, now).Ok?
    ensures var out, r := Updated(t, a, change, fetched, numbers, now).value, WithBot(t, a, change.bot, numbers.botVersion);
            && r.Ok? && out.tables.accounts == r.value.accounts && out.tables.accountStreams == r.value.accountStreams
            && a in r.value.accounts && a in t.profiles
            && out.detail == Response(r.value.accounts[a], t.images, t.profiles[a], change, SortFields(fetched))
  {
    BotMoves(t, a, change.bot, numbers.botVersion);
  }

  /**
   After a successful update of an account whose row agreed with its stream, the row is the fold of the new
   stream and the response shows its flag, which is the one that the request leaves; other accounts are as before.
   */
  lemma FlagFollows(t: Tables, a: int, change: Change, fetched: seq<Row>, numbers: Numbers, now: int)
    requires Supplied(change, fetched, numbers) && AccountAgreed(t, a, numbers.botVersion) && Updated(t, a, change, fetched, numbers, now).Ok?
    ensures var out := Updated(t, a, change, fetched, numbers, now).value;
            && AccountAgreed(out.tables, a, numbers.botVersion + 1)
            && FlagAfter(change.bot, t.accounts[a].isBot, out.detail.isBot) && out.tables.accounts[a].isBot == out.detail.isBot
            && forall b :: b != a ==> AccountStream(out.tables, b) == AccountStream(t, b) && Get(out.tables.accounts, b) == Get(t.accounts, b)
  {
    UpdatedAccounts(t, a, change, fetched, numbers, now);
    BotWritten(t, a, change.bot, numbers.botVersion);
  }

  /** What a part of the response shows: the submitted value, none for a cleared part, and the old one if unchanged. */
  ghost predicate PartAfter(action: Profiles.FieldAction<string>, before: Option<string>, after: Option<string>) {
    && (action.Set? ==> after == Some(action.value))
    && (action.Clear? ==> after == None)
    && (action.Unchanged? ==> after == before)
  }

  /** Every part of the response, from the account row, the profile row before the update and the request. */
  lemma ResponseShows(t: Tables, a: int, change: Change, fetched: seq<Row>, numbers: Numbers, now: int)
    requires Supplied(change, fetched, numbers) && DistinctImages(t.images) && Updated(t, a, change, fetched, numbers, now).Ok?
    ensures var out := Updated(t, a, change, fetched, numbers, now).value;
            && a in out.tables.accounts && a in t.profiles
            && var row, p, d := out.tables.accounts[a], t.profiles[a], out.detail;
               && d.nanoid == row.nanoid && d.name == row.name && d.isBot == row.isBot && d.createdAt == row.createdAt && d.moderation == row.status
               && PartAfter(change.displayName, p.displayName, d.displayName) && PartAfter(change.summary, p.summary, d.summary)
               && PartAfter(change.iconUrl, UrlOf(t.images, p.icon), d.iconUrl) && PartAfter(change.bannerUrl, UrlOf(t.images, p.banner), d.bannerUrl)
               && d.fields == if change.fields.Some? then change.fields.value else ShownAll(SortFields(fetched))
  {
    UpdatedAccounts(t, a, change, fetched, numbers, now);
    BotMoves(t, a, change.bot, numbers.botVersion);
    if change.iconUrl.Set? { FoundShows(t.images, change.iconUrl.value); }
    if change.bannerUrl.Set? { FoundShows(t.images, change.bannerUrl.value); }
  }

  /** Every part of a composed detail, from the account, its profile row, the images and its fields. */
  lemma ReadShows(t: Tables, accounts: seq<Account>, rows: seq<Row>, i: nat)
    requires i < |accounts| && accounts[i].id in t.profiles
    ensures var acc, p, d := accounts[i], t.profiles[accounts[i].id], DetailAt(t, accounts, rows, i);
            && d.nanoid == acc.nanoid && d.name == acc.name && d.isBot == acc.isBot && d.createdAt == acc.createdAt && d.moderation == acc.status
            && d.displayName == p.displayName && d.summary == p.summary
            && d.iconUrl == UrlOf(t.images, p.icon) && d.bannerUrl == UrlOf(t.images, p.banner)
            && d.fields == if Among(accounts, i, acc.id) then [] else ShownAll(FieldsFor(rows, acc.id))
  {
  }

  /** The URL that an action sets, if it sets one, belongs to some image. */
  ghost predicate Resolves(images: seq<Image>, action: Profiles.FieldAction<string>) {
    action.Set? ==> exists i :: 0 <= i < |images| && images[i].url == action.value
  }

  /** The account is not deactivated, not banned, and not suspended unless the suspension has lapsed. */
  predicate Editable(acc: Account, now: int) {
    && !acc.deleted && !acc.status.Banned?
    && (acc.status.Suspended? ==> acc.status.expiresAt.Some? && acc.status.expiresAt.value <= now)
  }

  lemma EditableIsRead(row: Option<Account>, now: int)
    ensures var seen := AccountProjector.Unfiltered(row, now);
            && (seen.Some? <==> row.Some? && !row.value.deleted)
            && (seen.Some? ==> (seen.value.status.Active? <==> Editable(row.value, now)))
            && (Filtered(row, now).Some? <==> row.Some? && Editable(row.value, now))
  {
  }

  lemma ResolvesExactly(images: seq<Image>, action: Profiles.FieldAction<string>)
    ensures Resolve(images, action).Ok? <==> Resolves(images, action)
    ensures Resolve(images, action).Err? ==> Resolve(images, action).error == NotFound
  {
    if action.Set? { FoundExactly(images, action.value); }
  }

  /**
   When an update of consistent tables succeeds: exactly if the account may be edited, has a profile, and every
   submitted image URL is known. An account that is there but may not be edited is rejected; the rest is not found.
   */
  lemma UpdateSucceeds(t: Tables, a: int, change: Change, fetched: seq<Row>, numbers: Numbers, now: int, bound: int)
    requires Supplied(change, fetched, numbers) && FieldsConsistent(t, a, fetched, numbers, bound)
    requires a in t.accounts ==> AccountAgreed(t, a, numbers.botVersion)
    requires ProfileAgreed(t, a, numbers.profileVersion)
    ensures var r := Updated(t, a, change, fetched, numbers, now);
            && (r.Ok? <==> && a in t.accounts && Editable(t.accounts[a], now) && a in t.profiles
                           && Resolves(t.images, change.iconUrl) && Resolves(t.images, change.bannerUrl))
            && (r.Err? ==> r.error == if a in t.accounts && !t.accounts[a].deleted && !Editable(t.accounts[a], now) then Rejected else NotFound)
  {
    EditableIsRead(Get(t.accounts, a), now);
    ResolvesExactly(t.images, change.iconUrl);
    ResolvesExactly(t.images, change.bannerUrl);
    if a in t.accounts && Editable(t.accounts[a], now) {
      BotWritten(t, a, change.bot, numbers.botVersion);
      BotMoves(t, a, change.bot, numbers.botVersion);
      var t1 := WithBot(t, a, change.bot, numbers.botVersion).value;
      EditableIsRead(Get(t1.accounts, a), now);
      if a in t.profiles && Resolves(t.images, change.iconUrl) && Resolves(t.images, change.bannerUrl) {
        RestSucceeds(t, t1, a, change, fetched, numbers, bound);
      }
    }
  }

  lemma RestSucceeds(t: Tables, t1: Tables, a: int, change: Change, fetched: seq<Row>, numbers: Numbers, bound: int)
    requires Supplied(change, fetched, numbers) && FieldsConsistent(t, a, fetched, numbers, bound) && ProfileAgreed(t, a, numbers.profileVersion)
    requires t1 == t.(accountStreams := t1.accountStreams, accounts := t1.accounts) && a in t.profiles
    requires Resolve(t.images, change.iconUrl).Ok? && Resolve(t.images, change.bannerUrl).Ok?
    ensures var t2 := WithProfile(t1, a, change, Resolve(t.images, change.iconUrl).value, Resolve(t.images, change.bannerUrl).value, numbers.profileVersion);
            && t2.Ok? && t2.value.accounts == t1.accounts
            && WithFields(t2.value, a, SortFields(fetched), change.fields, numbers.tickets).Ok?
            && WithFields(t2.value, a, SortFields(fetched), change.fields, numbers.tickets).value.accounts == t1.accounts
  {
    var icon, banner := Resolve(t.images, change.iconUrl).value, Resolve(t.images, change.bannerUrl).value;
    ResolveKeepsKind(t.images, change.iconUrl);
    ResolveKeepsKind(t.images, change.bannerUrl);
    assert ProfileStream(t1, t.profiles[a].id) == ProfileStream(t, t.profiles[a].id);
    ProfileMoves(t1, a, change, icon, banner, numbers.profileVersion);
    if change.fields.Some? {
      FetchedLists(fetched, t.fields.rows, a);
      FieldDiffRoundTrip(t.fields, a, SortFields(fetched), change.fields.value, numbers.tickets, bound);
    }
  }
}
