/** The mini-app registry: its state, its tables and what one request does to the state. */
module Registry {
  import opened Options
  import opened Versions

  type AppId = string
  type UserId = string
  type Time = int

  datatype Source = Dev | External | Hosted

  datatype Manifest = Manifest(
    appId: AppId,
    name: string,
    version: Version,
    summary: string,
    hidden: bool,
    source: Source,
    platforms: seq<string>,
    entrypointOrigin: string,
    previewOrigin: string,
    permissions: seq<string>)

  /** A digest, as the content it stands for. */
  datatype Digest = Sha256(content: Manifest)

  /** The digest of the assets an approval binds, as the texts it is computed from: the content hash,
      if there is one, and the origins that are not empty. They are sorted before hashing. */
  datatype AssetSet = AssetSet(contentHash: Option<Digest>, origins: multiset<string>)

  datatype Status = Draft | Submitted | UnderReview | NeedsChanges | Approved | Rejected | Suspended | Revoked

  /** What a release keeps in its table row. */
  datatype Columns = Columns(
    version: Version,
    manifest: Manifest,
    manifestHash: Digest,
    contentHash: Option<Digest>,
    status: Status,
    note: string,
    source: Source,
    hidden: bool,
    publisher: UserId,
    platforms: seq<string>,
    entrypointOrigin: string,
    previewOrigin: string,
    createdAt: Time,
    submittedAt: Option<Time>,
    reviewedAt: Option<Time>,
    publishedAt: Option<Time>,
    revokedAt: Option<Time>,
    suspendedAt: Option<Time>,
    suspensionReason: string,
    assetSet: Option<AssetSet>,
    immutableAt: Option<Time>)

  /** The last two fields have no column. */
  datatype Release = Release(columns: Columns, requiresReconsent: bool, previousPermissions: seq<string>)

  datatype App = App(
    appId: AppId,
    name: string,
    owner: UserId,
    hidden: bool,
    summary: string,
    createdAt: Time,
    updatedAt: Time,
    latestVersion: Version,
    latestApproved: Version,
    releases: map<Version, Release>)

  datatype Install = Install(
    appId: AppId, version: Version, autoUpdate: bool, enabled: bool, installedAt: Time, updatedAt: Time)

  datatype State = State(apps: map<AppId, App>, installs: map<UserId, map<AppId, Install>>)

  datatype Failure =
    | Unauthorized
    | BadRequest
    | Forbidden
    | NotFound
    | Conflict
    | NotInstallable
    | ImmutabilityViolation
    | InvalidTransition

  datatype Result<+T> = Ok(value: T) | Err(failure: Failure)

  // ---- versions of an app ----

  predicate SuffixChar(c: char) {
    IsDigit(c) || 'a' <= c <= 'z' || 'A' <= c <= 'Z' || c == '.' || c == '-'
  }

  /** Three dotted numbers and an optional non-empty part after a dash. */
  predicate SemVer(v: Version) {
    var a := RunEnd(v, 0);
    && 0 < a < |v| && v[a] == '.'
    && var b := RunEnd(v, a + 1);
    && a + 1 < b < |v| && v[b] == '.'
    && var c := RunEnd(v, b + 1);
    && b + 1 < c
    && (c == |v| || (v[c] == '-' && c + 1 < |v| && forall i :: c < i < |v| ==> SuffixChar(v[i])))
  }

  function ApprovedVersions(app: App): set<Version> {
    set v | v in app.releases && app.releases[v].columns.status == Approved
  }

  /** Both version pointers point at the greatest version of their kind. */
  ghost predicate PointersCorrect(app: App) {
    && "" !in app.releases
    && app.latestVersion == Latest(app.releases.Keys)
    && app.latestApproved == Latest(ApprovedVersions(app))
  }

  ghost function Refreshed(app: App): (r: App)
    requires "" !in app.releases
    ensures PointersCorrect(r) && r.releases == app.releases && r.appId == app.appId && r.owner == app.owner
  {
    app.(latestVersion := Latest(app.releases.Keys), latestApproved := Latest(ApprovedVersions(app)))
  }

  predicate Later(a: Option<Time>, b: Option<Time>) {
    a.Some? && b.Some? && a.value > b.value
  }

  /** What the search for the most recently published approved release can return. The releases
      are visited in no fixed order, so several may when they were published together. */
  predicate MayBeLatest(app: App, choice: Option<Version>) {
    match choice
    case None => ApprovedVersions(app) == {}
    case Some(v) =>
      && v in ApprovedVersions(app)
      && forall u :: u in ApprovedVersions(app) ==>
           !Later(app.releases[u].columns.publishedAt, app.releases[v].columns.publishedAt)
  }

  // ---- permissions ----

  function Permissions(m: Manifest): set<string> {
    set p | p in m.permissions && p != ""
  }

  function AddedPermissions(installed: Manifest, candidate: Manifest): set<string> {
    Permissions(candidate) - Permissions(installed)
  }

  /** The re-consent check of the review handler, which compares the lengths of the lists first. */
  predicate IsPermissionExpansion(before: seq<string>, now: seq<string>) {
    |now| > |before| && exists i :: 0 <= i < |now| && now[i] !in before
  }

  // ---- requests ----

  function InitialStatus(source: Source): Status {
    if source == Dev then Approved else Draft
  }

  function NewRelease(m: Manifest, contentHash: Option<Digest>, status: Status, hidden: bool, publisher: UserId, now: Time): Release {
    var published := if status == Approved then Some(now) else None;
    Release(Columns(m.version, m, Sha256(m), contentHash, status, "", m.source, hidden, publisher, m.platforms,
                    m.entrypointOrigin, m.previewOrigin, now, None, published, published, None, None, "", None, None),
            false, [])
  }

  function NewApp(appId: AppId, name: string, owner: UserId, hidden: bool, summary: string, now: Time): App {
    App(appId, name, owner, hidden, summary, now, now, "", "", map[])
  }

  predicate ValidManifest(m: Manifest) {
    m.appId != "" && m.name != "" && SemVer(m.version)
  }

  function WithApp(s: State, app: App): State {
    s.(apps := s.apps[app.appId := app])
  }

  ghost function Register(s: State, caller: UserId, admin: bool, m: Manifest, now: Time): Result<State>
    requires WellFormed(s)
  {
    var user := if caller == "" then "dev-bootstrap" else caller;
    if !ValidManifest(m) then Err(BadRequest)
    else
      var app := if m.appId in s.apps then s.apps[m.appId] else NewApp(m.appId, m.name, user, m.hidden, m.summary, now);
      if app.owner != user && !admin then Err(Forbidden)
      else if m.version in app.releases then
        if app.releases[m.version].columns.manifestHash != Sha256(m) then Err(Conflict) else Ok(s)
      else
        var release := NewRelease(m, Some(Sha256(m)), InitialStatus(m.source), app.hidden, user, now);
        Ok(WithApp(s, Refreshed(app.(releases := app.releases[m.version := release], name := m.name,
                                     summary := m.summary, updatedAt := now))))
  }

  function CreateApp(s: State, user: UserId, appId: AppId, name: string, summary: string, hidden: bool, now: Time): Result<State> {
    if user == "" then Err(Unauthorized)
    else if appId == "" || name == "" then Err(BadRequest)
    else if appId in s.apps then Err(Conflict)
    else Ok(WithApp(s, NewApp(appId, name, user, hidden, summary, now)))
  }

  ghost function CreateRelease(s: State, user: UserId, admin: bool, appId: AppId, m: Manifest, now: Time): Result<State>
    requires WellFormed(s)
  {
    if user == "" then Err(Unauthorized)
    else if m.appId != appId || !ValidManifest(m) then Err(BadRequest)
    else if appId !in s.apps then Err(NotFound)
    else
      var app := s.apps[appId];
      if app.owner != user && !admin then Err(Forbidden)
      else if m.version in app.releases then Err(Conflict)
      else
        var release := NewRelease(m, None, Draft, app.hidden, user, now);
        Ok(WithApp(s, Refreshed(app.(releases := app.releases[m.version := release], updatedAt := now))))
  }

  /** The stored manifest still has the digest recorded when the release was registered. */
  predicate Immutable(c: Columns) {
    c.contentHash.Some? ==> c.contentHash.value == Sha256(c.manifest)
  }

  function AssetSetOf(c: Columns): AssetSet {
    AssetSet(c.contentHash, (if c.entrypointOrigin != "" then multiset{c.entrypointOrigin} else multiset{})
                            + (if c.previewOrigin != "" then multiset{c.previewOrigin} else multiset{}))
  }

  /** Suspending keeps the two suspension columns as they are; like the other reviews it writes the
      review time and the note. */
  function Reviewed(c: Columns, next: Status, note: string, now: Time): Columns {
    match next
    case Draft => c
    case Submitted => c.(status := Submitted, submittedAt := Some(now))
    case Approved =>
      c.(status := Approved, reviewedAt := Some(now), publishedAt := Some(now), revokedAt := None, immutableAt := Some(now),
         assetSet := Some(AssetSetOf(c)))
    case Revoked => c.(status := Revoked, revokedAt := Some(now))
    case UnderReview => c.(status := UnderReview, reviewedAt := Some(now), note := note)
    case NeedsChanges => c.(status := NeedsChanges, reviewedAt := Some(now), note := note)
    case Rejected => c.(status := Rejected, reviewedAt := Some(now), note := note)
    case Suspended => c.(status := Suspended, reviewedAt := Some(now), note := note)
  }

  /** The re-consent mark of a release being approved, given what the search for the most recent
      approved release returns at that point. */
  function Marked(app: App, version: Version, next: Status, previous: Option<Version>): Release
    requires version in app.releases
  {
    var release := app.releases[version];
    if next == Approved && previous.Some? && previous.value != version && previous.value in app.releases then
      var before := app.releases[previous.value].columns.manifest.permissions;
      if IsPermissionExpansion(before, release.columns.manifest.permissions)
      then release.(requiresReconsent := true, previousPermissions := before) else release
    else release
  }

  function WithRelease(app: App, version: Version, release: Release): App {
    app.(releases := app.releases[version := release])
  }

  ghost function Transition(s: State, user: UserId, admin: bool, appId: AppId, version: Version, next: Status, note: string,
                            previous: Option<Version>, now: Time): Result<State>
    requires WellFormed(s)
  {
    if next != Submitted && next != Revoked && !admin then Err(Forbidden)
    else if user == "" then Err(Unauthorized)
    else if appId !in s.apps then Err(NotFound)
    else
      var app := s.apps[appId];
      if app.owner != user && !admin then Err(Forbidden)
      else if version !in app.releases then Err(NotFound)
      else if next == Draft then Err(InvalidTransition)
      else
        var release := app.releases[version];
        if next == Approved && !Immutable(release.columns) then Err(ImmutabilityViolation)
        else
          var reviewed := WithRelease(app, version, release.(columns := Reviewed(release.columns, next, note, now)));
          var marked := WithRelease(reviewed, version, Marked(reviewed, version, next, previous));
          Ok(WithApp(s, Refreshed(marked.(updatedAt := now))))
  }

  /** The installs of a user; asking for them leaves an entry behind. */
  function InstallsOf(s: State, user: UserId): map<AppId, Install> {
    if user in s.installs then s.installs[user] else map[]
  }

  /** An update to another release that asks for a permission the installed one did not have. */
  predicate NeedsConsent(app: App, install: Install, choice: Version)
    requires choice in app.releases
  {
    && install.version in app.releases && install.version != choice
    && AddedPermissions(app.releases[install.version].columns.manifest, app.releases[choice].columns.manifest) != {}
  }

  function InstallApp(s: State, user: UserId, appId: AppId, accept: bool, choice: Option<Version>, now: Time): Result<State> {
    if user == "" then Err(Unauthorized)
    else if appId !in s.apps then Err(NotFound)
    else if choice.None? || choice.value !in s.apps[appId].releases then Err(NotInstallable)
    else
      var app, mine := s.apps[appId], InstallsOf(s, user);
      if appId in mine && NeedsConsent(app, mine[appId], choice.value) && !accept then Ok(s.(installs := s.installs[user := mine]))
      else
        var since := if appId in mine then mine[appId].installedAt else now;
        Ok(s.(installs := s.installs[user := mine[appId := Install(appId, choice.value, true, true, since, now)]]))
  }

  function UninstallApp(s: State, user: UserId, appId: AppId): Result<State> {
    if user == "" then Err(Unauthorized)
    else
      var mine := InstallsOf(s, user);
      if appId !in mine then Err(NotFound)
      else Ok(s.(installs := s.installs[user := mine - {appId}]))
  }

  // ---- tables ----

  datatype AppRow = AppRow(
    appId: AppId, name: string, owner: UserId, hidden: bool, summary: string, createdAt: Time, updatedAt: Time,
    latestVersion: Version, latestApproved: Version)

  datatype ReleaseRow = ReleaseRow(appId: AppId, columns: Columns)

  datatype InstallRow = InstallRow(user: UserId, install: Install)

  datatype Tables = Tables(apps: set<AppRow>, releases: set<ReleaseRow>, installs: set<InstallRow>)

  /** Map keys are the ids embedded in the values, and no version is empty. */
  predicate WellFormed(s: State) {
    && (forall id :: id in s.apps ==> WellFormedApp(id, s.apps[id]))
    && (forall u, id :: u in s.installs && id in s.installs[u] ==> s.installs[u][id].appId == id)
  }

  predicate WellFormedApp(id: AppId, app: App) {
    && app.appId == id
    && "" !in app.releases
    && forall v :: v in app.releases ==> app.releases[v].columns.version == v
  }

  /** The primary keys of the three tables. */
  predicate Keyed(t: Tables) {
    && (forall a, b :: a in t.apps && b in t.apps && a.appId == b.appId ==> a == b)
    && (forall a, b :: a in t.releases && b in t.releases && a.appId == b.appId && a.columns.version == b.columns.version ==> a == b)
    && (forall a, b :: a in t.installs && b in t.installs && a.user == b.user && a.install.appId == b.install.appId ==> a == b)
    && (forall a :: a in t.releases ==> a.columns.version != "")
  }

  function AppRowOf(app: App): AppRow {
    AppRow(app.appId, app.name, app.owner, app.hidden, app.summary, app.createdAt, app.updatedAt,
           app.latestVersion, app.latestApproved)
  }

  function RowsOf(s: State): Tables {
    Tables(set id | id in s.apps :: AppRowOf(s.apps[id]),
           set id, v | id in s.apps && v in s.apps[id].releases :: ReleaseRow(s.apps[id].appId, s.apps[id].releases[v].columns),
           set u, id | u in s.installs && id in s.installs[u] :: InstallRow(u, s.installs[u][id]))
  }

  predicate ReleasesKeyed(rows: set<ReleaseRow>) {
    forall a, b :: a in rows && b in rows && a.appId == b.appId && a.columns.version == b.columns.version ==> a == b
  }

  predicate InstallsKeyed(rows: set<InstallRow>) {
    forall a, b :: a in rows && b in rows && a.user == b.user && a.install.appId == b.install.appId ==> a == b
  }

  function ReleasesFor(rows: set<ReleaseRow>, id: AppId): map<Version, Release>
    requires ReleasesKeyed(rows)
  {
    map r | r in rows && r.appId == id :: r.columns.version := Release(r.columns, false, [])
  }

  function InstallsFor(rows: set<InstallRow>, user: UserId): map<AppId, Install>
    requires InstallsKeyed(rows)
  {
    map r | r in rows && r.user == user :: r.install.appId := r.install
  }

  function AppOf(r: AppRow, releases: map<Version, Release>): App {
    App(r.appId, r.name, r.owner, r.hidden, r.summary, r.createdAt, r.updatedAt, r.latestVersion, r.latestApproved, releases)
  }

  /** The state loaded from the tables; the pointers are computed afresh. */
  ghost function StateOf(t: Tables): State
    requires Keyed(t)
  {
    State(map r | r in t.apps :: r.appId := Refreshed(AppOf(r, ReleasesFor(t.releases, r.appId))),
          map r | r in t.installs :: r.user := InstallsFor(t.installs, r.user))
  }

  lemma LoadedWellFormed(t: Tables)
    requires Keyed(t)
    ensures WellFormed(StateOf(t))
  {
  }

  // ---- the round trip ----

  function StoredRelease(r: Release): Release {
    Release(r.columns, false, [])
  }

  function StoredApp(app: App): App {
    app.(releases := map v | v in app.releases :: StoredRelease(app.releases[v]))
  }

  /** What survives saving and loading: everything but the re-consent marks and the users without
      installs, with the pointers computed afresh. */
  ghost function Normalized(s: State): State
    requires WellFormed(s)
  {
    State(map id | id in s.apps :: Refreshed(StoredApp(s.apps[id])),
          map u | u in s.installs && s.installs[u] != map[] :: s.installs[u])
  }

  lemma RowsKeyed(s: State)
    requires WellFormed(s)
    ensures Keyed(RowsOf(s))
  {
  }

  lemma ReleasesSurvive(s: State, id: AppId)
    requires WellFormed(s) && id in s.apps && Keyed(RowsOf(s))
    ensures ReleasesFor(RowsOf(s).releases, id) == StoredApp(s.apps[id]).releases
  {
  }

  lemma InstallsSurvive(s: State, u: UserId)
    requires WellFormed(s) && Keyed(RowsOf(s))
    ensures InstallsFor(RowsOf(s).installs, u) == InstallsOf(s, u)
  {
    hide RowsOf;
    InstallRows(s);
    forall id | id in InstallsOf(s, u) ensures id in InstallsFor(RowsOf(s).installs, u) {
      assert InstallRow(u, s.installs[u][id]) in RowsOf(s).installs;
    }
  }

  /** Loading what was saved returns the same apps, releases and installs. */
  lemma SaveLoadRoundTrip(s: State)
    requires WellFormed(s)
    ensures Keyed(RowsOf(s)) && StateOf(RowsOf(s)) == Normalized(s)
  {
    hide RowsOf, Refreshed, StoredApp;
    RowsKeyed(s);
    AppsSurvive(s);
    InstallTableSurvives(s);
  }

  lemma InstallTableSurvives(s: State)
    requires WellFormed(s) && Keyed(RowsOf(s))
    ensures StateOf(RowsOf(s)).installs == Normalized(s).installs
  {
    hide RowsOf, Refreshed, ReleasesFor, StoredApp, InstallsFor;
    InstallRows(s);
    var t := RowsOf(s);
    var a, b := StateOf(t).installs, Normalized(s).installs;
    forall u | u in a ensures u in b && a[u] == b[u] {
      InstallsSurvive(s, u);
      var r :| r in t.installs && r.user == u;
    }
    forall u | u in b ensures u in a {
      var id :| id in s.installs[u];
      var r := InstallRow(u, s.installs[u][id]);
      assert r in t.installs && r.user == u;
    }
    assert a == b;
  }

  lemma InstallRows(s: State)
    requires WellFormed(s)
    ensures forall r :: r in RowsOf(s).installs <==>
              r.user in s.installs && r.install.appId in s.installs[r.user] && s.installs[r.user][r.install.appId] == r.install
  {
  }

  lemma AppsSurvive(s: State)
    requires WellFormed(s) && Keyed(RowsOf(s))
    ensures StateOf(RowsOf(s)).apps == Normalized(s).apps
  {
    hide Refreshed, ReleasesFor, StoredApp;
    var t := RowsOf(s);
    var a, b := StateOf(t).apps, Normalized(s).apps;
    forall id | id in a ensures id in b && a[id] == b[id] {
      var r :| r in t.apps && r.appId == id && a[id] == Refreshed(AppOf(r, ReleasesFor(t.releases, r.appId)));
      var k :| k in s.apps && r == AppRowOf(s.apps[k]);
      assert WellFormedApp(k, s.apps[k]);
      ReleasesSurvive(s, id);
      SameApp(s.apps[id]);
    }
    forall id | id in b ensures id in a {
      assert WellFormedApp(id, s.apps[id]);
      assert AppRowOf(s.apps[id]) in t.apps;
    }
    assert a == b;
  }

  lemma SameApp(app: App)
    ensures AppOf(AppRowOf(app), StoredApp(app).releases) == StoredApp(app)
  {
  }

  /** The round trip is exact precisely for a state without re-consent marks and without users
      that have no installs, whose pointers are right. */
  lemma RoundTripExact(s: State)
    requires WellFormed(s)
    ensures Normalized(s) == s
       <==> && (forall id :: id in s.apps ==> PointersCorrect(s.apps[id]))
            && (forall id, v :: id in s.apps && v in s.apps[id].releases ==>
                  !s.apps[id].releases[v].requiresReconsent && s.apps[id].releases[v].previousPermissions == [])
            && (forall u :: u in s.installs ==> s.installs[u] != map[])
  {
    hide Normalized, PointersCorrect, StoredApp, WellFormedApp;
    if Normalized(s) == s {
      ExactOnlyIf(s);
    }
    if && (forall id :: id in s.apps ==> PointersCorrect(s.apps[id]))
       && (forall id, v :: id in s.apps && v in s.apps[id].releases ==>
             !s.apps[id].releases[v].requiresReconsent && s.apps[id].releases[v].previousPermissions == [])
       && (forall u :: u in s.installs ==> s.installs[u] != map[]) {
      ExactIf(s);
    }
  }

  lemma ExactOnlyIf(s: State)
    requires WellFormed(s) && Normalized(s) == s
    ensures forall id :: id in s.apps ==> PointersCorrect(s.apps[id])
    ensures forall id, v :: id in s.apps && v in s.apps[id].releases ==>
              !s.apps[id].releases[v].requiresReconsent && s.apps[id].releases[v].previousPermissions == []
    ensures forall u :: u in s.installs ==> s.installs[u] != map[]
  {
  }

  lemma ExactIf(s: State)
    requires WellFormed(s)
    requires forall id :: id in s.apps ==> PointersCorrect(s.apps[id])
    requires forall id, v :: id in s.apps && v in s.apps[id].releases ==>
               !s.apps[id].releases[v].requiresReconsent && s.apps[id].releases[v].previousPermissions == []
    requires forall u :: u in s.installs ==> s.installs[u] != map[]
    ensures Normalized(s) == s
  {
    var n := Normalized(s);
    forall id | id in s.apps ensures n.apps[id] == s.apps[id] {
      assert WellFormedApp(id, s.apps[id]);
      assert StoredApp(s.apps[id]).releases == s.apps[id].releases;
      AlreadyRefreshed(s.apps[id]);
    }
    assert n.apps == s.apps && n.installs == s.installs;
  }

  lemma AlreadyRefreshed(app: App)
    requires PointersCorrect(app)
    ensures Refreshed(app) == app
  {
  }

  /** The app as the search for the previous approved release sees it: the release under review is
      approved already. */
  function Approving(app: App, version: Version, note: string, now: Time): App
    requires version in app.releases
  {
    WithRelease(app, version, app.releases[version].(columns := Reviewed(app.releases[version].columns, Approved, note, now)))
  }

  /** Some order of visiting the releases makes the approval set the mark. */
  ghost predicate MarkPossible(app: App, version: Version, note: string, now: Time)
    requires version in app.releases
  {
    exists previous :: MayBeLatest(Approving(app, version, note, now), previous)
                       && Marked(Approving(app, version, note, now), version, Approved, previous).requiresReconsent
  }

  /** The search can return this other release although the one under review is approved already: it
      has no publication time, or none of the approved ones, the one under review included, is later. */
  predicate StillFound(app: App, version: Version, now: Time, other: Version)
    requires version in app.releases
  {
    && other != version && other in ApprovedVersions(app)
    && var published := app.releases[other].columns.publishedAt;
       published.None? || (published.value >= now && forall u :: u in ApprovedVersions(app) && u != version ==>
                             !Later(app.releases[u].columns.publishedAt, published))
  }

  lemma FoundExactly(app: App, version: Version, note: string, now: Time, other: Version)
    requires version in app.releases && other != version
    ensures MayBeLatest(Approving(app, version, note, now), Some(other)) <==> StillFound(app, version, now, other)
  {
    var reviewed := Approving(app, version, note, now);
    assert version in ApprovedVersions(reviewed);
    assert forall u :: u != version ==> (u in ApprovedVersions(reviewed) <==> u in ApprovedVersions(app));
    assert forall u :: u in ApprovedVersions(app) && u != version ==> reviewed.releases[u] == app.releases[u];
  }

  /** The mark can be set if and only if the search can still find another approved release, which
      takes a tie in publication time or a clock that went back, and that one asks for fewer
      permissions. A loaded release is never marked before. */
  lemma ReconsentOnlyOnTie(app: App, version: Version, note: string, now: Time)
    requires version in app.releases && !app.releases[version].requiresReconsent
    ensures MarkPossible(app, version, note, now)
       <==> exists other :: StillFound(app, version, now, other)
              && IsPermissionExpansion(app.releases[other].columns.manifest.permissions,
                                       app.releases[version].columns.manifest.permissions)
  {
    hide MayBeLatest, StillFound, IsPermissionExpansion;
    var reviewed := Approving(app, version, note, now);
    forall other | other != version
      ensures MayBeLatest(reviewed, Some(other)) <==> StillFound(app, version, now, other)
      ensures MayBeLatest(reviewed, Some(other)) ==> other in app.releases
    {
      FoundExactly(app, version, note, now, other);
      FoundExists(app, version, now, other);
    }
    if other :| StillFound(app, version, now, other)
                && IsPermissionExpansion(app.releases[other].columns.manifest.permissions,
                                         app.releases[version].columns.manifest.permissions) {
      FoundExists(app, version, now, other);
      assert Marked(reviewed, version, Approved, Some(other)).requiresReconsent;
    }
  }

  lemma FoundExists(app: App, version: Version, now: Time, other: Version)
    requires version in app.releases
    ensures StillFound(app, version, now, other) ==> other != version && other in app.releases
  {
  }

  /** The inputs that show it: one release published first, then one asking for more. Approving the
      second later never sets the mark; approving it at the very same time, or earlier, can. */
  lemma LaterApprovalNeverMarks(app: App, narrow: Manifest, wider: Manifest, first: Time, now: Time, note: string)
    requires narrow.version != wider.version && IsPermissionExpansion(narrow.permissions, wider.permissions)
    requires app.releases == map[narrow.version := NewRelease(narrow, Some(Sha256(narrow)), Approved, false, app.owner, first),
                                 wider.version := NewRelease(wider, Some(Sha256(wider)), Draft, false, app.owner, first)]
    ensures MarkPossible(app, wider.version, note, now) <==> now <= first
  {
    hide IsPermissionExpansion;
    ReconsentOnlyOnTie(app, wider.version, note, now);
    assert ApprovedVersions(app) == {narrow.version};
    if now <= first {
      assert StillFound(app, wider.version, now, narrow.version);
    }
  }
}
