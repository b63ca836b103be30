/** What every sequence of registry requests keeps, starting from empty tables. */
module RegistryGuarantees {
  import opened Options
  import opened Versions
  import opened Registry

  datatype Request =
    | Registering(caller: UserId, admin: bool, m: Manifest, now: Time)
    | CreatingApp(user: UserId, appId: AppId, name: string, summary: string, hidden: bool, now: Time)
    | CreatingRelease(user: UserId, admin: bool, appId: AppId, m: Manifest, now: Time)
    | Reviewing(user: UserId, admin: bool, appId: AppId, version: Version, next: Status, note: string,
                previous: Option<Version>, now: Time)
    | Installing(user: UserId, appId: AppId, accept: bool, choice: Option<Version>, now: Time)
    | Uninstalling(user: UserId, appId: AppId)

  ghost function Handle(s: State, r: Request): Result<State>
    requires WellFormed(s)
  {
    match r
    case Registering(caller, admin, m, now) => Register(s, caller, admin, m, now)
    case CreatingApp(user, appId, name, summary, hidden, now) => CreateApp(s, user, appId, name, summary, hidden, now)
    case CreatingRelease(user, admin, appId, m, now) => CreateRelease(s, user, admin, appId, m, now)
    case Reviewing(user, admin, appId, version, next, note, previous, now) =>
      Transition(s, user, admin, appId, version, next, note, previous, now)
    case Installing(user, appId, accept, choice, now) => InstallApp(s, user, appId, accept, choice, now)
    case Uninstalling(user, appId) => UninstallApp(s, user, appId)
  }

  /** The release an install picks is one the search for the newest approved release can return. */
  predicate Possible(s: State, r: Request) {
    r.Installing? && r.appId in s.apps ==> MayBeLatest(s.apps[r.appId], r.choice)
  }

  lemma HandledWellFormed(s: State, r: Request)
    requires WellFormed(s) && Handle(s, r).Ok?
    ensures WellFormed(Handle(s, r).value)
  {
    hide Refreshed, PointersCorrect, SemVer, Transition, Register, CreateRelease, WellFormedApp;
    match r
    case Registering(_, _, _, _) => RegisteredWellFormed(s, r);
    case CreatingRelease(_, _, _, _, _) => CreatedWellFormed(s, r);
    case Reviewing(_, _, _, _, _, _, _, _) => ReviewedWellFormed(s, r);
    case CreatingApp(_, _, _, _, _, _) => NewAppWellFormed(r);
    case Installing(_, _, _, _, _) =>
    case Uninstalling(_, _) =>
  }

  lemma NewAppWellFormed(r: Request)
    requires r.CreatingApp?
    ensures WellFormedApp(r.appId, NewApp(r.appId, r.name, r.user, r.hidden, r.summary, r.now))
  {
  }

  lemma RegisteredWellFormed(s: State, r: Request)
    requires WellFormed(s) && r.Registering? && Handle(s, r).Ok?
    ensures WellFormed(Handle(s, r).value)
  {
    hide Refreshed, PointersCorrect, SemVer;
    SemVerNotEmpty();
  }

  lemma CreatedWellFormed(s: State, r: Request)
    requires WellFormed(s) && r.CreatingRelease? && Handle(s, r).Ok?
    ensures WellFormed(Handle(s, r).value)
  {
    hide Refreshed, PointersCorrect, SemVer;
    SemVerNotEmpty();
  }

  lemma ReviewedWellFormed(s: State, r: Request)
    requires WellFormed(s) && r.Reviewing? && Handle(s, r).Ok?
    ensures WellFormed(Handle(s, r).value)
  {
    hide Refreshed, PointersCorrect, Reviewed, Marked;
    var app := s.apps[r.appId];
    assert WellFormedApp(r.appId, app);
    ReviewedVersion(app.releases[r.version].columns, r.next, r.note, r.now);
    var release := app.releases[r.version].(columns := Reviewed(app.releases[r.version].columns, r.next, r.note, r.now));
    MarkedColumns(WithRelease(app, r.version, release), r.version, r.next, r.previous);
  }

  lemma ReviewedVersion(c: Columns, next: Status, note: string, now: Time)
    ensures Reviewed(c, next, note, now).version == c.version
  {
  }

  lemma MarkedColumns(app: App, version: Version, next: Status, previous: Option<Version>)
    requires version in app.releases
    ensures Marked(app, version, next, previous).columns == app.releases[version].columns
  {
  }

  lemma SemVerNotEmpty()
    ensures !SemVer("")
  {
  }

  lemma NormalizedWellFormed(s: State)
    requires WellFormed(s)
    ensures WellFormed(Normalized(s))
  {
  }

  /** The state the next request loads after the first `k` requests. */
  ghost function After(requests: seq<Request>, k: nat): (s: State)
    requires k <= |requests|
    ensures WellFormed(s)
  {
    if k == 0 then State(map[], map[])
    else
      var s := After(requests, k - 1);
      match Handle(s, requests[k - 1])
      case Err(_) => s
      case Ok(next) =>
        HandledWellFormed(s, requests[k - 1]);
        NormalizedWellFormed(next);
        Normalized(next)
  }

  ghost predicate IsRun(requests: seq<Request>, k: nat)
    requires k <= |requests|
  {
    k == 0 || (IsRun(requests, k - 1) && Possible(After(requests, k - 1), requests[k - 1]))
  }

  // ---- the invariants ----

  /** A release that a review approved carries the digest of its own assets, any other carries none;
      the suspension columns are never written. */
  predicate AssetsBound(c: Columns) {
    && (c.assetSet == if c.immutableAt.Some? then Some(AssetSetOf(c)) else None)
    && c.suspendedAt.None? && c.suspensionReason == ""
  }

  predicate ReleaseGood(r: Release) {
    && Immutable(r.columns) && r.columns.manifestHash == Sha256(r.columns.manifest)
    && (r.columns.status == Approved ==> r.columns.publishedAt.Some?)
    && AssetsBound(r.columns)
  }

  ghost predicate AppGood(app: App) {
    PointersCorrect(app) && forall v :: v in app.releases ==> ReleaseGood(app.releases[v])
  }

  ghost predicate InstallsGood(s: State) {
    forall u, id :: u in s.installs && id in s.installs[u] ==>
      id in s.apps && s.installs[u][id].version in s.apps[id].releases
  }

  ghost predicate Good(s: State) {
    && (forall id :: id in s.apps ==> AppGood(s.apps[id]))
    && InstallsGood(s)
  }

  predicate SameRelease(a: Release, b: Release) {
    && b.columns.manifest == a.columns.manifest && b.columns.manifestHash == a.columns.manifestHash
    && b.columns.contentHash == a.columns.contentHash && b.columns.publisher == a.columns.publisher
    && b.columns.createdAt == a.columns.createdAt && AssetSetOf(b.columns) == AssetSetOf(a.columns)
    && (a.columns.immutableAt.Some? ==> b.columns.immutableAt.Some?)
  }

  predicate AppGrows(a: App, b: App) {
    && b.owner == a.owner
    && forall v :: v in a.releases ==> v in b.releases && SameRelease(a.releases[v], b.releases[v])
  }

  ghost predicate Grows(a: State, b: State) {
    forall id :: id in a.apps ==> id in b.apps && AppGrows(a.apps[id], b.apps[id])
  }

  // ---- saving keeps them ----

  lemma StoredGood(app: App)
    requires AppGood(app)
    ensures "" !in StoredApp(app).releases
    ensures AppGood(Refreshed(StoredApp(app))) && AppGrows(app, Refreshed(StoredApp(app)))
  {
    hide PointersCorrect;
    assert PointersCorrect(app);
    NoEmptyVersion(app);
  }

  lemma NoEmptyVersion(app: App)
    requires PointersCorrect(app)
    ensures "" !in app.releases
  {
  }

  lemma NormalizedGood(s: State)
    requires WellFormed(s) && Good(s)
    ensures WellFormed(Normalized(s)) && Good(Normalized(s)) && Grows(s, Normalized(s))
    ensures Normalized(s).apps.Keys == s.apps.Keys
    ensures forall u :: InstallsOf(Normalized(s), u) == InstallsOf(s, u)
  {
    hide AppGood, StoredApp, Refreshed, AppGrows, PointersCorrect, WellFormedApp;
    NormalizedWellFormed(s);
    var n := Normalized(s);
    forall id | id in s.apps ensures AppGood(n.apps[id]) && AppGrows(s.apps[id], n.apps[id]) {
      StoredGood(s.apps[id]);
    }
    forall u, id | u in n.installs && id in n.installs[u]
      ensures id in n.apps && n.installs[u][id].version in n.apps[id].releases
    {
      VersionStays(s.apps[id], n.apps[id], n.installs[u][id].version);
    }
  }

  lemma VersionStays(a: App, b: App, v: Version)
    requires AppGrows(a, b) && v in a.releases
    ensures v in b.releases
  {
  }

  lemma SameAppGrows(app: App)
    ensures AppGrows(app, app)
  {
  }

  /** One app added or replaced. */
  lemma WithAppGood(s: State, app: App)
    requires Good(s) && AppGood(app)
    requires app.appId in s.apps ==> AppGrows(s.apps[app.appId], app)
    ensures Good(WithApp(s, app)) && Grows(s, WithApp(s, app))
  {
    hide AppGood, AppGrows;
    var n := WithApp(s, app);
    forall id | id in s.apps ensures AppGrows(s.apps[id], n.apps[id]) {
      SameAppGrows(s.apps[id]);
    }
    forall u, id | u in n.installs && id in n.installs[u]
      ensures id in n.apps && n.installs[u][id].version in n.apps[id].releases
    {
      VersionStays(s.apps[id], n.apps[id], n.installs[u][id].version);
    }
  }

  // ---- single requests ----

  /** A new or changed release, with the pointers refreshed. */
  lemma ReleaseStored(app: App, version: Version, release: Release, changed: App)
    requires forall v :: v in app.releases ==> ReleaseGood(app.releases[v])
    requires "" !in app.releases && version != "" && ReleaseGood(release)
    requires version in app.releases ==> SameRelease(app.releases[version], release)
    requires changed.releases == app.releases[version := release] && changed.owner == app.owner
    ensures AppGood(Refreshed(changed)) && AppGrows(app, Refreshed(changed))
  {
  }

  lemma RegisterGood(s: State, r: Request)
    requires WellFormed(s) && Good(s) && r.Registering? && Handle(s, r).Ok?
    ensures Good(Handle(s, r).value) && Grows(s, Handle(s, r).value)
  {
    hide Refreshed, PointersCorrect, SemVer, ReleaseGood, AppGrows, NewRelease;
    SemVerNotEmpty();
    var user := if r.caller == "" then "dev-bootstrap" else r.caller;
    var app := if r.m.appId in s.apps then s.apps[r.m.appId] else NewApp(r.m.appId, r.m.name, user, r.m.hidden, r.m.summary, r.now);
    if r.m.version in app.releases {
      NothingChanged(s);
    } else {
      var release := NewRelease(r.m, Some(Sha256(r.m)), InitialStatus(r.m.source), app.hidden, user, r.now);
      NewReleaseGood(r.m, Some(Sha256(r.m)), InitialStatus(r.m.source), app.hidden, user, r.now);
      var changed := app.(releases := app.releases[r.m.version := release], name := r.m.name, summary := r.m.summary, updatedAt := r.now);
      ReleaseStored(app, r.m.version, release, changed);
      WithAppGood(s, Refreshed(changed));
    }
  }

  lemma NothingChanged(s: State)
    ensures Grows(s, s)
  {
  }

  lemma NewReleaseGood(m: Manifest, hash: Option<Digest>, status: Status, hidden: bool, publisher: UserId, now: Time)
    requires hash == None || hash == Some(Sha256(m))
    ensures ReleaseGood(NewRelease(m, hash, status, hidden, publisher, now))
  {
  }

  lemma CreateReleaseGood(s: State, r: Request)
    requires WellFormed(s) && Good(s) && r.CreatingRelease? && Handle(s, r).Ok?
    ensures Good(Handle(s, r).value) && Grows(s, Handle(s, r).value)
  {
    hide Refreshed, PointersCorrect, SemVer, ReleaseGood, AppGrows, NewRelease;
    SemVerNotEmpty();
    var app := s.apps[r.appId];
    var release := NewRelease(r.m, None, Draft, app.hidden, r.user, r.now);
    NewReleaseGood(r.m, None, Draft, app.hidden, r.user, r.now);
    var changed := app.(releases := app.releases[r.m.version := release], updatedAt := r.now);
    ReleaseStored(app, r.m.version, release, changed);
    WithAppGood(s, Refreshed(changed));
  }

  lemma CreateAppGood(s: State, r: Request)
    requires WellFormed(s) && Good(s) && r.CreatingApp? && Handle(s, r).Ok?
    ensures Good(Handle(s, r).value) && Grows(s, Handle(s, r).value)
  {
    hide AppGrows, AppGood, Good, Grows;
    NewAppGood(r);
    WithAppGood(s, NewApp(r.appId, r.name, r.user, r.hidden, r.summary, r.now));
  }

  lemma NewAppGood(r: Request)
    requires r.CreatingApp?
    ensures AppGood(NewApp(r.appId, r.name, r.user, r.hidden, r.summary, r.now))
  {
  }

  lemma ReviewGood(s: State, r: Request)
    requires WellFormed(s) && Good(s) && r.Reviewing? && Handle(s, r).Ok?
    ensures Good(Handle(s, r).value) && Grows(s, Handle(s, r).value)
  {
    hide Refreshed, PointersCorrect, ReleaseGood, AppGrows, Reviewed, Marked, SameRelease;
    var app := s.apps[r.appId];
    var release := app.releases[r.version];
    var reviewed := WithRelease(app, r.version, release.(columns := Reviewed(release.columns, r.next, r.note, r.now)));
    ReviewedGood(release, r.next, r.note, r.now, reviewed, r.version, r.previous);
    var marked := Marked(reviewed, r.version, r.next, r.previous);
    var changed := WithRelease(reviewed, r.version, marked).(updatedAt := r.now);
    assert reviewed.releases[r.version := marked] == app.releases[r.version := marked];
    ReleaseStored(app, r.version, marked, changed);
    WithAppGood(s, Refreshed(changed));
  }

  lemma ReviewedGood(release: Release, next: Status, note: string, now: Time, app: App, version: Version, previous: Option<Version>)
    requires ReleaseGood(release)
    requires version in app.releases && app.releases[version] == release.(columns := Reviewed(release.columns, next, note, now))
    ensures ReleaseGood(Marked(app, version, next, previous)) && SameRelease(release, Marked(app, version, next, previous))
  {
    MarkedColumns(app, version, next, previous);
    hide Marked;
    ReviewedColumns(release.columns, next, note, now);
  }

  /** A review changes none of the columns an approval is bound to. */
  lemma ReviewedColumns(c: Columns, next: Status, note: string, now: Time)
    ensures var d := Reviewed(c, next, note, now);
            && d.manifest == c.manifest && d.manifestHash == c.manifestHash && d.contentHash == c.contentHash
            && d.publisher == c.publisher && d.createdAt == c.createdAt && AssetSetOf(d) == AssetSetOf(c)
            && d.suspendedAt == c.suspendedAt && d.suspensionReason == c.suspensionReason
            && (next == Approved ==> d.immutableAt.Some? && d.assetSet == Some(AssetSetOf(c)) && d.publishedAt.Some?)
            && (next != Approved ==> d.immutableAt == c.immutableAt && d.assetSet == c.assetSet && d.publishedAt == c.publishedAt
                                     && (d.status == Approved ==> c.status == Approved))
  {
  }

  lemma SameAppsGrow(s: State, installs: map<UserId, map<AppId, Install>>)
    ensures Grows(s, s.(installs := installs))
  {
    hide AppGrows;
    forall id | id in s.apps ensures AppGrows(s.apps[id], s.apps[id]) {
      SameAppGrows(s.apps[id]);
    }
  }

  lemma InstallGood(s: State, r: Request)
    requires WellFormed(s) && Good(s) && Possible(s, r) && (r.Installing? || r.Uninstalling?) && Handle(s, r).Ok?
    ensures Good(Handle(s, r).value) && Grows(s, Handle(s, r).value)
  {
    hide AppGood, AddedPermissions, Grows, Refreshed, PointersCorrect, WellFormedApp, MayBeLatest;
    SameAppsGrow(s, Handle(s, r).value.installs);
  }

  lemma StepGood(s: State, r: Request)
    requires WellFormed(s) && Good(s) && Possible(s, r) && Handle(s, r).Ok?
    ensures Good(Handle(s, r).value) && Grows(s, Handle(s, r).value)
  {
    hide Handle, Good, Grows, Possible, WellFormed;
    match r
    case Registering(_, _, _, _) => RegisterGood(s, r);
    case CreatingApp(_, _, _, _, _, _) => CreateAppGood(s, r);
    case CreatingRelease(_, _, _, _, _) => CreateReleaseGood(s, r);
    case Reviewing(_, _, _, _, _, _, _, _) => ReviewGood(s, r);
    case Installing(_, _, _, _, _) => InstallGood(s, r);
    case Uninstalling(_, _) => InstallGood(s, r);
  }

  lemma GrowsTrans(a: State, b: State, c: State)
    requires Grows(a, b) && Grows(b, c)
    ensures Grows(a, c)
  {
  }

  // ---- whole runs ----

  lemma {:induction false} AlwaysGood(requests: seq<Request>, k: nat)
    requires k <= |requests| && IsRun(requests, k)
    ensures Good(After(requests, k))
  {
    hide Good, Handle, Possible, WellFormed, Grows, Normalized;
    if k == 0 {
      EmptyGood();
    } else {
      AlwaysGood(requests, k - 1);
      var s := After(requests, k - 1);
      if Handle(s, requests[k - 1]).Ok? {
        HandledWellFormed(s, requests[k - 1]);
        StepGood(s, requests[k - 1]);
        NormalizedGood(Handle(s, requests[k - 1]).value);
      }
    }
  }

  lemma EmptyGood()
    ensures Good(State(map[], map[]))
  {
  }

  lemma StepGrows(requests: seq<Request>, k: nat)
    requires k < |requests| && IsRun(requests, k + 1)
    ensures Grows(After(requests, k), After(requests, k + 1))
  {
    hide Good, Handle, Possible, WellFormed, Grows, Normalized;
    AlwaysGood(requests, k);
    var s := After(requests, k);
    NothingChanged(s);
    if Handle(s, requests[k]).Ok? {
      var next := Handle(s, requests[k]).value;
      HandledWellFormed(s, requests[k]);
      StepGood(s, requests[k]);
      NormalizedGood(next);
      GrowsTrans(s, next, Normalized(next));
    }
  }

  /** Both version pointers of every app are right in every state that is loaded, and already in
      the state a request leaves before it is saved. */
  lemma PointersAlwaysCorrect(requests: seq<Request>, k: nat, r: Request, id: AppId)
    requires k <= |requests| && IsRun(requests, k) && Possible(After(requests, k), r)
    ensures id in After(requests, k).apps ==> PointersCorrect(After(requests, k).apps[id])
    ensures var result := Handle(After(requests, k), r);
            result.Ok? && id in result.value.apps ==> PointersCorrect(result.value.apps[id])
  {
    hide Handle, Possible, WellFormed, Grows, PointersCorrect, After;
    var s := After(requests, k);
    AlwaysGood(requests, k);
    if id in s.apps {
      assert AppGood(s.apps[id]);
    }
    if Handle(s, r).Ok? && id in Handle(s, r).value.apps {
      StepGood(s, r);
      assert AppGood(Handle(s, r).value.apps[id]);
    }
  }

  /** Apps and releases never vanish and a release keeps its manifest, digests and publisher. */
  lemma {:induction false} ReleasesNeverChange(requests: seq<Request>, j: nat, k: nat)
    requires j <= k <= |requests| && IsRun(requests, k)
    ensures Grows(After(requests, j), After(requests, k))
    decreases k
  {
    hide After, Grows;
    NothingChanged(After(requests, j));
    if j < k {
      ReleasesNeverChange(requests, j, k - 1);
      StepGrows(requests, k - 1);
      GrowsTrans(After(requests, j), After(requests, k - 1), After(requests, k));
    }
  }

  /** Every install names an existing release of an existing app. */
  lemma InstallsNameReleases(requests: seq<Request>, k: nat, u: UserId, id: AppId)
    requires k <= |requests| && IsRun(requests, k)
    requires id in InstallsOf(After(requests, k), u)
    ensures var s := After(requests, k);
            id in s.apps && s.installs[u][id].version in s.apps[id].releases
  {
    hide After;
    AlwaysGood(requests, k);
  }

  /** The immutability check at approval never fails: no request changes a stored manifest. */
  lemma ApprovalNeverBlocked(requests: seq<Request>, k: nat, r: Request)
    requires k <= |requests| && IsRun(requests, k) && r.Reviewing?
    ensures Handle(After(requests, k), r) != Err(ImmutabilityViolation)
  {
    hide After, Handle, Good, WellFormed;
    AlwaysGood(requests, k);
    GoodNotBlocked(After(requests, k), r);
  }

  lemma GoodNotBlocked(s: State, r: Request)
    requires WellFormed(s) && Good(s) && r.Reviewing?
    ensures Handle(s, r) != Err(ImmutabilityViolation)
  {
    hide Refreshed, Reviewed, Marked, Immutable, PointersCorrect, WellFormed;
    if r.appId in s.apps && r.version in s.apps[r.appId].releases {
      assert AppGood(s.apps[r.appId]) && ReleaseGood(s.apps[r.appId].releases[r.version]);
    }
  }

  lemma {:induction false} RunPrefix(requests: seq<Request>, j: nat, k: nat)
    requires j <= k <= |requests| && IsRun(requests, k)
    ensures IsRun(requests, j)
    decreases k
  {
    hide After;
    if j < k {
      RunPrefix(requests, j, k - 1);
    }
  }

  /** Every release a review has approved is bound to the digest of its own content and origins from
      then on, and no request ever fills in the suspension columns. */
  lemma ApprovedAssetsBound(requests: seq<Request>, j: nat, k: nat, id: AppId, v: Version)
    requires j <= k <= |requests| && IsRun(requests, k)
    requires id in After(requests, j).apps && v in After(requests, j).apps[id].releases
    ensures id in After(requests, k).apps && v in After(requests, k).apps[id].releases
    ensures var a, b := After(requests, j).apps[id].releases[v].columns, After(requests, k).apps[id].releases[v].columns;
            && AssetsBound(a) && AssetsBound(b)
            && (a.assetSet.Some? ==> b.assetSet == a.assetSet)
  {
    hide After, IsRun, AssetsBound, AssetSetOf;
    RunPrefix(requests, j, k);
    AlwaysGood(requests, j);
    AlwaysGood(requests, k);
    ReleasesNeverChange(requests, j, k);
    var a, b := After(requests, j).apps[id], After(requests, k).apps[id];
    assert AppGood(a) && AppGood(b) && AppGrows(a, b);
    assert ReleaseGood(a.releases[v]) && ReleaseGood(b.releases[v]) && SameRelease(a.releases[v], b.releases[v]);
    SameAssets(a.releases[v].columns, b.releases[v].columns);
  }

  lemma SameAssets(a: Columns, b: Columns)
    requires AssetsBound(a) && AssetsBound(b) && AssetSetOf(a) == AssetSetOf(b)
    requires a.immutableAt.Some? ==> b.immutableAt.Some?
    ensures a.assetSet.Some? ==> b.assetSet == a.assetSet
  {
  }

  // ---- consent ----

  /** The user has the app installed, in a release that exists. */
  predicate Holds(s: State, u: UserId, id: AppId) {
    && u in s.installs && id in s.installs[u]
    && id in s.apps && s.installs[u][id].version in s.apps[id].releases
  }

  /** What the installed release of an app may do. */
  function InstalledPermissions(s: State, u: UserId, id: AppId): set<string>
    requires Holds(s, u, id)
  {
    Permissions(s.apps[id].releases[s.installs[u][id].version].columns.manifest)
  }

  predicate Accepts(r: Request, u: UserId, id: AppId) {
    r.Installing? && r.user == u && r.appId == id && r.accept
  }

  /** One request, before its state is saved. */
  lemma ConsentStep(s: State, r: Request, u: UserId, id: AppId)
    requires WellFormed(s) && Good(s) && Possible(s, r) && Handle(s, r).Ok? && !Accepts(r, u, id)
    requires id in InstallsOf(s, u) && id in InstallsOf(Handle(s, r).value, u)
    ensures Holds(s, u, id) && Holds(Handle(s, r).value, u, id)
    ensures InstalledPermissions(Handle(s, r).value, u, id) <= InstalledPermissions(s, u, id)
  {
    hide Handle, Possible, WellFormed, Permissions, AppGood;
    StepGood(s, r);
    var n := Handle(s, r).value;
    assert AppGrows(s.apps[id], n.apps[id]);
    if r.Installing? {
      InstallConsent(s, r, u, id);
    } else {
      InstallStays(s, r, u, id);
    }
  }

  lemma InstallStays(s: State, r: Request, u: UserId, id: AppId)
    requires WellFormed(s) && Handle(s, r).Ok? && !r.Installing?
    requires id in InstallsOf(s, u) && id in InstallsOf(Handle(s, r).value, u)
    ensures Handle(s, r).value.installs[u][id] == s.installs[u][id]
  {
  }

  lemma InstallConsent(s: State, r: Request, u: UserId, id: AppId)
    requires WellFormed(s) && Good(s) && r.Installing? && Handle(s, r).Ok? && !Accepts(r, u, id)
    requires id in InstallsOf(s, u) && id in InstallsOf(Handle(s, r).value, u)
    ensures Holds(s, u, id) && Holds(Handle(s, r).value, u, id)
    ensures InstalledPermissions(Handle(s, r).value, u, id) <= InstalledPermissions(s, u, id)
  {
    hide Permissions, AppGood;
    var n := Handle(s, r).value;
    assert n.apps == s.apps;
    var before, now := s.apps[id].releases[s.installs[u][id].version], n.apps[id].releases[n.installs[u][id].version];
    if AddedPermissions(before.columns.manifest, now.columns.manifest) == {} {
      NothingAdded(before.columns.manifest, now.columns.manifest);
    }
  }

  lemma NothingAdded(a: Manifest, b: Manifest)
    requires AddedPermissions(a, b) == {}
    ensures Permissions(b) <= Permissions(a)
  {
    assert forall p :: p in Permissions(b) ==> p in Permissions(a) || p in AddedPermissions(a, b);
  }

  lemma SavedPermissions(s: State, u: UserId, id: AppId)
    requires WellFormed(s) && Good(s) && Holds(s, u, id)
    ensures Holds(Normalized(s), u, id)
    ensures InstalledPermissions(Normalized(s), u, id) == InstalledPermissions(s, u, id)
  {
    hide AppGood, Normalized;
    NormalizedGood(s);
    assert InstallsOf(Normalized(s), u) == InstallsOf(s, u);
    assert AppGrows(s.apps[id], Normalized(s).apps[id]);
  }

  /** Between two moments at which a user has an app installed, with no uninstall in between and
      no install that accepted permission changes, the installed permissions never grow. */
  lemma {:induction false} ConsentSafety(requests: seq<Request>, j: nat, k: nat, u: UserId, id: AppId)
    requires j <= k <= |requests| && IsRun(requests, k)
    requires forall i :: j <= i <= k ==> id in InstallsOf(After(requests, i), u)
    requires forall i :: j <= i < k ==> !Accepts(requests[i], u, id)
    ensures Holds(After(requests, j), u, id) && Holds(After(requests, k), u, id)
    ensures InstalledPermissions(After(requests, k), u, id) <= InstalledPermissions(After(requests, j), u, id)
    decreases k
  {
    hide Good, Handle, Possible, WellFormed, Normalized, InstalledPermissions;
    InstallsNameReleases(requests, k, u, id);
    if j < k {
      ConsentSafety(requests, j, k - 1, u, id);
      var s, r := After(requests, k - 1), requests[k - 1];
      AlwaysGood(requests, k - 1);
      if Handle(s, r).Ok? {
        HandledWellFormed(s, r);
        StepGood(s, r);
        NormalizedGood(Handle(s, r).value);
        ConsentStep(s, r, u, id);
        SavedPermissions(Handle(s, r).value, u, id);
      }
    }
  }

  /** An install request of a known user ends on the release with the latest publication time
      among the approved ones, or leaves the user's install as it was; the latter exactly when the
      update would add a permission that the request does not accept. */
  lemma InstallPicksNewest(requests: seq<Request>, k: nat, r: Request)
    requires k <= |requests| && IsRun(requests, k) && Possible(After(requests, k), r)
    requires r.Installing? && Handle(After(requests, k), r).Ok?
    ensures var s, n := After(requests, k), Handle(After(requests, k), r).value;
            && r.appId in s.apps && r.choice.Some? && r.choice.value in s.apps[r.appId].releases
            && var releases := s.apps[r.appId].releases;
            && var held := r.appId in InstallsOf(s, r.user)
                           && NeedsConsent(s.apps[r.appId], s.installs[r.user][r.appId], r.choice.value) && !r.accept;
            && (held ==> InstallsOf(n, r.user) == InstallsOf(s, r.user))
            && (!held ==>
                  && n.installs[r.user][r.appId].version == r.choice.value && n.installs[r.user][r.appId].enabled
                  && forall v :: v in releases && releases[v].columns.status == Approved ==>
                       && releases[v].columns.publishedAt.Some? && releases[r.choice.value].columns.publishedAt.Some?
                       && releases[v].columns.publishedAt.value <= releases[r.choice.value].columns.publishedAt.value)
  {
    hide After, AddedPermissions, PointersCorrect;
    AlwaysGood(requests, k);
    var s := After(requests, k);
    assert AppGood(s.apps[r.appId]);
    var releases := s.apps[r.appId].releases;
    forall v | v in releases && releases[v].columns.status == Approved
      ensures releases[v].columns.publishedAt.Some? && v in ApprovedVersions(s.apps[r.appId])
    {
      assert ReleaseGood(releases[v]);
    }
  }

  /** The release an accepted install of the app by the user ends on, for one result of the search. */
  predicate InstallsVersion(s: State, user: UserId, appId: AppId, choice: Option<Version>, now: Time, v: Version) {
    var result := InstallApp(s, user, appId, true, choice, now);
    && result.Ok? && user in result.value.installs && appId in result.value.installs[user]
    && result.value.installs[user][appId].version == v
  }

  /** The store page names the greatest approved version and an install takes the one published last.
      An accepted install can end on the version named if and only if none was published later, and is
      sure to, whatever the search returns, if and only if every other was published earlier. */
  lemma InstallsGreatest(requests: seq<Request>, k: nat, user: UserId, appId: AppId, now: Time)
    requires k <= |requests| && IsRun(requests, k) && user != "" && appId in After(requests, k).apps
    requires ApprovedVersions(After(requests, k).apps[appId]) != {}
    ensures var s := After(requests, k);
            var app := s.apps[appId];
            var top := app.latestApproved;
            && AllPublished(app) && top in ApprovedVersions(app)
            && ((exists choice :: MayBeLatest(app, choice) && InstallsVersion(s, user, appId, choice, now, top))
                <==> PublishedLast(app, top))
            && ((forall choice :: MayBeLatest(app, choice) ==> InstallsVersion(s, user, appId, choice, now, top))
                <==> PublishedAfterAll(app, top))
  {
    hide After, IsRun, InstallApp;
    AlwaysGood(requests, k);
    var s := After(requests, k);
    var app := s.apps[appId];
    AppPublished(s, appId);
    hide Good;
    var top := app.latestApproved;
    SearchResults(app);
    forall choice | MayBeLatest(app, choice)
      ensures InstallsVersion(s, user, appId, choice, now, top) <==> choice == Some(top)
    {
      ChoiceInstalled(s, user, appId, choice, now, top);
    }
    OnlyResult(app, top);
    hide InstallsVersion, MayBeLatest, PublishedLast, PublishedAfterAll;
    if PublishedLast(app, top) {
      assert MayBeLatest(app, Some(top));
    }
  }

  lemma AppPublished(s: State, appId: AppId)
    requires Good(s) && appId in s.apps
    ensures AllPublished(s.apps[appId])
    ensures ApprovedVersions(s.apps[appId]) != {} ==> s.apps[appId].latestApproved in ApprovedVersions(s.apps[appId])
  {
    var app := s.apps[appId];
    assert AppGood(app);
    forall v | v in ApprovedVersions(app) ensures app.releases[v].columns.publishedAt.Some? {
      assert ReleaseGood(app.releases[v]);
    }
  }

  predicate AllPublished(app: App) {
    forall v :: v in ApprovedVersions(app) ==> app.releases[v].columns.publishedAt.Some?
  }

  predicate PublishedLast(app: App, v: Version)
    requires AllPublished(app) && v in ApprovedVersions(app)
  {
    forall u :: u in ApprovedVersions(app) ==>
      app.releases[u].columns.publishedAt.value <= app.releases[v].columns.publishedAt.value
  }

  lemma SearchResults(app: App)
    requires AllPublished(app) && ApprovedVersions(app) != {}
    ensures forall choice :: MayBeLatest(app, choice)
                             <==> choice.Some? && choice.value in ApprovedVersions(app) && PublishedLast(app, choice.value)
  {
  }

  lemma ChoiceInstalled(s: State, user: UserId, appId: AppId, choice: Option<Version>, now: Time, v: Version)
    requires user != "" && appId in s.apps && choice.Some? && choice.value in s.apps[appId].releases
    ensures InstallsVersion(s, user, appId, choice, now, v) <==> choice == Some(v)
  {
  }

  predicate PublishedAfterAll(app: App, v: Version)
    requires AllPublished(app) && v in ApprovedVersions(app)
  {
    forall u :: u in ApprovedVersions(app) && u != v ==>
      app.releases[u].columns.publishedAt.value < app.releases[v].columns.publishedAt.value
  }

  ghost predicate OnlyFound(app: App, v: Version) {
    forall choice :: MayBeLatest(app, choice) ==> choice == Some(v)
  }

  /** Some release was published last, so a version is the only result of the search if and only if all
      others were published before it. */
  lemma OnlyResult(app: App, v: Version)
    requires AllPublished(app) && v in ApprovedVersions(app)
    ensures OnlyFound(app, v) <==> PublishedAfterAll(app, v)
  {
    hide OnlyFound, PublishedAfterAll;
    if OnlyFound(app, v) {
      OnlyOneFound(app, v);
    }
    if PublishedAfterAll(app, v) {
      NoOtherFound(app, v);
    }
  }

  lemma OnlyOneFound(app: App, v: Version)
    requires AllPublished(app) && v in ApprovedVersions(app) && OnlyFound(app, v)
    ensures PublishedAfterAll(app, v)
  {
    SearchResults(app);
    hide MayBeLatest;
    var last := LastPublished(app, ApprovedVersions(app));
    assert PublishedLast(app, last) && MayBeLatest(app, Some(last));
    forall u | u in ApprovedVersions(app) && u != v
      ensures app.releases[u].columns.publishedAt.value < app.releases[v].columns.publishedAt.value
    {
      assert !MayBeLatest(app, Some(u)) && !PublishedLast(app, u);
    }
  }

  lemma NoOtherFound(app: App, v: Version)
    requires AllPublished(app) && v in ApprovedVersions(app) && PublishedAfterAll(app, v)
    ensures OnlyFound(app, v)
  {
    SearchResults(app);
    hide MayBeLatest;
    forall choice | MayBeLatest(app, choice) ensures choice == Some(v) {
      assert choice.value in ApprovedVersions(app) && PublishedLast(app, choice.value);
      assert app.releases[v].columns.publishedAt.value <= app.releases[choice.value].columns.publishedAt.value;
    }
  }

  lemma {:induction false} LastPublished(app: App, vs: set<Version>) returns (last: Version)
    requires AllPublished(app) && vs <= ApprovedVersions(app) && vs != {}
    ensures last in vs
    ensures forall u :: u in vs ==> app.releases[u].columns.publishedAt.value <= app.releases[last].columns.publishedAt.value
    decreases |vs|
  {
    last :| last in vs;
    var rest := vs - {last};
    assert forall u :: u in vs ==> u == last || u in rest;
    if rest != {} {
      var other := LastPublished(app, rest);
      if app.releases[other].columns.publishedAt.value > app.releases[last].columns.publishedAt.value {
        last := other;
      }
    }
  }

  // ---- a run in which an install does not take the greatest version ----

  /** The app of two manifests that were approved as they were registered, at two moments. */
  predicate HoldsTwo(s: State, a: Manifest, b: Manifest, owner: UserId, first: Time, second: Time) {
    && s.installs == map[] && a.appId in s.apps && s.apps[a.appId].owner == owner
    && s.apps[a.appId].releases == map[a.version := NewRelease(a, Some(Sha256(a)), Approved, a.hidden, owner, first),
                                       b.version := NewRelease(b, Some(Sha256(b)), Approved, a.hidden, owner, second)]
  }

  predicate HoldsOne(s: State, a: Manifest, owner: UserId, first: Time) {
    && s.installs == map[] && a.appId in s.apps && s.apps[a.appId].owner == owner && s.apps[a.appId].hidden == a.hidden
    && s.apps[a.appId].releases == map[a.version := NewRelease(a, Some(Sha256(a)), Approved, a.hidden, owner, first)]
  }

  lemma OneRegistered(s: State, a: Manifest, owner: UserId, first: Time)
    requires s == State(map[], map[]) && ValidManifest(a) && a.source == Dev && owner != ""
    ensures Register(s, owner, false, a, first).Ok? && HoldsOne(Register(s, owner, false, a, first).value, a, owner, first)
  {
    hide SemVer, PointersCorrect;
  }

  lemma TwoRegistered(s: State, a: Manifest, b: Manifest, owner: UserId, first: Time, second: Time)
    requires WellFormed(s) && HoldsOne(s, a, owner, first)
    requires ValidManifest(b) && b.source == Dev && owner != "" && a.appId == b.appId && a.version != b.version
    ensures Register(s, owner, false, b, second).Ok?
    ensures HoldsTwo(Register(s, owner, false, b, second).value, a, b, owner, first, second)
  {
    hide SemVer, PointersCorrect;
    var releases := s.apps[a.appId].releases;
    assert releases[b.version := NewRelease(b, Some(Sha256(b)), Approved, a.hidden, owner, second)]
        == map[a.version := releases[a.version], b.version := NewRelease(b, Some(Sha256(b)), Approved, a.hidden, owner, second)];
  }

  lemma LoadedApp(s: State, id: AppId)
    requires WellFormed(s) && id in s.apps
    ensures id in Normalized(s).apps && Normalized(s).apps[id] == Refreshed(StoredApp(s.apps[id]))
  {
  }

  lemma LoadedAgain(s: State, a: Manifest, b: Manifest, owner: UserId, first: Time, second: Time)
    requires WellFormed(s)
    ensures HoldsOne(s, a, owner, first) ==> HoldsOne(Normalized(s), a, owner, first)
    ensures HoldsTwo(s, a, b, owner, first, second) ==> HoldsTwo(Normalized(s), a, b, owner, first, second)
  {
    hide PointersCorrect, WellFormed, Normalized, NewRelease;
    NewUnmarked(a, a.hidden, owner, first);
    NewUnmarked(b, a.hidden, owner, second);
    if HoldsOne(s, a, owner, first) || HoldsTwo(s, a, b, owner, first, second) {
      LoadedApp(s, a.appId);
      LoadedInstalls(s);
      StoredUnmarked(s.apps[a.appId]);
    }
  }

  lemma LoadedInstalls(s: State)
    requires WellFormed(s) && s.installs == map[]
    ensures Normalized(s).installs == map[]
  {
  }

  lemma StoredUnmarked(app: App)
    requires forall v :: v in app.releases ==> !app.releases[v].requiresReconsent && app.releases[v].previousPermissions == []
    ensures StoredApp(app).releases == app.releases
  {
  }

  lemma NewUnmarked(m: Manifest, hidden: bool, owner: UserId, now: Time)
    ensures var r := NewRelease(m, Some(Sha256(m)), Approved, hidden, owner, now);
            !r.requiresReconsent && r.previousPermissions == []
  {
  }

  lemma RunNext(requests: seq<Request>, k: nat)
    requires k < |requests|
    ensures Handle(After(requests, k), requests[k]).Ok? ==>
              && WellFormed(Handle(After(requests, k), requests[k]).value)
              && After(requests, k + 1) == Normalized(Handle(After(requests, k), requests[k]).value)
  {
    hide Handle, WellFormed;
    if Handle(After(requests, k), requests[k]).Ok? {
      HandledWellFormed(After(requests, k), requests[k]);
    }
  }

  /** Register a greater version first and a smaller one later, both approved as they come: the page
      names the greater one, and every install takes the smaller. */
  lemma LaterBackport(a: Manifest, b: Manifest, owner: UserId, user: UserId, first: Time, second: Time, now: Time)
    requires ValidManifest(a) && ValidManifest(b) && a.source == Dev && b.source == Dev && a.appId == b.appId
    requires Greater(a.version, b.version) && a.version != b.version && first < second && owner != "" && user != ""
    ensures var requests := [Registering(owner, false, a, first), Registering(owner, false, b, second)];
            var s := After(requests, 2);
            && IsRun(requests, 2) && a.appId in s.apps
            && s.apps[a.appId].latestApproved == a.version
            && forall choice :: MayBeLatest(s.apps[a.appId], choice) ==>
                 InstallsVersion(s, user, a.appId, choice, now, b.version)
  {
    var requests := [Registering(owner, false, a, first), Registering(owner, false, b, second)];
    assert IsRun(requests, 0) && IsRun(requests, 1) && IsRun(requests, 2);
    assert After(requests, 0) == State(map[], map[]);
    hide After, IsRun, Register, SemVer, Greater, Normalized, PointersCorrect, InstallsVersion;
    RunNext(requests, 0);
    OneRegistered(After(requests, 0), a, owner, first);
    LoadedAgain(Register(After(requests, 0), owner, false, a, first).value, a, b, owner, first, second);
    RunNext(requests, 1);
    TwoRegistered(After(requests, 1), a, b, owner, first, second);
    LoadedAgain(Register(After(requests, 1), owner, false, b, second).value, a, b, owner, first, second);
    var s := After(requests, 2);
    BackportFound(s, a, b, owner, first, second);
    PointersAlwaysCorrect(requests, 2, Uninstalling(user, a.appId), a.appId);
    TopOfTwo(s.apps[a.appId], a.version, b.version);
    forall choice | MayBeLatest(s.apps[a.appId], choice)
      ensures InstallsVersion(s, user, a.appId, choice, now, b.version)
    {
      ChoiceInstalled(s, user, a.appId, choice, now, b.version);
    }
  }

  lemma BackportFound(s: State, a: Manifest, b: Manifest, owner: UserId, first: Time, second: Time)
    requires HoldsTwo(s, a, b, owner, first, second) && a.version != b.version && first < second
    ensures ApprovedVersions(s.apps[a.appId]) == {a.version, b.version} && b.version in s.apps[a.appId].releases
    ensures forall choice :: MayBeLatest(s.apps[a.appId], choice) <==> choice == Some(b.version)
  {
  }

  lemma TopOfTwo(app: App, v: Version, w: Version)
    requires PointersCorrect(app) && ApprovedVersions(app) == {v, w} && Greater(v, w)
    ensures app.latestApproved == v
  {
    hide Greater;
    assert IsMaximum(v, {v, w});
    LatestIsUnique(v, {v, w});
  }
}
