/** What a review does to a release, who may do it, and what follows for installs. */
module ReviewGuarantees {
  import opened Options
  import opened Versions
  import opened Registry
  import opened RegistryGuarantees

  // ---- one review ----

  /** The columns of a release before and after a review: the status is the one asked for, and each
      moment and the note are written by the reviews they belong to and by no other. */
  ghost predicate ReviewedAs(before: Columns, after: Columns, next: Status, note: string, now: Time) {
    var judged := next in {UnderReview, NeedsChanges, Rejected, Suspended};
    && after == before.(status := after.status, submittedAt := after.submittedAt, reviewedAt := after.reviewedAt,
                        publishedAt := after.publishedAt, revokedAt := after.revokedAt, note := after.note,
                        immutableAt := after.immutableAt, assetSet := after.assetSet)
    && after.status == next
    && after.submittedAt == (if next == Submitted then Some(now) else before.submittedAt)
    && after.reviewedAt == (if judged || next == Approved then Some(now) else before.reviewedAt)
    && after.publishedAt == (if next == Approved then Some(now) else before.publishedAt)
    && after.revokedAt == (if next == Revoked then Some(now) else if next == Approved then None else before.revokedAt)
    && after.note == (if judged then note else before.note)
    && after.immutableAt == (if next == Approved then Some(now) else before.immutableAt)
    && (if next == Approved then
          && after.assetSet.Some? && after.assetSet.value.contentHash == before.contentHash
          && (forall o :: after.assetSet.value.origins[o]
                == (if o != "" && o == before.entrypointOrigin then 1 else 0) + (if o != "" && o == before.previewOrigin then 1 else 0))
        else after.assetSet == before.assetSet)
  }

  lemma ReviewColumns(c: Columns, next: Status, note: string, now: Time)
    requires next != Draft
    ensures ReviewedAs(c, Reviewed(c, next, note, now), next, note, now)
  {
  }

  /** Everything but the app is as before. */
  ghost predicate OnlyApp(s: State, n: State, appId: AppId) {
    && n.installs == s.installs && n.apps.Keys == s.apps.Keys + {appId}
    && forall id :: id in s.apps && id != appId ==> n.apps[id] == s.apps[id]
  }

  /** The columns of one release are reviewed, and everything else in the app stays but for the pointers
      and the update time. */
  ghost predicate OnlyReviewed(a: App, b: App, version: Version, next: Status, note: string, now: Time) {
    && b == a.(releases := b.releases, latestVersion := b.latestVersion, latestApproved := b.latestApproved, updatedAt := now)
    && b.releases.Keys == a.releases.Keys && version in a.releases
    && (forall v :: v in a.releases && v != version ==> b.releases[v] == a.releases[v])
    && ReviewedAs(a.releases[version].columns, b.releases[version].columns, next, note, now)
  }

  /** A review request succeeds if and only if the user is known, the release exists, the step is not
      back to draft, the user is an administrator or submits or revokes an app of their own, and, for an
      approval, the manifest still has the digest it was registered with. */
  lemma ReviewAllowed(s: State, user: UserId, admin: bool, appId: AppId, version: Version, next: Status, note: string,
                      previous: Option<Version>, now: Time)
    requires WellFormed(s)
    ensures Transition(s, user, admin, appId, version, next, note, previous, now).Ok?
       <==> && user != "" && appId in s.apps && version in s.apps[appId].releases && next != Draft
            && (admin || (s.apps[appId].owner == user && next in {Submitted, Revoked}))
            && (next == Approved ==>
                  var c := s.apps[appId].releases[version].columns;
                  c.contentHash.Some? ==> c.contentHash.value == Sha256(c.manifest))
  {
    hide Refreshed, PointersCorrect, Marked, Reviewed, WellFormedApp;
    if appId in s.apps {
      NoEmptyRelease(s, appId);
    }
  }

  lemma NoEmptyRelease(s: State, appId: AppId)
    requires WellFormed(s) && appId in s.apps
    ensures "" !in s.apps[appId].releases && s.apps[appId].appId == appId
  {
    assert WellFormedApp(appId, s.apps[appId]);
  }

  lemma RefreshedFields(app: App)
    requires "" !in app.releases
    ensures Refreshed(app) == app.(latestVersion := Refreshed(app).latestVersion, latestApproved := Refreshed(app).latestApproved)
  {
  }

  lemma AppStored(s: State, app: App)
    ensures OnlyApp(s, WithApp(s, app), app.appId) && WithApp(s, app).apps[app.appId] == app
  {
  }

  /** Then that release is reviewed as asked and nothing else changes. */
  lemma ReviewEffect(s: State, user: UserId, admin: bool, appId: AppId, version: Version, next: Status, note: string,
                     previous: Option<Version>, now: Time)
    requires WellFormed(s) && Transition(s, user, admin, appId, version, next, note, previous, now).Ok?
    ensures var n := Transition(s, user, admin, appId, version, next, note, previous, now).value;
            && appId in s.apps && OnlyApp(s, n, appId) && OnlyReviewed(s.apps[appId], n.apps[appId], version, next, note, now)
  {
    hide PointersCorrect, Marked, Reviewed, ReviewedAs, WellFormedApp, Immutable;
    NoEmptyRelease(s, appId);
    var app := s.apps[appId];
    var c := app.releases[version].columns;
    ReviewColumns(c, next, note, now);
    MarkedColumns(WithRelease(app, version, app.releases[version].(columns := Reviewed(c, next, note, now))), version, next, previous);
  }

  // ---- versions and permissions ----

  predicate Digits(s: string) {
    s != "" && forall i :: 0 <= i < |s| ==> '0' <= s[i] <= '9'
  }

  predicate PrereleaseChar(c: char) {
    '0' <= c <= '9' || 'a' <= c <= 'z' || 'A' <= c <= 'Z' || c in {'.', '-'}
  }

  /** Nothing, or a dash and at least one letter, digit, dot or dash. */
  predicate Prerelease(s: string) {
    s == "" || (s[0] == '-' && |s| > 1 && forall i :: 1 <= i < |s| ==> PrereleaseChar(s[i]))
  }

  /** Everything of this form is a version, and every version has it. */
  lemma SemVerForm(x: string, y: string, z: string, suffix: string)
    requires Digits(x) && Digits(y) && Digits(z) && Prerelease(suffix)
    ensures SemVer(x + "." + y + "." + z + suffix)
  {
    hide RunEnd;
    var v := x + "." + y + "." + z + suffix;
    var a, b, c := |x|, |x| + 1 + |y|, |x| + 1 + |y| + 1 + |z|;
    assert forall i :: 0 <= i < a ==> v[i] == x[i];
    assert forall i :: a < i < b ==> v[i] == y[i - a - 1];
    assert forall i :: b < i < c ==> v[i] == z[i - b - 1];
    assert forall i :: c <= i < |v| ==> v[i] == suffix[i - c];
    RunEnds(v, 0, a);
    RunEnds(v, a + 1, b);
    RunEnds(v, b + 1, c);
  }

  lemma SemVerParts(v: Version) returns (x: string, y: string, z: string, suffix: string)
    requires SemVer(v)
    ensures Digits(x) && Digits(y) && Digits(z) && Prerelease(suffix) && v == x + "." + y + "." + z + suffix
  {
    hide RunEnd;
    var a := RunEnd(v, 0);
    var b := RunEnd(v, a + 1);
    var c := RunEnd(v, b + 1);
    x, y, z, suffix := v[..a], v[a + 1..b], v[b + 1..c], v[c..];
  }

  /** What the re-consent check calls an expansion of a permission list: a longer list with something new in
      it. So one permission exchanged for another goes unnoticed. */
  lemma ExpansionExactly(before: seq<string>, now: seq<string>)
    ensures IsPermissionExpansion(before, now) <==> |before| < |now| && exists p :: p in now && p !in before
    ensures forall p, q :: p != q ==> !IsPermissionExpansion([p], [q])
  {
    if p :| p in now && p !in before {
      var i :| 0 <= i < |now| && now[i] == p;
    }
  }

  /** A review changes the re-consent mark only when it approves and the search found another release of
      whose permissions the new ones are an expansion; the mark then remembers those permissions. */
  lemma MarkExactly(app: App, version: Version, next: Status, previous: Option<Version>)
    requires version in app.releases
    ensures var before, after := app.releases[version], Marked(app, version, next, previous);
            var expands := && next == Approved && previous.Some? && previous.value != version && previous.value in app.releases
                           && IsPermissionExpansion(app.releases[previous.value].columns.manifest.permissions,
                                                    before.columns.manifest.permissions);
            && after.columns == before.columns
            && (after.requiresReconsent <==> before.requiresReconsent || expands)
            && after.previousPermissions
               == if expands then app.releases[previous.value].columns.manifest.permissions else before.previousPermissions
  {
  }

  // ---- the other requests ----

  /** What a release starts with. */
  predicate StartsAs(r: Release, m: Manifest, contentHash: Option<Digest>, status: Status, hidden: bool, publisher: UserId, now: Time) {
    var c := r.columns;
    && !r.requiresReconsent && r.previousPermissions == []
    && c.version == m.version && c.manifest == m && c.manifestHash == Sha256(m) && c.contentHash == contentHash
    && c.status == status && c.note == "" && c.source == m.source && c.hidden == hidden && c.publisher == publisher
    && c.platforms == m.platforms && c.entrypointOrigin == m.entrypointOrigin && c.previewOrigin == m.previewOrigin
    && c.createdAt == now && c.submittedAt.None? && c.revokedAt.None? && c.immutableAt.None? && c.assetSet.None?
    && c.suspendedAt.None? && c.suspensionReason == ""
    && c.publishedAt == (if status == Approved then Some(now) else None)
    && c.reviewedAt == (if status == Approved then Some(now) else None)
  }

  /** One more release in the app and nothing else changed, but for what `b` is allowed to change of the app. */
  predicate OneMore(a: App, b: App, version: Version) {
    && b.appId == a.appId && b.owner == a.owner && b.hidden == a.hidden && b.createdAt == a.createdAt
    && b.releases.Keys == a.releases.Keys + {version}
    && forall v :: v in a.releases && v != version ==> b.releases[v] == a.releases[v]
  }

  /** Registering a manifest succeeds if and only if the manifest is valid, the app is new or the user's
      own (or the user an administrator), and the version is new or registered with the same content. */
  lemma RegisterAllowed(s: State, caller: UserId, admin: bool, m: Manifest, now: Time)
    requires WellFormed(s)
    ensures var user := if caller == "" then "dev-bootstrap" else caller;
            (Register(s, caller, admin, m, now).Ok?
             <==> && m.appId != "" && m.name != "" && SemVer(m.version)
                  && (m.appId in s.apps ==> s.apps[m.appId].owner == user || admin)
                  && (m.appId in s.apps && m.version in s.apps[m.appId].releases ==>
                        s.apps[m.appId].releases[m.version].columns.manifestHash == Sha256(m)))
  {
    hide Refreshed, PointersCorrect, SemVer, WellFormedApp;
    EmptyIsNoVersion(m.version);
    if m.appId in s.apps {
      NoEmptyRelease(s, m.appId);
    }
  }

  lemma EmptyIsNoVersion(v: Version)
    ensures SemVer(v) ==> v != ""
  {
  }

  /** The same content again changes nothing. Otherwise the release is added, approved at once if and only
      if it comes from development, and the app takes its name and summary from the manifest. */
  lemma RegisterEffect(s: State, caller: UserId, admin: bool, m: Manifest, now: Time)
    requires WellFormed(s) && Register(s, caller, admin, m, now).Ok?
    ensures var user := if caller == "" then "dev-bootstrap" else caller;
            var n, known := Register(s, caller, admin, m, now).value, m.appId in s.apps;
            (if known && m.version in s.apps[m.appId].releases then n == s
             else && OnlyApp(s, n, m.appId)
                  && var b := n.apps[m.appId];
                  && b.name == m.name && b.summary == m.summary && b.updatedAt == now && m.version in b.releases
                  && (if known then OneMore(s.apps[m.appId], b, m.version)
                      else b.appId == m.appId && b.owner == user && b.hidden == m.hidden && b.createdAt == now
                           && b.releases.Keys == {m.version})
                  && StartsAs(b.releases[m.version], m, Some(Sha256(m)), if m.source == Dev then Approved else Draft,
                              b.hidden, user, now))
  {
    hide PointersCorrect, SemVer, WellFormedApp, StartsAs, NewRelease, Refreshed, OnlyApp, WithApp;
    EmptyIsNoVersion(m.version);
    var user := if caller == "" then "dev-bootstrap" else caller;
    var status := if m.source == Dev then Approved else Draft;
    if m.appId !in s.apps {
      var app := NewApp(m.appId, m.name, user, m.hidden, m.summary, now);
      var changed := app.(releases := map[m.version := NewRelease(m, Some(Sha256(m)), status, m.hidden, user, now)]);
      assert app.releases[m.version := changed.releases[m.version]] == changed.releases;
      RefreshedFields(changed);
      AppStored(s, Refreshed(changed));
      NewStartsAs(m, Some(Sha256(m)), status, m.hidden, user, now);
    } else if m.version !in s.apps[m.appId].releases {
      NoEmptyRelease(s, m.appId);
      var app := s.apps[m.appId];
      var release := NewRelease(m, Some(Sha256(m)), status, app.hidden, user, now);
      var changed := app.(releases := app.releases[m.version := release], name := m.name, summary := m.summary, updatedAt := now);
      RefreshedFields(changed);
      AppStored(s, Refreshed(changed));
      NewStartsAs(m, Some(Sha256(m)), status, app.hidden, user, now);
    }
  }

  lemma NewStartsAs(m: Manifest, contentHash: Option<Digest>, status: Status, hidden: bool, publisher: UserId, now: Time)
    ensures StartsAs(NewRelease(m, contentHash, status, hidden, publisher, now), m, contentHash, status, hidden, publisher, now)
  {
  }

  /** Creating an app succeeds for a known user with a name and an unused id. */
  lemma CreateAppExactly(s: State, user: UserId, appId: AppId, name: string, summary: string, hidden: bool, now: Time)
    ensures var result := CreateApp(s, user, appId, name, summary, hidden, now);
            && (result.Ok? <==> user != "" && appId != "" && name != "" && appId !in s.apps)
            && (result.Ok? ==>
                  var n := result.value;
                  && n.installs == s.installs && n.apps.Keys == s.apps.Keys + {appId}
                  && (forall id :: id in s.apps ==> n.apps[id] == s.apps[id])
                  && var b := n.apps[appId];
                  && b.appId == appId && b.name == name && b.owner == user && b.hidden == hidden && b.summary == summary
                  && b.createdAt == b.updatedAt == now && b.releases == map[] && b.latestVersion == b.latestApproved == "")
  {
  }

  /** Creating a release succeeds for the owner or an administrator with a valid manifest of the app and
      an unused version; it always starts as a draft without a content digest. */
  lemma CreateReleaseExactly(s: State, user: UserId, admin: bool, appId: AppId, m: Manifest, now: Time)
    requires WellFormed(s)
    ensures var result := CreateRelease(s, user, admin, appId, m, now);
            && (result.Ok? <==>
                  && user != "" && m.appId == appId && m.appId != "" && m.name != "" && SemVer(m.version) && appId in s.apps
                  && (s.apps[appId].owner == user || admin) && m.version !in s.apps[appId].releases)
            && (result.Ok? ==>
                  && OnlyApp(s, result.value, appId)
                  && var a, b := s.apps[appId], result.value.apps[appId];
                  && OneMore(a, b, m.version) && b.name == a.name && b.summary == a.summary && b.updatedAt == now
                  && m.version in b.releases && StartsAs(b.releases[m.version], m, None, Draft, a.hidden, user, now))
  {
    hide PointersCorrect, SemVer, WellFormedApp, StartsAs, NewRelease;
    EmptyIsNoVersion(m.version);
    if appId in s.apps {
      NoEmptyRelease(s, appId);
      NewStartsAs(m, None, Draft, s.apps[appId].hidden, user, now);
    }
  }

  /** The installs of every other user, and of this user for every other app, are as before. */
  ghost predicate OnlyInstall(s: State, n: State, user: UserId, appId: AppId) {
    && n.apps == s.apps
    && (forall u :: u != user ==> InstallsOf(n, u) == InstallsOf(s, u))
    && (forall id :: id != appId ==>
          && (id in InstallsOf(n, user) <==> id in InstallsOf(s, user))
          && (id in InstallsOf(n, user) ==> InstallsOf(n, user)[id] == InstallsOf(s, user)[id]))
  }

  /** Another existing release is installed, the one found asks for a permission that one does not have,
      and the user does not accept. */
  predicate HeldBack(s: State, user: UserId, appId: AppId, accept: bool, found: Version)
    requires appId in s.apps && found in s.apps[appId].releases
  {
    var mine, releases := InstallsOf(s, user), s.apps[appId].releases;
    && !accept && appId in mine && mine[appId].version in releases && mine[appId].version != found
    && exists p :: p in releases[found].columns.manifest.permissions && p != ""
                   && p !in releases[mine[appId].version].columns.manifest.permissions
  }

  /** An install succeeds if and only if the user is known, the app exists and the search found a release.
      When it is held back nothing changes for anybody. Otherwise the user has the release found, switched
      on and updating, since the first install. */
  lemma InstallExactly(s: State, user: UserId, appId: AppId, accept: bool, choice: Option<Version>, now: Time)
    ensures var result := InstallApp(s, user, appId, accept, choice, now);
            && (result.Ok? <==> user != "" && appId in s.apps && choice.Some? && choice.value in s.apps[appId].releases)
            && (result.Ok? ==>
                  var n, mine := result.value, InstallsOf(s, user);
                  && OnlyInstall(s, n, user, appId)
                  && if HeldBack(s, user, appId, accept, choice.value) then InstallsOf(n, user) == mine
                     else InstallsOf(n, user) == mine[appId := Install(appId, choice.value, true, true,
                                                                       if appId in mine then mine[appId].installedAt else now, now)])
  {
    hide OnlyInstall, HeldBack, NeedsConsent;
    if user != "" && appId in s.apps && choice.Some? && choice.value in s.apps[appId].releases {
      HeldExactly(s, user, appId, accept, choice.value);
      var mine := InstallsOf(s, user);
      var since := if appId in mine then mine[appId].installedAt else now;
      OneInstall(s, user, appId, mine);
      OneInstall(s, user, appId, mine[appId := Install(appId, choice.value, true, true, since, now)]);
    }
  }

  lemma OneInstall(s: State, user: UserId, appId: AppId, installs: map<AppId, Install>)
    requires forall id :: id != appId ==> (id in installs <==> id in InstallsOf(s, user))
    requires forall id :: id != appId && id in installs ==> installs[id] == InstallsOf(s, user)[id]
    ensures OnlyInstall(s, s.(installs := s.installs[user := installs]), user, appId)
    ensures InstallsOf(s.(installs := s.installs[user := installs]), user) == installs
  {
  }

  lemma HeldExactly(s: State, user: UserId, appId: AppId, accept: bool, found: Version)
    requires appId in s.apps && found in s.apps[appId].releases
    ensures HeldBack(s, user, appId, accept, found)
       <==> appId in InstallsOf(s, user) && NeedsConsent(s.apps[appId], InstallsOf(s, user)[appId], found) && !accept
  {
    hide AddedPermissions;
    var mine := InstallsOf(s, user);
    if appId in mine && mine[appId].version in s.apps[appId].releases {
      AddedExactly(s.apps[appId].releases[mine[appId].version].columns.manifest, s.apps[appId].releases[found].columns.manifest);
    }
  }

  lemma AddedExactly(a: Manifest, b: Manifest)
    ensures AddedPermissions(a, b) != {} <==> exists p :: p in b.permissions && p != "" && p !in a.permissions
  {
    if p :| p in b.permissions && p != "" && p !in a.permissions {
      assert p in AddedPermissions(a, b);
    }
  }

  /** An uninstall succeeds if and only if a known user has the app; then that one install is gone. */
  lemma UninstallExactly(s: State, user: UserId, appId: AppId)
    ensures var result := UninstallApp(s, user, appId);
            && (result.Ok? <==> user != "" && appId in InstallsOf(s, user))
            && (result.Ok? ==> OnlyInstall(s, result.value, user, appId) && appId !in InstallsOf(result.value, user))
  {
  }

  /** Why a review is refused. What only administrators may do is forbidden to others before anything is
      looked up; a missing app or release is reported to those who may act on it. */
  lemma ReviewRefused(s: State, user: UserId, admin: bool, appId: AppId, version: Version, next: Status, note: string,
                      previous: Option<Version>, now: Time)
    requires WellFormed(s)
    ensures var result := Transition(s, user, admin, appId, version, next, note, previous, now);
            var may := admin || next in {Submitted, Revoked};
            && (!may ==> result == Err(Forbidden))
            && (may && user == "" ==> result == Err(Unauthorized))
            && (may && user != "" && appId !in s.apps ==> result == Err(NotFound))
            && (may && user != "" && appId in s.apps && !admin && s.apps[appId].owner != user ==> result == Err(Forbidden))
            && (may && user != "" && appId in s.apps && (admin || s.apps[appId].owner == user) ==>
                  && (version !in s.apps[appId].releases ==> result == Err(NotFound))
                  && (version in s.apps[appId].releases && next == Draft ==> result == Err(InvalidTransition))
                  && (version in s.apps[appId].releases && result.Err? && next != Draft ==> result == Err(ImmutabilityViolation)))
  {
    hide Refreshed, PointersCorrect, Marked, Reviewed, WellFormedApp;
    if appId in s.apps {
      NoEmptyRelease(s, appId);
    }
  }

  /** Why the other requests are refused. */
  lemma RequestsRefused(s: State, user: UserId, admin: bool, appId: AppId, m: Manifest, name: string, summary: string, hidden: bool,
                        accept: bool, choice: Option<Version>, now: Time)
    requires WellFormed(s)
    ensures var valid, owned := m.appId != "" && m.name != "" && SemVer(m.version), appId in s.apps && (s.apps[appId].owner == user || admin);
            && (!valid ==> Register(s, user, admin, m, now) == Err(BadRequest))
            && (valid && m.appId == appId && user != "" && Register(s, user, admin, m, now).Err? ==>
                  Register(s, user, admin, m, now) == Err(if owned then Conflict else Forbidden))
            && (user == "" ==>
                  && CreateApp(s, user, appId, name, summary, hidden, now) == Err(Unauthorized)
                  && CreateRelease(s, user, admin, appId, m, now) == Err(Unauthorized)
                  && InstallApp(s, user, appId, accept, choice, now) == UninstallApp(s, user, appId) == Err(Unauthorized))
            && (user != "" ==>
                  && (appId == "" || name == "" ==> CreateApp(s, user, appId, name, summary, hidden, now) == Err(BadRequest))
                  && (appId != "" && name != "" && appId in s.apps ==>
                        CreateApp(s, user, appId, name, summary, hidden, now) == Err(Conflict))
                  && (m.appId != appId || !valid ==> CreateRelease(s, user, admin, appId, m, now) == Err(BadRequest))
                  && (m.appId == appId && valid && CreateRelease(s, user, admin, appId, m, now).Err? ==>
                        CreateRelease(s, user, admin, appId, m, now)
                        == Err(if appId !in s.apps then NotFound else if owned then Conflict else Forbidden))
                  && (appId !in s.apps ==> InstallApp(s, user, appId, accept, choice, now) == Err(NotFound))
                  && (appId in s.apps && choice.None? ==> InstallApp(s, user, appId, accept, choice, now) == Err(NotInstallable))
                  && (appId !in InstallsOf(s, user) ==> UninstallApp(s, user, appId) == Err(NotFound)))
  {
    hide Refreshed, PointersCorrect, SemVer, WellFormedApp;
    EmptyIsNoVersion(m.version);
    if m.appId in s.apps {
      NoEmptyRelease(s, m.appId);
    }
  }

  // ---- whole runs ----

  /** Request `i` is a review of this release that succeeds. */
  ghost predicate ReviewsIt(requests: seq<Request>, i: nat, id: AppId, v: Version)
    requires i < |requests|
  {
    && requests[i].Reviewing? && requests[i].appId == id && requests[i].version == v
    && Handle(After(requests, i), requests[i]).Ok?
  }

  predicate HasRelease(s: State, id: AppId, v: Version) {
    id in s.apps && v in s.apps[id].releases
  }

  /** A request changes the status of a release if and only if it is a successful review of it, and then
      to the status asked for. */
  lemma StatusStep(s: State, r: Request, id: AppId, v: Version)
    requires WellFormed(s) && Handle(s, r).Ok? && HasRelease(s, id, v)
    ensures var n := Handle(s, r).value;
            && HasRelease(n, id, v)
            && n.apps[id].releases[v].columns.status
               == if r.Reviewing? && r.appId == id && r.version == v then r.next else s.apps[id].releases[v].columns.status
  {
    hide WellFormed, Register, CreateApp, CreateRelease, Transition, InstallApp, UninstallApp;
    match r
    case Registering(caller, admin, m, now) => RegisterEffect(s, caller, admin, m, now);
    case CreatingApp(user, appId, name, summary, hidden, now) => CreateAppExactly(s, user, appId, name, summary, hidden, now);
    case CreatingRelease(user, admin, appId, m, now) => CreateReleaseExactly(s, user, admin, appId, m, now);
    case Reviewing(user, admin, appId, version, next, note, previous, now) =>
      ReviewEffect(s, user, admin, appId, version, next, note, previous, now);
    case Installing(user, appId, accept, choice, now) => InstallExactly(s, user, appId, accept, choice, now);
    case Uninstalling(user, appId) => UninstallExactly(s, user, appId);
  }

  lemma SavedStatus(s: State, id: AppId, v: Version)
    requires WellFormed(s) && HasRelease(s, id, v)
    ensures HasRelease(Normalized(s), id, v)
    ensures Normalized(s).apps[id].releases[v].columns == s.apps[id].releases[v].columns
  {
  }

  /** Over every run the status of a release is the one its last successful review asked for. */
  lemma {:induction false} StatusIsLastReview(requests: seq<Request>, j: nat, k: nat, id: AppId, v: Version)
    requires j < k <= |requests| && IsRun(requests, k) && ReviewsIt(requests, j, id, v)
    requires forall i :: j < i < k ==> !ReviewsIt(requests, i, id, v)
    ensures HasRelease(After(requests, k), id, v)
    ensures After(requests, k).apps[id].releases[v].columns.status == requests[j].next
    decreases k
  {
    hide Handle, WellFormed, HasRelease, IsRun, Normalized, After;
    var s, r := After(requests, k - 1), requests[k - 1];
    LastStep(requests, k - 1);
    if j < k - 1 {
      RunPrefix(requests, k - 1, k);
      StatusIsLastReview(requests, j, k - 1, id, v);
      assert !ReviewsIt(requests, k - 1, id, v);
    } else {
      ReviewedExists(s, r, id, v);
    }
    if Handle(s, r).Ok? {
      StatusStep(s, r, id, v);
      SavedStatus(Handle(s, r).value, id, v);
    }
  }

  lemma ReviewedExists(s: State, r: Request, id: AppId, v: Version)
    requires WellFormed(s) && r.Reviewing? && r.appId == id && r.version == v && Handle(s, r).Ok?
    ensures HasRelease(s, id, v)
  {
    ReviewEffect(s, r.user, r.admin, r.appId, r.version, r.next, r.note, r.previous, r.now);
  }

  /** The user's install of the app names this release. */
  predicate InstalledIs(s: State, u: UserId, id: AppId, v: Version) {
    id in InstallsOf(s, u) && InstallsOf(s, u)[id].version == v
  }

  /** A withdrawn release: from a successful review with any outcome but approval until the next successful
      approval, no search returns the release and no user gets it who did not have it before. */
  lemma {:induction false} WithdrawnStaysOut(requests: seq<Request>, j: nat, k: nat, id: AppId, v: Version, u: UserId)
    requires j < k <= |requests| && IsRun(requests, k) && ReviewsIt(requests, j, id, v) && requests[j].next != Approved
    requires forall i :: j < i < k ==> !(ReviewsIt(requests, i, id, v) && requests[i].next == Approved)
    ensures Withdrawn(After(requests, k), id, v)
    ensures !MayBeLatest(After(requests, k).apps[id], Some(v))
    ensures After(requests, k).apps[id].latestApproved != v
    ensures InstalledIs(After(requests, k), u, id, v) ==> InstalledIs(After(requests, j), u, id, v)
    decreases k
  {
    hide Handle, WellFormed, HasRelease, IsRun, Normalized, After, InstalledIs, MayBeLatest;
    if j < k - 1 {
      RunPrefix(requests, k - 1, k);
      WithdrawnStaysOut(requests, j, k - 1, id, v, u);
      LastStep(requests, k - 1);
      if Handle(After(requests, k - 1), requests[k - 1]).Ok? {
        WithdrawnStep(After(requests, k - 1), requests[k - 1], id, v, u);
      }
    } else {
      LastStep(requests, j);
      ReviewedExists(After(requests, j), requests[j], id, v);
      WithdrawnStep(After(requests, j), requests[j], id, v, u);
    }
    AlwaysGood(requests, k);
    OutOfSearch(After(requests, k), id, v);
  }

  /** The release is there and not approved. */
  predicate Withdrawn(s: State, id: AppId, v: Version) {
    HasRelease(s, id, v) && s.apps[id].releases[v].columns.status != Approved
  }

  lemma LastStep(requests: seq<Request>, k: nat)
    requires k < |requests| && IsRun(requests, k + 1)
    ensures Possible(After(requests, k), requests[k]) && WellFormed(After(requests, k))
    ensures Handle(After(requests, k), requests[k]).Err? ==> After(requests, k + 1) == After(requests, k)
    ensures Handle(After(requests, k), requests[k]).Ok? ==>
              && WellFormed(Handle(After(requests, k), requests[k]).value)
              && After(requests, k + 1) == Normalized(Handle(After(requests, k), requests[k]).value)
  {
    hide Handle, WellFormed, Possible;
    RunNext(requests, k);
  }

  lemma OutOfSearch(s: State, id: AppId, v: Version)
    requires Good(s) && Withdrawn(s, id, v)
    ensures !MayBeLatest(s.apps[id], Some(v)) && s.apps[id].latestApproved != v
  {
    assert AppGood(s.apps[id]);
  }

  /** One request keeps a withdrawn release out, and a review that withdraws it takes it out. */
  lemma WithdrawnStep(s: State, r: Request, id: AppId, v: Version, u: UserId)
    requires WellFormed(s) && Possible(s, r) && Handle(s, r).Ok? && HasRelease(s, id, v)
    requires if r.Reviewing? && r.appId == id && r.version == v then r.next != Approved else Withdrawn(s, id, v)
    requires WellFormed(Handle(s, r).value)
    ensures Withdrawn(Normalized(Handle(s, r).value), id, v)
    ensures InstalledIs(Normalized(Handle(s, r).value), u, id, v) ==> InstalledIs(s, u, id, v)
  {
    hide Handle, WellFormed, Normalized, HasRelease, InstallsOf, MayBeLatest, Possible;
    var n := Handle(s, r).value;
    StatusStep(s, r, id, v);
    SavedStatus(n, id, v);
    SavedInstalls(n, u);
    NoNewInstall(s, r, id, v, u);
  }

  lemma SavedInstalls(s: State, u: UserId)
    requires WellFormed(s)
    ensures InstallsOf(Normalized(s), u) == InstallsOf(s, u)
  {
  }

  lemma NoNewInstall(s: State, r: Request, id: AppId, v: Version, u: UserId)
    requires WellFormed(s) && Possible(s, r) && Handle(s, r).Ok?
    requires (r.Reviewing? && r.appId == id && r.version == v) || Withdrawn(s, id, v)
    ensures InstalledIs(Handle(s, r).value, u, id, v) ==> InstalledIs(s, u, id, v)
  {
    hide WellFormed, Register, CreateApp, CreateRelease, Transition, InstallApp, UninstallApp;
    match r
    case Registering(caller, admin, m, now) => RegisterEffect(s, caller, admin, m, now);
    case CreatingApp(user, appId, name, summary, hidden, now) => CreateAppExactly(s, user, appId, name, summary, hidden, now);
    case CreatingRelease(user, admin, appId, m, now) => CreateReleaseExactly(s, user, admin, appId, m, now);
    case Reviewing(user, admin, appId, version, next, note, previous, now) =>
      ReviewEffect(s, user, admin, appId, version, next, note, previous, now);
    case Installing(user, appId, accept, choice, now) => InstallExactly(s, user, appId, accept, choice, now);
    case Uninstalling(user, appId) => UninstallExactly(s, user, appId);
  }
}
