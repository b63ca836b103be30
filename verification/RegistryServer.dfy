/** The registry server. Every request loads the whole state from the tables, changes it and
    saves it again under one lock; rows and map entries are visited in no particular order. */
module RegistryServer {
  import opened Options
  import opened Versions
  import opened Registry
  import Spec = Registry

  // ---- version pointers and the newest approved release ----

  method RefreshLatestPointers(app: App) returns (r: App)
    requires "" !in app.releases
    ensures r == Refreshed(app)
  {
    hide Greater, BestOf, Latest, ApprovedVersions, ApprovedAmong;
    r := app.(latestVersion := "", latestApproved := "");
    BestOfNothing(app);
    var rest := app.releases.Keys;
    ghost var seen: set<Version> := {};
    while rest != {}
      invariant seen + rest == app.releases.Keys && seen !! rest
      invariant r == app.(latestVersion := r.latestVersion, latestApproved := r.latestApproved)
      invariant BestOf(r.latestVersion, seen) && BestOf(r.latestApproved, ApprovedAmong(app, seen))
      decreases |rest|
    {
      var version :| version in rest;
      ApprovedMore(app, seen, version);
      BestOfMore(r.latestVersion, seen, version);
      BestOfMore(r.latestApproved, ApprovedAmong(app, seen), version);
      if r.latestVersion == "" || Greater(version, r.latestVersion) {
        r := r.(latestVersion := version);
      }
      if app.releases[version].columns.status == Approved && (r.latestApproved == "" || Greater(version, r.latestApproved)) {
        r := r.(latestApproved := version);
      }
      rest, seen := rest - {version}, seen + {version};
    }
    assert seen == app.releases.Keys;
    ApprovedAll(app);
    BestIsLatest(r.latestVersion, seen);
    BestIsLatest(r.latestApproved, ApprovedVersions(app));
  }

  function ApprovedAmong(app: App, seen: set<Version>): set<Version>
    requires seen <= app.releases.Keys
  {
    set v | v in seen && app.releases[v].columns.status == Approved
  }

  lemma ApprovedMore(app: App, seen: set<Version>, version: Version)
    requires seen <= app.releases.Keys && version in app.releases && "" !in app.releases
    ensures "" !in ApprovedAmong(app, seen)
    ensures ApprovedAmong(app, seen + {version})
         == if app.releases[version].columns.status == Approved then ApprovedAmong(app, seen) + {version}
            else ApprovedAmong(app, seen)
  {
  }

  lemma ApprovedAll(app: App)
    requires "" !in app.releases
    ensures "" !in ApprovedVersions(app)
    ensures ApprovedAmong(app, app.releases.Keys) == ApprovedVersions(app)
  {
  }

  lemma BestOfNothing(app: App)
    ensures BestOf("", {}) && BestOf("", ApprovedAmong(app, {}))
  {
  }

  /** The value of a pointer after the versions `seen` have been visited. */
  predicate BestOf(v: Version, seen: set<Version>) {
    if seen == {} then v == "" else IsMaximum(v, seen)
  }

  lemma BestOfMore(best: Version, seen: set<Version>, version: Version)
    requires "" !in seen && version != "" && BestOf(best, seen)
    ensures BestOf(if best == "" || Greater(version, best) then version else best, seen + {version})
  {
    hide Greater;
    if seen != {} {
      GreaterIsTotalOrder(version, best, best);
      if Greater(version, best) {
        forall u | u in seen + {version} && u != version ensures Greater(version, u) {
          GreaterIsTotalOrder(version, best, u);
        }
      }
    }
  }

  lemma BestIsLatest(best: Version, seen: set<Version>)
    requires "" !in seen && BestOf(best, seen)
    ensures best == Latest(seen)
  {
    if seen != {} {
      LatestIsUnique(best, seen);
    }
  }

  method LatestApprovedRelease(app: App) returns (choice: Option<Version>)
    ensures MayBeLatest(app, choice)
  {
    choice := None;
    var rest := app.releases.Keys;
    while rest != {}
      invariant rest <= app.releases.Keys
      invariant choice.None? ==> ApprovedVersions(app) <= rest
      invariant choice.Some? ==> choice.value in ApprovedVersions(app)
                                 && forall u :: u in ApprovedVersions(app) && u !in rest ==>
                                      !Later(app.releases[u].columns.publishedAt, app.releases[choice.value].columns.publishedAt)
      decreases |rest|
    {
      var version :| version in rest;
      var release := app.releases[version].columns;
      if release.status == Approved {
        if choice.None? || Later(release.publishedAt, app.releases[choice.value].columns.publishedAt) {
          choice := Some(version);
        }
      }
      rest := rest - {version};
    }
  }

  // ---- permissions ----

  function ToSet(s: seq<string>): set<string> {
    set p | p in s
  }

  /** Sorted as text, every entry once. */
  predicate Ascending(s: seq<string>) {
    forall i, j :: 0 <= i < j < |s| ==> TextGreater(s[j], s[i], 0)
  }

  lemma InsertedAscending(s: seq<string>, k: nat, item: string)
    requires Ascending(s) && k <= |s|
    requires forall i :: 0 <= i < k ==> TextGreater(item, s[i], 0)
    requires k < |s| ==> item != s[k] && !TextGreater(item, s[k], 0)
    ensures Ascending(s[..k] + [item] + s[k..])
  {
    hide TextGreater;
    forall i | k <= i < |s| ensures TextGreater(s[i], item, 0) {
      TextOrder(s[k], item, item, 0);
      TextOrder(s[i], s[k], item, 0);
      assert item[0..] == item && s[k][0..] == s[k];
    }
  }

  lemma InsertedContents(s: seq<string>, k: nat, item: string)
    requires k <= |s|
    ensures forall p :: p in s[..k] + [item] + s[k..] <==> p in s || p == item
  {
    assert s == s[..k] + s[k..];
  }

  method SortAndCompact(items: seq<string>) returns (out: seq<string>)
    ensures Ascending(out) && ToSet(out) == ToSet(items)
  {
    hide TextGreater;
    out := [];
    for i := 0 to |items|
      invariant Ascending(out)
      invariant forall p :: p in out <==> p in items[..i]
    {
      var k := 0;
      while k < |out| && TextGreater(items[i], out[k], 0)
        invariant k <= |out| && forall j :: 0 <= j < k ==> TextGreater(items[i], out[j], 0)
      {
        k := k + 1;
      }
      if k == |out| || out[k] != items[i] {
        InsertedAscending(out, k, items[i]);
        InsertedContents(out, k, items[i]);
        out := out[..k] + [items[i]] + out[k..];
      }
      assert items[..i + 1] == items[..i] + [items[i]];
    }
    assert items[..|items|] == items;
  }

  lemma LastIsGreatest(s: seq<string>, p: string)
    requires Ascending(s) && p in s
    ensures p == s[|s| - 1] || TextGreater(s[|s| - 1], p, 0)
  {
  }

  /** A sorted list without repetitions is determined by its contents. */
  lemma {:induction false} AscendingUnique(a: seq<string>, b: seq<string>)
    requires Ascending(a) && Ascending(b) && ToSet(a) == ToSet(b)
    ensures a == b
  {
    hide TextGreater;
    NothingIn(a);
    NothingIn(b);
    if a != [] {
      var x, y := a[|a| - 1], b[|b| - 1];
      assert x in ToSet(b) && y in ToSet(a);
      LastIsGreatest(a, y);
      LastIsGreatest(b, x);
      TextOrder(x, y, y, 0);
      TextOrder(x, x, y, 0);
      FrontSet(a);
      FrontSet(b);
      AscendingUnique(a[..|a| - 1], b[..|b| - 1]);
      assert a == a[..|a| - 1] + [x] && b == b[..|b| - 1] + [y];
    }
  }

  lemma NothingIn(s: seq<string>)
    ensures ToSet(s) == {} <==> s == []
  {
    if s != [] {
      assert s[0] in ToSet(s);
    }
  }

  lemma FrontSet(s: seq<string>)
    requires Ascending(s) && s != []
    ensures ToSet(s[..|s| - 1]) == ToSet(s) - {s[|s| - 1]}
  {
    hide TextGreater;
    var x := s[|s| - 1];
    assert s == s[..|s| - 1] + [x];
    forall i | 0 <= i < |s| - 1 ensures s[i] != x {
      TextOrder(x, x, x, 0);
    }
  }

  method ManifestPermissions(m: Manifest) returns (out: seq<string>)
    ensures ToSet(out) == Permissions(m) && Ascending(out)
  {
    var found := [];
    for i := 0 to |m.permissions|
      invariant forall p :: p in found <==> p in m.permissions[..i] && p != ""
    {
      if m.permissions[i] != "" {
        found := found + [m.permissions[i]];
      }
    }
    assert m.permissions[..|m.permissions|] == m.permissions;
    out := SortAndCompact(found);
  }

  /** What an update would add and remove. */
  method PermissionDelta(installed: Manifest, candidate: Manifest) returns (added: seq<string>, removed: seq<string>)
    ensures ToSet(added) == AddedPermissions(installed, candidate) && Ascending(added)
    ensures ToSet(removed) == AddedPermissions(candidate, installed) && Ascending(removed)
    ensures |added| > 0 <==> AddedPermissions(installed, candidate) != {}
  {
    var current := ManifestPermissions(installed);
    var next := ManifestPermissions(candidate);
    added := Difference(next, current);
    removed := Difference(current, next);
    added := SortAndCompact(added);
    removed := SortAndCompact(removed);
    if |added| > 0 {
      assert added[0] in ToSet(added);
    }
  }

  method Difference(items: seq<string>, known: seq<string>) returns (out: seq<string>)
    ensures ToSet(out) == ToSet(items) - ToSet(known)
  {
    out := [];
    for i := 0 to |items|
      invariant forall p :: p in out <==> p in items[..i] && p !in known
    {
      if items[i] !in known {
        out := out + [items[i]];
      }
    }
    assert items[..|items|] == items;
  }

  // ---- loading ----

  lemma OneMoreRelease(rows: set<ReleaseRow>, r: ReleaseRow, id: AppId)
    requires ReleasesKeyed(rows + {r}) && r !in rows && ReleasesKeyed(rows)
    ensures ReleasesFor(rows + {r}, id)
         == if r.appId == id then ReleasesFor(rows, id)[r.columns.version := Release(r.columns, false, [])]
            else ReleasesFor(rows, id)
  {
  }

  lemma OneMoreInstall(rows: set<InstallRow>, r: InstallRow, u: UserId)
    requires InstallsKeyed(rows + {r}) && r !in rows && InstallsKeyed(rows)
    ensures InstallsFor(rows + {r}, u)
         == if r.user == u then InstallsFor(rows, u)[r.install.appId := r.install] else InstallsFor(rows, u)
  {
  }

  method LoadApps(rows: set<AppRow>) returns (apps: map<AppId, App>)
    requires forall a, b :: a in rows && b in rows && a.appId == b.appId ==> a == b
    ensures apps == map r | r in rows :: r.appId := AppOf(r, map[])
  {
    apps := map[];
    var rest := rows;
    while rest != {}
      invariant rest <= rows
      invariant forall r :: r in rows - rest ==> r.appId in apps && apps[r.appId] == AppOf(r, map[])
      invariant forall id :: id in apps ==> exists r :: r in rows - rest && r.appId == id
      decreases |rest|
    {
      var r :| r in rest;
      apps := apps[r.appId := AppOf(r, map[])];
      rest := rest - {r};
    }
  }

  /** A release row without an app row is skipped. */
  method LoadReleases(bare: map<AppId, App>, rows: set<ReleaseRow>) returns (apps: map<AppId, App>)
    requires ReleasesKeyed(rows) && forall id :: id in bare ==> bare[id].releases == map[]
    ensures apps.Keys == bare.Keys
    ensures forall id :: id in apps ==> apps[id] == bare[id].(releases := ReleasesFor(rows, id))
  {
    hide ReleasesFor;
    apps := bare;
    var rest := rows;
    ghost var done: set<ReleaseRow> := {};
    forall id ensures ReleasesFor({}, id) == map[] {
      NothingYet(id, "");
    }
    while rest != {}
      invariant rest <= rows && done == rows - rest && ReleasesKeyed(done)
      invariant apps.Keys == bare.Keys
      invariant forall id :: id in apps ==> apps[id] == bare[id].(releases := ReleasesFor(done, id))
      decreases |rest|
    {
      var r :| r in rest;
      forall id ensures ReleasesKeyed(done + {r}) && ReleasesFor(done + {r}, id)
                     == if r.appId == id then ReleasesFor(done, id)[r.columns.version := Release(r.columns, false, [])]
                        else ReleasesFor(done, id) {
        OneMoreRelease(done, r, id);
      }
      if r.appId in apps {
        var app := apps[r.appId];
        apps := apps[r.appId := app.(releases := app.releases[r.columns.version := Release(r.columns, false, [])])];
      }
      rest, done := rest - {r}, done + {r};
    }
    assert done == rows;
  }

  lemma NothingYet(id: AppId, u: UserId)
    ensures ReleasesFor({}, id) == map[] && InstallsFor({}, u) == map[]
  {
  }

  method LoadInstalls(rows: set<InstallRow>) returns (installs: map<UserId, map<AppId, Install>>)
    requires InstallsKeyed(rows)
    ensures installs == map r | r in rows :: r.user := InstallsFor(rows, r.user)
  {
    hide InstallsFor, InstallsKeyed, LoadedSoFar;
    installs := map[];
    var rest := rows;
    ghost var done: set<InstallRow> := {};
    FewerInstalls(rows, {});
    NothingLoaded();
    while rest != {}
      invariant rest <= rows && done == rows - rest && InstallsKeyed(done)
      invariant LoadedSoFar(done, installs)
      decreases |rest|
    {
      var r :| r in rest;
      FewerInstalls(rows, done + {r});
      MoreInstalls(done, r, installs);
      var mine := if r.user in installs then installs[r.user] else map[];
      installs := installs[r.user := mine[r.install.appId := r.install]];
      rest, done := rest - {r}, done + {r};
      assert done == rows - rest;
    }
    assert done == rows;
    AllLoaded(rows, installs);
  }

  lemma NothingLoaded()
    ensures InstallsKeyed({}) && LoadedSoFar({}, map[])
  {
  }

  lemma AllLoaded(rows: set<InstallRow>, installs: map<UserId, map<AppId, Install>>)
    requires InstallsKeyed(rows) && LoadedSoFar(rows, installs)
    ensures installs == map r | r in rows :: r.user := InstallsFor(rows, r.user)
  {
  }

  ghost predicate LoadedSoFar(done: set<InstallRow>, installs: map<UserId, map<AppId, Install>>)
    requires InstallsKeyed(done)
  {
    && installs.Keys == (set r | r in done :: r.user)
    && forall u :: u in installs ==> installs[u] == InstallsFor(done, u)
  }

  lemma FewerInstalls(rows: set<InstallRow>, some: set<InstallRow>)
    requires InstallsKeyed(rows) && some <= rows
    ensures InstallsKeyed(some)
  {
  }

  lemma MoreInstalls(done: set<InstallRow>, r: InstallRow, installs: map<UserId, map<AppId, Install>>)
    requires InstallsKeyed(done) && InstallsKeyed(done + {r}) && r !in done && LoadedSoFar(done, installs)
    ensures LoadedSoFar(done + {r}, installs[r.user :=
              (if r.user in installs then installs[r.user] else map[])[r.install.appId := r.install]])
  {
    hide InstallsFor, InstallsKeyed;
    if r.user !in installs {
      NoInstalls(done, r.user);
    }
    forall u ensures InstallsFor(done + {r}, u)
                  == if r.user == u then InstallsFor(done, u)[r.install.appId := r.install] else InstallsFor(done, u) {
      OneMoreInstall(done, r, u);
    }
  }

  lemma NoInstalls(rows: set<InstallRow>, u: UserId)
    requires InstallsKeyed(rows) && forall r :: r in rows ==> r.user != u
    ensures InstallsFor(rows, u) == map[]
  {
  }

  method RefreshAll(loaded: map<AppId, App>) returns (apps: map<AppId, App>)
    requires forall id :: id in loaded ==> "" !in loaded[id].releases
    ensures apps.Keys == loaded.Keys
    ensures forall id :: id in apps ==> apps[id] == Refreshed(loaded[id])
  {
    hide Refreshed, PointersCorrect;
    apps := loaded;
    var rest := loaded.Keys;
    while rest != {}
      invariant rest <= loaded.Keys == apps.Keys
      invariant forall id :: id in rest ==> apps[id] == loaded[id]
      invariant forall id :: id in loaded && id !in rest ==> apps[id] == Refreshed(loaded[id])
      decreases |rest|
    {
      var id :| id in rest;
      var app := RefreshLatestPointers(apps[id]);
      apps := apps[id := app];
      rest := rest - {id};
    }
  }

  method LoadState(t: Tables) returns (s: State)
    requires Keyed(t)
    ensures s == StateOf(t) && WellFormed(s)
  {
    hide Refreshed, ReleasesFor, InstallsFor, StateOf, WellFormed;
    var bare := LoadApps(t.apps);
    var apps := LoadReleases(bare, t.releases);
    LoadedApps(t, bare, apps);
    var refreshed := RefreshAll(apps);
    var installs := LoadInstalls(t.installs);
    s := State(refreshed, installs);
    LoadedState(t, apps, s);
    LoadedWellFormed(t);
  }

  lemma LoadedApps(t: Tables, bare: map<AppId, App>, apps: map<AppId, App>)
    requires Keyed(t) && bare == map r | r in t.apps :: r.appId := AppOf(r, map[])
    requires apps.Keys == bare.Keys
    requires forall id :: id in apps ==> apps[id] == bare[id].(releases := ReleasesFor(t.releases, id))
    ensures forall r :: r in t.apps ==> r.appId in apps && apps[r.appId] == AppOf(r, ReleasesFor(t.releases, r.appId))
    ensures forall id :: id in apps ==> exists r :: r in t.apps && r.appId == id
    ensures forall id :: id in apps ==> "" !in apps[id].releases
  {
  }

  lemma LoadedState(t: Tables, apps: map<AppId, App>, s: State)
    requires Keyed(t)
    requires forall r :: r in t.apps ==> r.appId in apps && apps[r.appId] == AppOf(r, ReleasesFor(t.releases, r.appId))
    requires forall id :: id in apps ==> exists r :: r in t.apps && r.appId == id
    requires forall id :: id in apps ==> "" !in apps[id].releases
    requires s.apps.Keys == apps.Keys && forall id :: id in apps ==> s.apps[id] == Refreshed(apps[id])
    requires s.installs == map r | r in t.installs :: r.user := InstallsFor(t.installs, r.user)
    ensures s == StateOf(t)
  {
    hide Refreshed, ReleasesFor, InstallsFor, PointersCorrect;
    assert s.apps == StateOf(t).apps;
    assert s.installs == StateOf(t).installs;
  }

  // ---- saving ----

  method ReleaseRows(app: App) returns (rows: set<ReleaseRow>)
    ensures rows == set v | v in app.releases :: ReleaseRow(app.appId, app.releases[v].columns)
  {
    rows := {};
    var rest := app.releases.Keys;
    while rest != {}
      invariant rest <= app.releases.Keys
      invariant rows == set v | v in app.releases.Keys - rest :: ReleaseRow(app.appId, app.releases[v].columns)
      decreases |rest|
    {
      var v :| v in rest;
      rows := rows + {ReleaseRow(app.appId, app.releases[v].columns)};
      rest := rest - {v};
    }
  }

  method InstallRows(u: UserId, installs: map<AppId, Install>) returns (rows: set<InstallRow>)
    ensures rows == set id | id in installs :: InstallRow(u, installs[id])
  {
    rows := {};
    var rest := installs.Keys;
    while rest != {}
      invariant rest <= installs.Keys
      invariant rows == set id | id in installs.Keys - rest :: InstallRow(u, installs[id])
      decreases |rest|
    {
      var id :| id in rest;
      rows := rows + {InstallRow(u, installs[id])};
      rest := rest - {id};
    }
  }

  method SaveState(s: State) returns (t: Tables)
    ensures t == RowsOf(s)
  {
    var apps: set<AppRow>, releases: set<ReleaseRow>, installs: set<InstallRow> := {}, {}, {};
    var ids := s.apps.Keys;
    while ids != {}
      invariant ids <= s.apps.Keys
      invariant apps == set id | id in s.apps.Keys - ids :: AppRowOf(s.apps[id])
      invariant releases == set id, v | id in s.apps.Keys - ids && v in s.apps[id].releases
                              :: ReleaseRow(s.apps[id].appId, s.apps[id].releases[v].columns)
      decreases |ids|
    {
      var id :| id in ids;
      var rows := ReleaseRows(s.apps[id]);
      apps := apps + {AppRowOf(s.apps[id])};
      releases := releases + rows;
      ids := ids - {id};
    }
    var users := s.installs.Keys;
    while users != {}
      invariant users <= s.installs.Keys
      invariant installs == set u, id | u in s.installs.Keys - users && id in s.installs[u] :: InstallRow(u, s.installs[u][id])
      decreases |users|
    {
      var u :| u in users;
      var rows := InstallRows(u, s.installs[u]);
      installs := installs + rows;
      users := users - {u};
    }
    t := Tables(apps, releases, installs);
  }

  // ---- requests ----

  ghost predicate Outcome(before: Tables, result: Result<State>, failure: Option<Failure>, after: Tables)
    requires Keyed(before) && Keyed(after)
  {
    match result
    case Ok(s) => failure == None && WellFormed(s) && StateOf(after) == Normalized(s)
    case Err(e) => failure == Some(e) && after == before
  }

  class AppsServer {
    var tables: Tables

    ghost predicate Valid()
      reads this
    {
      Keyed(tables)
    }

    constructor ()
      ensures Valid() && StateOf(tables) == State(map[], map[])
    {
      tables := Tables({}, {}, {});
    }

    method Save(s: State)
      requires WellFormed(s)
      modifies this
      ensures Valid() && StateOf(tables) == Normalized(s)
    {
      tables := SaveState(s);
      SaveLoadRoundTrip(s);
    }

    /** A changed app is stored with its pointers refreshed. */
    method SaveApp(s: State, app: App)
      requires WellFormed(s) && WellFormedApp(app.appId, app)
      modifies this
      ensures WellFormed(WithApp(s, Refreshed(app)))
      ensures Valid() && StateOf(tables) == Normalized(WithApp(s, Refreshed(app)))
    {
      hide RowsOf, Normalized, StateOf, Keyed, PointersCorrect;
      var refreshed := RefreshLatestPointers(app);
      Save(WithApp(s, refreshed));
    }

    method Register(caller: UserId, admin: bool, m: Manifest, now: Time) returns (failure: Option<Failure>)
      requires Valid()
      modifies this
      ensures Valid() && WellFormed(old(StateOf(tables)))
      ensures Outcome(old(tables), Spec.Register(old(StateOf(tables)), caller, admin, m, now), failure, tables)
    {
      hide RowsOf, Refreshed, PointersCorrect, Normalized, StateOf, Keyed;
      var state := LoadState(tables);
      var user := if caller == "" then "dev-bootstrap" else caller;
      if !ValidManifest(m) {
        return Some(BadRequest);
      }
      var app := NewApp(m.appId, m.name, user, m.hidden, m.summary, now);
      if m.appId in state.apps {
        app := state.apps[m.appId];
      }
      if app.owner != user && !admin {
        return Some(Forbidden);
      }
      if m.version in app.releases {
        if app.releases[m.version].columns.manifestHash != Sha256(m) {
          return Some(Conflict);
        }
      } else {
        var release := NewRelease(m, Some(Sha256(m)), InitialStatus(m.source), app.hidden, user, now);
        app := app.(releases := app.releases[m.version := release]);
        app := app.(name := m.name, summary := m.summary, updatedAt := now);
        SaveApp(state, app);
        return None;
      }
      Save(state);
      return None;
    }

    method CreateApp(user: UserId, appId: AppId, name: string, summary: string, hidden: bool, now: Time)
        returns (failure: Option<Failure>)
      requires Valid()
      modifies this
      ensures Valid() && WellFormed(old(StateOf(tables)))
      ensures Outcome(old(tables), Spec.CreateApp(old(StateOf(tables)), user, appId, name, summary, hidden, now), failure, tables)
    {
      hide RowsOf, Refreshed, PointersCorrect, Normalized, StateOf, Keyed;
      var state := LoadState(tables);
      if user == "" {
        return Some(Unauthorized);
      }
      if appId == "" || name == "" {
        return Some(BadRequest);
      }
      if appId in state.apps {
        return Some(Conflict);
      }
      state := WithApp(state, NewApp(appId, name, user, hidden, summary, now));
      Save(state);
      return None;
    }

    method CreateRelease(user: UserId, admin: bool, appId: AppId, m: Manifest, now: Time) returns (failure: Option<Failure>)
      requires Valid()
      modifies this
      ensures Valid() && WellFormed(old(StateOf(tables)))
      ensures Outcome(old(tables), Spec.CreateRelease(old(StateOf(tables)), user, admin, appId, m, now), failure, tables)
    {
      hide RowsOf, Refreshed, PointersCorrect, Normalized, StateOf, Keyed;
      var state := LoadState(tables);
      if user == "" {
        return Some(Unauthorized);
      }
      if m.appId != appId || !ValidManifest(m) {
        return Some(BadRequest);
      }
      if appId !in state.apps {
        return Some(NotFound);
      }
      var app := state.apps[appId];
      if app.owner != user && !admin {
        return Some(Forbidden);
      }
      if m.version in app.releases {
        return Some(Conflict);
      }
      app := app.(releases := app.releases[m.version := NewRelease(m, None, Draft, app.hidden, user, now)], updatedAt := now);
      SaveApp(state, app);
      return None;
    }

    /** `previous` is what the search for the newest approved release came up with on the way. */
    method Transition(user: UserId, admin: bool, appId: AppId, version: Version, next: Status, note: string, now: Time)
        returns (failure: Option<Failure>, previous: Option<Version>)
      requires Valid()
      modifies this
      ensures Valid() && WellFormed(old(StateOf(tables)))
      ensures Outcome(old(tables),
                      Spec.Transition(old(StateOf(tables)), user, admin, appId, version, next, note, previous, now),
                      failure, tables)
      ensures next == Approved && failure.None? ==>
                && appId in old(StateOf(tables)).apps && version in old(StateOf(tables)).apps[appId].releases
                && var app := old(StateOf(tables)).apps[appId];
                var columns := Reviewed(app.releases[version].columns, next, note, now);
                MayBeLatest(WithRelease(app, version, app.releases[version].(columns := columns)), previous)
    {
      hide RowsOf, Refreshed, PointersCorrect, Normalized, StateOf, Keyed, Marked, Reviewed, MayBeLatest, Immutable,
           WellFormedApp, WithRelease;
      previous := None;
      var state := LoadState(tables);
      if next != Submitted && next != Revoked && !admin {
        return Some(Forbidden), None;
      }
      if user == "" {
        return Some(Unauthorized), None;
      }
      if appId !in state.apps {
        return Some(NotFound), None;
      }
      var app := state.apps[appId];
      if app.owner != user && !admin {
        return Some(Forbidden), None;
      }
      if version !in app.releases {
        return Some(NotFound), None;
      }
      if next == Draft {
        return Some(InvalidTransition), None;
      }
      var release := app.releases[version];
      if next == Approved && !Immutable(release.columns) {
        return Some(ImmutabilityViolation), None;
      }
      ReviewedApp(appId, app, version, next, note, now);
      app := WithRelease(app, version, release.(columns := Reviewed(release.columns, next, note, now)));
      if next == Approved {
        previous := LatestApprovedRelease(app);
      }
      MarkedApp(appId, app, version, next, previous, now);
      app := WithRelease(app, version, Marked(app, version, next, previous));
      app := app.(updatedAt := now);
      SaveApp(state, app);
      return None, previous;
    }

    method InstallApp(user: UserId, appId: AppId, accept: bool, now: Time)
        returns (failure: Option<Failure>, choice: Option<Version>)
      requires Valid()
      modifies this
      ensures Valid() && WellFormed(old(StateOf(tables)))
      ensures user != "" && appId in old(StateOf(tables)).apps ==> MayBeLatest(old(StateOf(tables)).apps[appId], choice)
      ensures Outcome(old(tables), Spec.InstallApp(old(StateOf(tables)), user, appId, accept, choice, now), failure, tables)
    {
      hide RowsOf, Refreshed, PointersCorrect, Normalized, StateOf, Keyed, AddedPermissions;
      var state := LoadState(tables);
      if user == "" {
        return Some(Unauthorized), None;
      }
      if appId !in state.apps {
        return Some(NotFound), None;
      }
      var app := state.apps[appId];
      choice := LatestApprovedRelease(app);
      if choice.None? {
        return Some(NotInstallable), None;
      }
      var mine := InstallsOf(state, user);
      if appId in mine && mine[appId].version in app.releases && mine[appId].version != choice.value {
        var added, _ := PermissionDelta(app.releases[mine[appId].version].columns.manifest,
                                        app.releases[choice.value].columns.manifest);
        if |added| > 0 && !accept {
          Save(state.(installs := state.installs[user := mine]));
          return None, choice;
        }
      }
      var since := now;
      if appId in mine {
        since := mine[appId].installedAt;
      }
      mine := mine[appId := Install(appId, choice.value, true, true, since, now)];
      Save(state.(installs := state.installs[user := mine]));
      return None, choice;
    }

    method UninstallApp(user: UserId, appId: AppId) returns (failure: Option<Failure>)
      requires Valid()
      modifies this
      ensures Valid() && WellFormed(old(StateOf(tables)))
      ensures Outcome(old(tables), Spec.UninstallApp(old(StateOf(tables)), user, appId), failure, tables)
    {
      hide RowsOf, Refreshed, PointersCorrect, Normalized, StateOf, Keyed;
      var state := LoadState(tables);
      if user == "" {
        return Some(Unauthorized);
      }
      var mine := InstallsOf(state, user);
      if appId !in mine {
        return Some(NotFound);
      }
      mine := mine - {appId};
      Save(state.(installs := state.installs[user := mine]));
      return None;
    }
  }

  lemma ReviewedApp(appId: AppId, app: App, version: Version, next: Status, note: string, now: Time)
    requires WellFormedApp(appId, app) && version in app.releases
    ensures var release := app.releases[version];
            var reviewed := WithRelease(app, version, release.(columns := Reviewed(release.columns, next, note, now)));
            && WellFormedApp(appId, reviewed) && reviewed.appId == appId && version in reviewed.releases
  {
  }

  lemma MarkedApp(appId: AppId, app: App, version: Version, next: Status, previous: Option<Version>, now: Time)
    requires WellFormedApp(appId, app) && version in app.releases
    ensures var marked := WithRelease(app, version, Marked(app, version, next, previous));
            && marked.appId == appId && WellFormedApp(appId, marked.(updatedAt := now))
  {
  }
}
