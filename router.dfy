/** The router of `src/router/index.ts`: the route table with its
    `meta.requiresAuth` flags, how a target's matched records follow from the
    nesting of that table, and the global `beforeEach` guard. */
module Router {
  import opened Wrappers
  import opened Browser
  import opened Api
  import opened AuthStore

  /** One record of the route table; `requiresAuth` is `meta.requiresAuth`,
      absent when the record has no `meta`. */
  datatype RouteRecord = RouteRecord(
    path: string,
    name: Option<string>,
    requiresAuth: Option<bool>,
    children: seq<RouteRecord>)

  const LoginName: string := "login"
  const HomeName: string := "home"

  const LoginRoute: RouteRecord := RouteRecord("/login", Some(LoginName), Some(false), [])
  const HomeRoute: RouteRecord := RouteRecord("", Some(HomeName), None, [])
  const InferenceRoute: RouteRecord := RouteRecord("/inference", Some("inference"), None, [])
  const PerformanceRoute: RouteRecord := RouteRecord("/performance", Some("performance"), None, [])
  const SecAggregationRoute: RouteRecord := RouteRecord("/sec-aggregation", Some("secAggregation"), None, [])
  const LogViewerRoute: RouteRecord := RouteRecord("/log-viewer", Some("logViewer"), None, [])
  /** The layout record `/`, which holds every page but the login page. */
  const LayoutRoute: RouteRecord := RouteRecord("/", None, Some(true),
    [HomeRoute, InferenceRoute, PerformanceRoute, SecAggregationRoute, LogViewerRoute])

  /** The route table. */
  const Routes: seq<RouteRecord> := [LoginRoute, LayoutRoute]

  /** A resolved navigation target (`to`): its path, its name, and the
      records it matches, outermost first. A path the table does not know
      resolves with no name and no matched records. */
  datatype Location = Location(path: string, name: Option<string>, matched: seq<RouteRecord>)

  /** The full path of a record: a top-level or absolute path stands as
      written; a relative child path is appended to its parent's path with one
      connecting slash, and an empty child path denotes its parent's path. */
  function FullPath(nested: bool, parentPath: string, path: string): string
  {
    if !nested || (|path| > 0 && path[0] == '/') then path
    else if path == "" then parentPath
    else if |parentPath| > 0 && parentPath[|parentPath| - 1] == '/' then parentPath + path
    else parentPath + "/" + path
  }

  /** Every location the records `rs` (nested under `ancestors`, whose last
      record has full path `parentPath`) can be resolved to, children before
      their parent so that a child with an empty path wins over it. */
  function Entries(rs: seq<RouteRecord>, ancestors: seq<RouteRecord>, parentPath: string): (es: seq<Location>)
    decreases rs
  {
    if rs == [] then []
    else
      var r := rs[0];
      var full := FullPath(ancestors != [], parentPath, r.path);
      var chain := ancestors + [r];
      Entries(r.children, chain, full) + [Location(full, r.name, chain)] + Entries(rs[1..], ancestors, parentPath)
  }

  /** ASCII upper-case letters to lower case, as a case-insensitive regular
      expression without the unicode flag compares them; other characters
      never fold onto the ASCII ones. */
  function LowerChar(c: char): char
  {
    if 'A' <= c <= 'Z' then (c as int + 32) as char else c
  }

  function Lower(s: string): (t: string)
    ensures |t| == |s|
  {
    seq(|s|, i requires 0 <= i < |s| => LowerChar(s[i]))
  }

  /** The requested paths (lower-cased) a record's path matches: the router
      is neither strict nor case sensitive, so one trailing slash may be
      added to a path that does not end in one. */
  function Forms(recordPath: string): set<string>
  {
    {Lower(recordPath)} +
      (if recordPath != "" && recordPath[|recordPath| - 1] != '/' then {Lower(recordPath) + "/"} else {})
  }

  predicate PathMatches(recordPath: string, path: string)
  {
    Lower(path) in Forms(recordPath)
  }

  /** The first entry resolving `path`. */
  function FindPath(es: seq<Location>, path: string): (r: Option<Location>)
    ensures r.Some? ==> r.value in es && PathMatches(r.value.path, path)
    ensures r.None? ==> forall e | e in es :: !PathMatches(e.path, path)
  {
    if es == [] then None
    else if PathMatches(es[0].path, path) then Some(es[0])
    else FindPath(es[1..], path)
  }

  /** The first entry with name `name`. */
  function FindName(es: seq<Location>, name: string): (r: Option<Location>)
    ensures r.Some? ==> r.value in es && r.value.name == Some(name)
    ensures r.None? ==> forall e | e in es :: e.name != Some(name)
  {
    if es == [] then None
    else if es[0].name == Some(name) then Some(es[0])
    else FindName(es[1..], name)
  }

  /** The target of a navigation to `path`. */
  function Resolve(path: string): (l: Location)
  {
    match FindPath(Entries(Routes, [], ""), path)
    case Some(l) => Location(path, l.name, l.matched)
    case None => Location(path, None, [])
  }

  /** `to.matched.some(record => record.meta.requiresAuth)`. */
  function SomeRequiresAuth(matched: seq<RouteRecord>): (b: bool)
    ensures b <==> exists i | 0 <= i < |matched| :: matched[i].requiresAuth == Some(true)
  {
    if matched == [] then false
    else matched[0].requiresAuth == Some(true) || SomeRequiresAuth(matched[1..])
  }

  /** What the guard passes to `next`: nothing, `{ name: 'login' }` or
      `{ name: 'home' }`. */
  datatype Decision = Allow | RedirectToLogin | RedirectToHome

  /** The guard's decision once the session flag is settled. */
  function Decide(requiresAuth: bool, toName: Option<string>, authenticated: bool): (d: Decision)
    ensures d == RedirectToLogin <==> requiresAuth && !authenticated
    ensures d == RedirectToHome <==> authenticated && toName == Some(LoginName)
    ensures d == Allow <==> (authenticated || !requiresAuth) && !(authenticated && toName == Some(LoginName))
  {
    if requiresAuth && !authenticated then RedirectToLogin
    else if toName == Some(LoginName) && authenticated then RedirectToHome
    else Allow
  }

  /** One run of the guard: the session after it, its decision, and, when it
      started `initAuth`, where that call's synchronous part stopped. */
  datatype Guarded = Guarded(session: Session, decision: Decision, init: Option<InitStep>)

  /** The guard on values: an unauthenticated session first runs the
      synchronous part of `initAuth`, and the decision reads the flag after
      it. */
  function Guard(s: Session, to: Location, json: Json): (g: Guarded)
    ensures g.init.None? <==> s.isAuthenticated
    ensures g.init.None? ==> g.session == s
    ensures g.init.Some? ==> (g.session, g.init.value) == InitAuthPrefix(s, json)
    ensures g.decision == Decide(SomeRequiresAuth(to.matched), to.name, g.session.isAuthenticated)
    ensures !g.session.isAuthenticated ==> SavedEntry(g.session.storage, UserKey).None?
  {
    if s.isAuthenticated then Guarded(s, Decide(SomeRequiresAuth(to.matched), to.name, true), None)
    else
      var (t, step) := InitAuthPrefix(s, json);
      Guarded(t, Decide(SomeRequiresAuth(to.matched), to.name, t.isAuthenticated), Some(step))
  }

  /** `router.beforeEach`: start `initAuth` when the session is not
      authenticated (its continuation is left pending and returned as
      `init`), then call `next` once with the decision. */
  method BeforeEach(store: Store, to: Location) returns (d: Decision, init: Option<InitStep>)
    requires store.Valid()
    modifies store, store.window
    ensures store.Valid()
    ensures Guard(old(store.State()), to, store.json) == Guarded(store.State(), d, init)
    ensures store.window.navigations == old(store.window.navigations)
    ensures store.window.consoleErrors ==
      old(store.window.consoleErrors) + (if init == Some(ParseFailed) then [ParseErrorLog] else [])
  {
    var requiresAuth := SomeRequiresAuth(to.matched);
    init := None;
    if !store.isAuthenticated {
      var step := store.InitAuthStart();
      init := Some(step);
    }
    if requiresAuth && !store.isAuthenticated {
      d := RedirectToLogin;
    } else if to.name == Some(LoginName) && store.isAuthenticated {
      d := RedirectToHome;
    } else {
      d := Allow;
    }
  }

  /** The locations of the route table, in resolution order. */
  const Table: seq<Location> := [
    Location("/login", Some(LoginName), [LoginRoute]),
    Location("/", Some(HomeName), [LayoutRoute, HomeRoute]),
    Location("/inference", Some("inference"), [LayoutRoute, InferenceRoute]),
    Location("/performance", Some("performance"), [LayoutRoute, PerformanceRoute]),
    Location("/sec-aggregation", Some("secAggregation"), [LayoutRoute, SecAggregationRoute]),
    Location("/log-viewer", Some("logViewer"), [LayoutRoute, LogViewerRoute]),
    Location("/", None, [LayoutRoute])]

  /** The nesting of the route table gives these locations: the empty child
      path stands for `/`, the other children keep their absolute paths, and
      every page is matched under the layout record. */
  lemma EntriesOfRoutes()
    ensures Entries(Routes, [], "") == Table
  {
    LayoutPages();
    var rest := Routes[1..];
    assert rest[0] == LayoutRoute && rest[1..] == [];
    assert [] + [LayoutRoute] == [LayoutRoute];
    assert Table[6] == Location("/", None, [LayoutRoute]);
    assert Entries(rest, [], "") == Table[1..6] + [Table[6]];
    assert Routes[0] == LoginRoute && Routes[1..] == rest;
    assert [] + [LoginRoute] == [LoginRoute];
    assert Table == [Table[0]] + Table[1..6] + [Table[6]];
  }

  /** The location of a page of the layout. */
  function PageLocation(page: RouteRecord): Location
  {
    Location(if page.path == "" then "/" else page.path, page.name, [LayoutRoute, page])
  }

  /** The locations of a list of layout pages, in order. */
  function PageLocations(pages: seq<RouteRecord>): seq<Location>
  {
    if pages == [] then [] else [PageLocation(pages[0])] + PageLocations(pages[1..])
  }

  /** Leaf pages with empty or absolute paths, nested under the layout,
      resolve to their page locations in order. */
  lemma {:induction false} LeafPagesEntries(pages: seq<RouteRecord>)
    requires forall p | p in pages :: p.children == [] && (p.path == "" || (|p.path| > 0 && p.path[0] == '/'))
    ensures Entries(pages, [LayoutRoute], "/") == PageLocations(pages)
  {
    if pages != [] {
      LeafPagesEntries(pages[1..]);
      assert [LayoutRoute] + [pages[0]] == [LayoutRoute, pages[0]];
    }
  }

  /** The `i`-th page location is that of the `i`-th page. */
  lemma {:induction false} PageLocationsAt(pages: seq<RouteRecord>, i: nat)
    requires i < |pages|
    ensures |PageLocations(pages)| == |pages| && PageLocations(pages)[i] == PageLocation(pages[i])
  {
    if i > 0 {
      PageLocationsAt(pages[1..], i - 1);
    } else if |pages| > 1 {
      PageLocationsAt(pages[1..], 0);
    }
  }

  /** The `k`-th page of the layout has the table's `k + 1`-th location. */
  lemma PageRow(k: nat)
    requires k < 5
    ensures Table[k + 1] == PageLocation(LayoutRoute.children[k])
  {
  }

  /** The layout's five pages and their locations. */
  lemma LayoutPages()
    ensures Entries(LayoutRoute.children, [LayoutRoute], "/") == Table[1..6]
  {
    var pages := LayoutRoute.children;
    LeafPagesEntries(pages);
    PageLocationsAt(pages, 0);
    forall i | 0 <= i < 5 ensures PageLocations(pages)[i] == Table[1..6][i] {
      PageLocationsAt(pages, i);
      PageRow(i);
    }
  }

  /** Every location a group of records yields is matched through the
      records above it, so it inherits their `meta`. */
  lemma {:induction false} EntriesUnder(rs: seq<RouteRecord>, ancestors: seq<RouteRecord>, parentPath: string)
    ensures forall e | e in Entries(rs, ancestors, parentPath) ::
      |ancestors| < |e.matched| && e.matched[..|ancestors|] == ancestors
    decreases rs
  {
    if rs != [] {
      var r := rs[0];
      var chain := ancestors + [r];
      var full := FullPath(ancestors != [], parentPath, r.path);
      EntriesUnder(r.children, chain, full);
      EntriesUnder(rs[1..], ancestors, parentPath);
      forall e | e in Entries(r.children, chain, full)
        ensures |ancestors| < |e.matched| && e.matched[..|ancestors|] == ancestors
      {
        assert e.matched[..|ancestors|] == e.matched[..|chain|][..|ancestors|];
      }
    }
  }

  /** Every page under the layout requires authentication, whatever its own
      `meta`: the layout's `requiresAuth` is among its matched records. */
  lemma LayoutPagesRequireAuth(pages: seq<RouteRecord>)
    ensures forall e | e in Entries(pages, [LayoutRoute], "/") :: SomeRequiresAuth(e.matched)
  {
    EntriesUnder(pages, [LayoutRoute], "/");
    forall e | e in Entries(pages, [LayoutRoute], "/") ensures SomeRequiresAuth(e.matched) {
      assert e.matched[0] == e.matched[..1][0] == LayoutRoute;
    }
  }

  /** Of the table's locations, exactly the login page is public. */
  lemma OnlyLoginIsPublic()
    ensures forall l | l in Table :: SomeRequiresAuth(l.matched) <==> l.name != Some(LoginName)
  {
  }

  /** `FindPath` returns the first entry matching the path, not just any. */
  lemma {:induction false} FindPathFirst(es: seq<Location>, i: nat, path: string)
    requires i < |es| && PathMatches(es[i].path, path)
    requires forall j | 0 <= j < i :: !PathMatches(es[j].path, path)
    ensures FindPath(es, path) == Some(es[i])
  {
    if i > 0 {
      FindPathFirst(es[1..], i - 1, path);
    }
  }

  /** The table's paths are written in lower case. */
  lemma TablePathsLowerCase()
    ensures forall i | 0 <= i < |Table| :: Lower(Table[i].path) == Table[i].path
  {
    forall i | 0 <= i < |Table| ensures Lower(Table[i].path) == Table[i].path {
      var p := Table[i].path;
      forall k | 0 <= k < |p| ensures LowerChar(p[k]) == p[k] {
      }
    }
  }

  /** No requested path matches two of the first six locations of the
      table; only the layout itself repeats `/`. */
  lemma TableFormsDisjoint()
    ensures forall i, j | 0 <= j < i < 6 :: Forms(Table[j].path) !! Forms(Table[i].path)
  {
    TablePathsLowerCase();
  }

  /** Each path of the table, in any letter case and with or without a
      trailing slash, resolves to its own location, and `/` to the home page
      rather than to the bare layout. */
  lemma ResolveKnownPaths(i: nat, path: string)
    requires i < 6 && PathMatches(Table[i].path, path)
    ensures Resolve(path) == Location(path, Table[i].name, Table[i].matched)
  {
    EntriesOfRoutes();
    TableFormsDisjoint();
    FindPathFirst(Table, i, path);
  }

  /** For example, `/Inference/` is the inference page, matched under the
      layout, so it requires authentication. */
  lemma VariantPathIsProtected(json: Json)
    ensures Resolve("/Inference/") == Location("/Inference/", Some("inference"), [LayoutRoute, InferenceRoute])
    ensures SomeRequiresAuth(Resolve("/Inference/").matched)
    ensures Guard(Session(None, false, map[]), Resolve("/Inference/"), json).decision == RedirectToLogin
  {
    TablePathsLowerCase();
    assert Lower("/Inference/") == "/inference/";
    assert Lower(Table[2].path) + "/" == "/inference/";
    assert PathMatches(Table[2].path, "/Inference/");
    ResolveKnownPaths(2, "/Inference/");
  }

  /** The guard's two redirect targets, `{ name: 'login' }` and
      `{ name: 'home' }`. */
  lemma ResolveRedirectNames()
    ensures FindName(Entries(Routes, [], ""), LoginName) == Some(Table[0])
    ensures FindName(Entries(Routes, [], ""), HomeName) == Some(Table[1])
  {
    EntriesOfRoutes();
  }

  /** A path outside the table matches nothing, so it never requires
      authentication. */
  lemma UnknownPathIsPublic(path: string)
    requires forall l | l in Table :: !PathMatches(l.path, path)
    ensures Resolve(path) == Location(path, None, [])
    ensures !SomeRequiresAuth(Resolve(path).matched)
  {
    EntriesOfRoutes();
  }

  /** An unauthenticated visit to any page of the layout, with no persisted
      admin, is sent to the login page and changes nothing. */
  lemma ProtectedPageWithoutSavedAdmin(s: Session, i: nat, json: Json)
    requires !s.isAuthenticated && SavedEntry(s.storage, UserKey).None?
    requires 1 <= i < |Table|
    ensures Guard(s, Table[i], json) == Guarded(s, RedirectToLogin, Some(NothingSaved))
  {
  }

  /** An unauthenticated visit to a page of the layout is let through when
      the persisted admin parses: the synchronous part of `initAuth` has
      already set the flag, before `checkAuth` settles. */
  lemma ProtectedPageWithSavedAdmin(s: Session, i: nat, json: Json)
    requires !s.isAuthenticated && SavedEntry(s.storage, UserKey).Some?
    requires json.parse(s.storage[UserKey]).Some?
    requires 1 <= i < |Table|
    ensures Guard(s, Table[i], json) ==
      Guarded(Session(json.parse(s.storage[UserKey]), true, s.storage), Allow, Some(AwaitingCheckAuth))
  {
  }

  /** A persisted admin that does not parse is dropped, and the visit is sent
      to the login page. */
  lemma ProtectedPageWithUnparseableAdmin(s: Session, i: nat, json: Json)
    requires !s.isAuthenticated && SavedEntry(s.storage, UserKey).Some?
    requires json.parse(s.storage[UserKey]).None?
    requires 1 <= i < |Table|
    ensures Guard(s, Table[i], json) ==
      Guarded(Session(s.user, false, s.storage - {UserKey}), RedirectToLogin, Some(ParseFailed))
  {
  }

  /** An authenticated session visiting the login page is sent home, without
      `initAuth`. */
  lemma AuthenticatedLoginGoesHome(s: Session, json: Json)
    requires s.isAuthenticated
    ensures Guard(s, Table[0], json) == Guarded(s, RedirectToHome, None)
  {
  }

  /** An authenticated session visits every page of the layout, without
      `initAuth`. */
  lemma AuthenticatedPagesAllowed(s: Session, i: nat, json: Json)
    requires s.isAuthenticated
    requires 1 <= i < |Table|
    ensures Guard(s, Table[i], json) == Guarded(s, Allow, None)
  {
  }

  /** The redirect to the login page does not loop: the guard lets the
      redirected navigation through and changes nothing more. */
  lemma LoginRedirectSettles(s: Session, to: Location, json: Json)
    requires Guard(s, to, json).decision == RedirectToLogin
    ensures var t := Guard(s, to, json).session;
      Guard(t, Table[0], json) == Guarded(t, Allow, Some(NothingSaved))
  {
  }

  /** The redirect to the home page does not loop: the guard lets the
      redirected navigation through and changes nothing. */
  lemma HomeRedirectSettles(s: Session, to: Location, json: Json)
    requires Guard(s, to, json).decision == RedirectToHome
    ensures var t := Guard(s, to, json).session;
      Guard(t, Table[1], json) == Guarded(t, Allow, None)
  {
  }
}
