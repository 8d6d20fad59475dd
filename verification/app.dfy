/** The application root: the four collections (seeded, then reconciled with the database once at
    start-up), the loading flag, the admin login flag, the active tab and the selected project. */
module App {
  import opened Wrappers
  import opened Types
  import opened Seqs
  import opened Collection
  import opened Ordering
  import opened Bootstrap
  import opened Display
  import opened Seed
  import opened AdminDashboard

  datatype AppState = AppState(
    activeTab: ActiveTab,
    data: Collections,
    selectedProject: Option<Project>,
    isAdminLoggedIn: bool,
    isLoading: bool)

  function Seeds(): Collections {
    Collections(INITIAL_PROJECTS, MOCK_NEWS, MOCK_CHANNEL_RESOURCES, MOCK_TEMPLATES)
  }

  /** The first render: seed collections, Home tab, logged out, loading. */
  function Init(): (st: AppState)
    ensures st.data.projects == INITIAL_PROJECTS && st.data.news == MOCK_NEWS
    ensures st.data.channelResources == MOCK_CHANNEL_RESOURCES && st.data.templates == MOCK_TEMPLATES
    ensures st.activeTab == Tab(HomeTab) && st.selectedProject.None?
    ensures !st.isAdminLoggedIn && st.isLoading
  {
    AppState(Tab(HomeTab), Seeds(), None, false, true)
  }

  /** The start-up effect once all four fetches have settled: reconcile, then clear the loading
      flag whatever the outcomes were. */
  function FinishLoading(st: AppState, o: Outcomes): (r: AppState)
    ensures !r.isLoading
    ensures r.activeTab == st.activeTab && r.isAdminLoggedIn == st.isAdminLoggedIn
    ensures r.selectedProject == st.selectedProject
    ensures ReconciledFrom(r.data, st.data, o)
  {
    st.(data := Reconcile(st.data, o), isLoading := false)
  }

  /** The reload helper: the same reconciliation (with disabled projects included in the project
      fetch), leaving the loading flag alone. */
  function Reload(st: AppState, o: Outcomes): (r: AppState)
    ensures r.isLoading == st.isLoading && r.activeTab == st.activeTab
    ensures r.isAdminLoggedIn == st.isAdminLoggedIn && r.selectedProject == st.selectedProject
    ensures ReconciledFrom(r.data, st.data, o)
  {
    st.(data := Reconcile(st.data, o))
  }

  /** Reload and start-up apply the same adoption rule to the collections. */
  lemma ReloadMatchesStartup(st: AppState, o: Outcomes)
    ensures Reload(st, o).data == FinishLoading(st, o).data
  {
  }

  // The auth and tab handlers

  function AdminClick(st: AppState): (r: AppState)
    ensures st.isAdminLoggedIn ==> r.activeTab == Tab(AdminTab)
    ensures !st.isAdminLoggedIn ==> r.activeTab == AdminLogin
    ensures r.isAdminLoggedIn == st.isAdminLoggedIn && r.data == st.data && r.isLoading == st.isLoading
  {
    st.(activeTab := if st.isAdminLoggedIn then Tab(AdminTab) else AdminLogin)
  }

  function LoginSuccess(st: AppState): (r: AppState)
    ensures r.isAdminLoggedIn && r.activeTab == Tab(AdminTab)
    ensures r.data == st.data && r.isLoading == st.isLoading
  {
    st.(isAdminLoggedIn := true, activeTab := Tab(AdminTab))
  }

  function Logout(st: AppState): (r: AppState)
    ensures !r.isAdminLoggedIn && r.activeTab == Tab(HomeTab)
    ensures r.data == st.data && r.isLoading == st.isLoading
  {
    st.(isAdminLoggedIn := false, activeTab := Tab(HomeTab))
  }

  /** The tabs the layout's navigation offers. */
  predicate NavTab(t: TabType) {
    t == HomeTab || t == CalculatorTab || t == DtiTab || t == BuildChannelTab
    || t == LandingPageTab || t == NewsTab
  }

  /** A navigation button (or the login page's back button, which goes Home). */
  function Navigate(st: AppState, t: TabType): (r: AppState)
    ensures r.activeTab == Tab(t)
    ensures r.isAdminLoggedIn == st.isAdminLoggedIn && r.data == st.data && r.isLoading == st.isLoading
  {
    st.(activeTab := Tab(t))
  }

  function OpenProject(st: AppState, p: Project): (r: AppState)
    ensures r.selectedProject == Some(p) && r.activeTab == st.activeTab && r.data == st.data
  {
    st.(selectedProject := Some(p))
  }

  function ClosePopup(st: AppState): (r: AppState)
    ensures r.selectedProject.None? && r.activeTab == st.activeTab && r.data == st.data
  {
    st.(selectedProject := None)
  }

  // Rendering

  datatype Screen =
    | Spinner | LoginScreen | AdminScreen | HomeScreen | CalculatorScreen | DtiScreen
    | BuildChannelScreen | LandingPageScreen | NewsScreen | SupabaseTestScreen

  /** What the main area shows. */
  function Render(st: AppState): (s: Screen)
    ensures s == Spinner <==> st.isLoading
    ensures s == AdminScreen <==> !st.isLoading && st.activeTab == Tab(AdminTab) && st.isAdminLoggedIn
    ensures s == LoginScreen <==>
      !st.isLoading && (st.activeTab == AdminLogin || (st.activeTab == Tab(AdminTab) && !st.isAdminLoggedIn))
  {
    if st.isLoading then Spinner
    else match st.activeTab
      case AdminLogin => LoginScreen
      case Tab(t) =>
        match t
        case AdminTab => if st.isAdminLoggedIn then AdminScreen else LoginScreen
        case CalculatorTab => CalculatorScreen
        case DtiTab => DtiScreen
        case BuildChannelTab => BuildChannelScreen
        case LandingPageTab => LandingPageScreen
        case NewsTab => NewsScreen
        case SupabaseTestTab => SupabaseTestScreen
        case HomeTab => HomeScreen
  }

  /** The admin button opens the dashboard exactly when logged in (and loaded). */
  lemma AdminClickNeedsLogin(st: AppState)
    ensures Render(AdminClick(st)) == AdminScreen <==> st.isAdminLoggedIn && !st.isLoading
    ensures !st.isLoading && !st.isAdminLoggedIn ==> Render(AdminClick(st)) == LoginScreen
  {
  }

  /** After logging out, no route reaches the dashboard until the next login. */
  lemma LogoutLocksAdmin(st: AppState, t: TabType)
    ensures Render(Navigate(Logout(st), t)) != AdminScreen
    ensures Render(AdminClick(Logout(st))) != AdminScreen
  {
  }

  // Events and the login invariant

  datatype AppEvent =
    | AdminClickEv | LoginSuccessEv | LogoutEv | NavigateEv(tab: TabType)
    | OpenProjectEv(p: Project) | ClosePopupEv | LoadedEv(o: Outcomes) | ReloadEv(reloaded: Outcomes)

  predicate Offered(ev: AppEvent) {
    ev.NavigateEv? ==> NavTab(ev.tab)
  }

  function Step(st: AppState, ev: AppEvent): AppState {
    match ev
    case AdminClickEv => AdminClick(st)
    case LoginSuccessEv => LoginSuccess(st)
    case LogoutEv => Logout(st)
    case NavigateEv(t) => Navigate(st, t)
    case OpenProjectEv(p) => OpenProject(st, p)
    case ClosePopupEv => ClosePopup(st)
    case LoadedEv(o) => FinishLoading(st, o)
    case ReloadEv(o) => Reload(st, o)
  }

  /** The Admin tab is only ever active while logged in. */
  predicate AdminTabGuarded(st: AppState) {
    st.activeTab == Tab(AdminTab) ==> st.isAdminLoggedIn
  }

  lemma {:induction false} RunKeepsAdminTabGuarded(st: AppState, evs: seq<AppEvent>)
    requires AdminTabGuarded(st)
    requires forall i :: 0 <= i < |evs| ==> Offered(evs[i])
    ensures AdminTabGuarded(RunApp(st, evs))
    decreases |evs|
  {
    if evs != [] {
      RunKeepsAdminTabGuarded(Step(st, evs[0]), evs[1..]);
    }
  }

  /** Once loaded, the app never shows the spinner again. */
  lemma {:induction false} RunKeepsLoaded(st: AppState, evs: seq<AppEvent>)
    requires !st.isLoading
    ensures !RunApp(st, evs).isLoading
    decreases |evs|
  {
    if evs != [] {
      RunKeepsLoaded(Step(st, evs[0]), evs[1..]);
    }
  }

  function RunApp(st: AppState, evs: seq<AppEvent>): AppState
    decreases |evs|
  {
    if evs == [] then st else RunApp(Step(st, evs[0]), evs[1..])
  }

  // ---------------------------------------------------------------------------
  // The public project listing
  // ---------------------------------------------------------------------------

  /** The home page's listing: the enabled projects, in ascending priority, ties in collection order. */
  function PublicListing(ps: seq<Project>): (r: seq<Project>)
    ensures SortedByPriority(r)
    ensures multiset(r) == multiset(Filter(ps, IsEnabled))
    ensures forall i :: 0 <= i < |r| ==> r[i].enabled
  {
    var r := SortByPriority(Filter(ps, IsEnabled));
    assert forall i :: 0 <= i < |r| ==> r[i] in multiset(Filter(ps, IsEnabled));
    r
  }

  /** A project is listed exactly when it is in the collection and enabled. */
  lemma PublicListingMembership(ps: seq<Project>, p: Project)
    ensures p in PublicListing(ps) <==> p in ps && p.enabled
  {
    var f := Filter(ps, IsEnabled);
    assert p in PublicListing(ps) <==> p in multiset(f);
    FilterIsSubsequence(ps, IsEnabled);
    FilterKeeps(ps, IsEnabled);
    if p in f {
      var i :| 0 <= i < |f| && f[i] == p;
      SubsequenceMembers(f, ps, i);
    }
  }

  lemma {:induction false} SubsequenceMembers<T>(sub: seq<T>, s: seq<T>, i: nat)
    requires IsSubsequence(sub, s) && i < |sub|
    ensures sub[i] in s
    decreases |s|
  {
    if sub[0] == s[0] && IsSubsequence(sub[1..], s[1..]) {
      if i > 0 {
        SubsequenceMembers(sub[1..], s[1..], i - 1);
      }
    } else {
      SubsequenceMembers(sub, s[1..], i);
    }
  }

  /** Projects of equal priority keep their collection order in the listing. */
  lemma PublicListingStable(ps: seq<Project>, k: int)
    ensures PriorityRun(PublicListing(ps), k) == PriorityRun(Filter(ps, IsEnabled), k)
  {
    SortIsStable(Filter(ps, IsEnabled), k);
  }

  /** Disabling a listed project in the dashboard removes it from the listing; enabling an
      unlisted one adds it. */
  lemma ToggleChangesListing(ps: seq<Project>, i: nat)
    requires i < |ps|
    ensures var q := ps[i].(enabled := !ps[i].enabled);
      q in PublicListing(ToggleEnabled(ps, ps[i].id)) <==> !ps[i].enabled
  {
    var toggled := ToggleEnabled(ps, ps[i].id);
    var q := ps[i].(enabled := !ps[i].enabled);
    assert toggled[i] == q;
    PublicListingMembership(toggled, q);
  }

  /** A collection that is already all enabled and in priority order is listed as it stands. */
  lemma ListingOfSortedEnabled(ps: seq<Project>)
    requires SortedByPriority(ps)
    requires forall i :: 0 <= i < |ps| ==> ps[i].enabled
    ensures PublicListing(ps) == ps
  {
    FilterAll(ps, IsEnabled);
    SortOfSorted(ps);
  }

  /** With the seed, the listing is the seed itself, in seed order. */
  lemma SeedListingIsSeed()
    ensures PublicListing(INITIAL_PROJECTS) == INITIAL_PROJECTS
  {
    SeedProjectsShape();
    ListingOfSortedEnabled(INITIAL_PROJECTS);
  }

  /** With every fetch rejected the home page lists exactly the seed projects. */
  lemma OfflineStartShowsSeed()
    ensures var st := FinishLoading(Init(), Outcomes(Rejected, Rejected, Rejected, Rejected));
      Render(st) == HomeScreen && PublicListing(st.data.projects) == INITIAL_PROJECTS
  {
    var st := FinishLoading(Init(), Outcomes(Rejected, Rejected, Rejected, Rejected));
    assert st.data.projects == INITIAL_PROJECTS;
    SeedListingIsSeed();
  }

  /** The dashboard mounted from the app's collections, with the draft slots consistent. */
  lemma AdminMountConsistent(st: AppState)
    ensures var ses := AdminDashboard.Mount(st.data.projects, st.data.news, st.data.channelResources, st.data.templates);
      DraftsConsistent(ses) && NoDrafts(ses)
  {
  }
}
