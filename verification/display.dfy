/** Read-only projections the public pages draw from the collections, and the two small pieces of
    view state kept by the layout (theme) and the project popup (open accordion tab). */
module Display {
  import opened Wrappers
  import opened Types
  import opened Seqs

  // ---------------------------------------------------------------------------
  // Layout sidebars
  // ---------------------------------------------------------------------------

  const HOT_LIMIT: nat := 5

  function Enabled(ps: seq<Project>): (r: seq<Project>)
    ensures forall i :: 0 <= i < |r| ==> r[i].enabled
    ensures forall i :: 0 <= i < |ps| && ps[i].enabled ==> ps[i] in r
    ensures IsSubsequence(r, ps)
    ensures |r| == CountWhere(ps, IsEnabled)
  {
    FilterKeeps(ps, IsEnabled);
    FilterIsSubsequence(ps, IsEnabled);
    FilterLength(ps, IsEnabled);
    Filter(ps, IsEnabled)
  }

  /** The desktop "hot projects" list: the first five enabled projects in collection order
      (no sorting by priority). */
  function HotProjects(ps: seq<Project>): (r: seq<Project>)
    ensures |r| <= HOT_LIMIT
    ensures forall i :: 0 <= i < |r| ==> r[i].enabled
    ensures r <= Enabled(ps)
    ensures |r| == if CountWhere(ps, IsEnabled) <= HOT_LIMIT then CountWhere(ps, IsEnabled) else HOT_LIMIT
  {
    FilterLength(ps, IsEnabled);
    Take(Enabled(ps), HOT_LIMIT)
  }

  /** The mobile list: every enabled project, in collection order, with no cap. */
  function MobileProjects(ps: seq<Project>): (r: seq<Project>)
    ensures forall i :: 0 <= i < |r| ==> r[i].enabled
    ensures forall i :: 0 <= i < |ps| && ps[i].enabled ==> ps[i] in r
    ensures |r| == CountWhere(ps, IsEnabled)
  {
    FilterLength(ps, IsEnabled);
    Enabled(ps)
  }

  /** Both sidebars keep collection order: they are subsequences of the collection, and the
      desktop list is the head of the mobile one. */
  lemma SidebarsKeepOrder(ps: seq<Project>)
    ensures IsSubsequence(MobileProjects(ps), ps)
    ensures HotProjects(ps) <= MobileProjects(ps)
  {
    FilterIsSubsequence(ps, IsEnabled);
  }

  /** With at most five enabled projects the desktop list shows all of them. */
  lemma FewEnabledShowsAll(ps: seq<Project>)
    requires CountWhere(ps, IsEnabled) <= HOT_LIMIT
    ensures HotProjects(ps) == MobileProjects(ps)
  {
    FilterLength(ps, IsEnabled);
  }

  // ---------------------------------------------------------------------------
  // Theme
  // ---------------------------------------------------------------------------

  /** The layout starts in light mode. */
  const INITIAL_DARK: bool := false

  function ToggleTheme(isDark: bool): (r: bool)
    ensures r != isDark
  {
    !isDark
  }

  lemma ToggleThemeTwice(isDark: bool)
    ensures ToggleTheme(ToggleTheme(isDark)) == isDark
  {
  }

  /** The tab the layout highlights: the login screen shows as Home. */
  datatype ActiveTab = Tab(tab: TabType) | AdminLogin

  function HighlightedTab(t: ActiveTab): (r: TabType)
    ensures t.Tab? ==> r == t.tab
    ensures t.AdminLogin? ==> r == HomeTab
  {
    match t
    case Tab(x) => x
    case AdminLogin => HomeTab
  }

  // ---------------------------------------------------------------------------
  // Project popup
  // ---------------------------------------------------------------------------

  datatype TabPair = TabPair(title: Option<string>, content: Option<string>)

  /** The three candidate tabs of a project, in order. */
  function CandidateTabs(p: Project): (r: seq<TabPair>)
    ensures |r| == 3
  {
    [TabPair(p.tab_1_title, p.tab_1_content),
     TabPair(p.tab_2_title, p.tab_2_content),
     TabPair(p.tab_3_title, p.tab_3_content)]
  }

  /** A tab is shown only when both its title and its content are non-empty strings. */
  predicate Shown(t: TabPair) {
    Truthy(t.title) && Truthy(t.content)
  }

  /** The shown tabs of any list of candidates, in order. */
  function ShownTabs(c: seq<TabPair>): (r: seq<TabPair>)
    ensures |r| <= |c|
    ensures forall i :: 0 <= i < |r| ==> Truthy(r[i].title) && Truthy(r[i].content)
    ensures forall k :: 0 <= k < |c| && Shown(c[k]) ==> c[k] in r
    ensures IsSubsequence(r, c)
    ensures |r| == CountWhere(c, Shown)
  {
    FilterKeeps(c, Shown);
    FilterIsSubsequence(c, Shown);
    FilterLength(c, Shown);
    Filter(c, Shown)
  }

  function VisibleTabs(p: Project): (r: seq<TabPair>)
    ensures |r| <= 3
    ensures forall i :: 0 <= i < |r| ==> Truthy(r[i].title) && Truthy(r[i].content)
    ensures forall k :: 0 <= k < 3 && Shown(CandidateTabs(p)[k]) ==> CandidateTabs(p)[k] in r
    ensures IsSubsequence(r, CandidateTabs(p))
    ensures |r| == CountWhere(CandidateTabs(p), Shown)
  {
    ShownTabs(CandidateTabs(p))
  }

  /** A project whose tab fields are all missing shows no tabs. */
  lemma NoTabFieldsNoTabs(p: Project)
    requires p.tab_1_title.None? && p.tab_2_title.None? && p.tab_3_title.None?
    ensures VisibleTabs(p) == []
  {
    var c := CandidateTabs(p);
    assert forall k :: 0 <= k < |c| ==> !Shown(c[k]);
    FilterLength(c, Shown);
  }

  /** The accordion: at most one tab is open, recorded as an optional index. Pressing the open
      tab closes it; pressing any other tab opens that one instead. */
  function ToggleTab(open: Option<nat>, i: nat): (r: Option<nat>)
    ensures open == Some(i) ==> r == None
    ensures open != Some(i) ==> r == Some(i)
  {
    if open == Some(i) then None else Some(i)
  }

  /** Pressing the same tab twice restores the state when no tab or that tab was open. */
  lemma ToggleTabTwice(open: Option<nat>, i: nat)
    requires open == None || open == Some(i)
    ensures ToggleTab(ToggleTab(open, i), i) == open
  {
  }

  /** When a different tab j was open, pressing i twice leaves every tab closed, not j open. */
  lemma ToggleTabTwiceFromOther(j: nat, i: nat)
    requires j != i
    ensures ToggleTab(ToggleTab(Some(j), i), i) == None
  {
  }

  // ---------------------------------------------------------------------------
  // Project card
  // ---------------------------------------------------------------------------

  const CARD_STRENGTHS: nat := 3

  /** The card shows the first three strengths, in order. */
  function DisplayStrengths(p: Project): (r: seq<string>)
    ensures |r| == if |p.strengths| <= CARD_STRENGTHS then |p.strengths| else CARD_STRENGTHS
    ensures r <= p.strengths
    ensures |p.strengths| <= CARD_STRENGTHS ==> r == p.strengths
  {
    Take(p.strengths, CARD_STRENGTHS)
  }

  // ---------------------------------------------------------------------------
  // Channel resource icons
  // ---------------------------------------------------------------------------

  datatype Icon = UsersIcon | FileTextIcon | Share2Icon | CheckCircle2Icon

  /** The icon drawn for a resource's icon name; unknown or missing names get a check mark. */
  function ChannelIcon(name: Option<string>): (r: Icon)
    ensures r == UsersIcon <==> name == Some("Users")
    ensures r == FileTextIcon <==> name == Some("FileText")
    ensures r == Share2Icon <==> name == Some("Share2")
  {
    match name
    case Some(n) =>
      if n == "Users" then UsersIcon
      else if n == "FileText" then FileTextIcon
      else if n == "Share2" then Share2Icon
      else CheckCircle2Icon
    case None => CheckCircle2Icon
  }
}
