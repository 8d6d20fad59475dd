/** Start-up reconciliation: the database rows that the four fetches return, their mapping onto
    the domain records, and the rule that adopts a fetched list only when its fetch succeeded
    with at least one row. */
module Bootstrap {
  import opened Wrappers
  import opened Types

  /** The outcome of one promise once all four have settled. */
  datatype Settled<R> = Fulfilled(rows: seq<R>) | Rejected

  // Rows as the database returns them (column names kept; bookkeeping timestamps dropped).

  datatype ProjectRow = ProjectRow(
    id: string,
    name: string,
    logo_url: string,
    strengths: Option<seq<string>>,
    register_link: string,
    group_link: string,
    contact_phone: string,
    short_description: string,
    popup_content: string,
    priority: int,
    enabled: bool,
    commission_policy: Option<string>,
    conditions: Option<string>,
    tab_1_title: Option<string>,
    tab_1_content: Option<string>,
    tab_2_title: Option<string>,
    tab_2_content: Option<string>,
    tab_3_title: Option<string>,
    tab_3_content: Option<string>)

  datatype NewsRow = NewsRow(
    id: string, title: string, summary: string, content: Option<string>,
    date: string, category: NewsCategory, image_url: string)

  datatype ChannelRow = ChannelRow(
    id: string, title: string, description: string, kind: ResourceType,
    link_url: Option<string>, content: Option<string>, icon_name: Option<string>)

  datatype TemplateRow = TemplateRow(
    id: string, title: string, description: string, image_url: string,
    demo_url: Option<string>, category: TemplateCategory)

  // Row to record

  /** `x || undefined`: an empty or missing string becomes absent. */
  function KeepTruthy(o: Option<string>): (r: Option<string>)
    ensures r.Some? <==> Truthy(o)
    ensures r.Some? ==> r == o
  {
    if Truthy(o) then o else None
  }

  function MapProjectRow(p: ProjectRow): (q: Project)
    ensures q.id == p.id && q.priority == p.priority && q.enabled == p.enabled
    ensures q.strengths == (if p.strengths.Some? then p.strengths.value else [])
  {
    Project(
      id := p.id,
      name := p.name,
      logo_url := p.logo_url,
      strengths := p.strengths.GetOr([]),
      register_link := p.register_link,
      group_link := p.group_link,
      contact_phone := p.contact_phone,
      short_description := p.short_description,
      popup_content := p.popup_content,
      priority := p.priority,
      enabled := p.enabled,
      commission_policy := p.commission_policy,
      conditions := p.conditions,
      tab_1_title := p.tab_1_title,
      tab_1_content := p.tab_1_content,
      tab_2_title := p.tab_2_title,
      tab_2_content := p.tab_2_content,
      tab_3_title := p.tab_3_title,
      tab_3_content := p.tab_3_content)
  }

  function MapNewsRow(n: NewsRow): (m: NewsItem)
    ensures m.id == n.id && m.imageUrl == n.image_url && m.category == n.category
    ensures m.content.Some? <==> Truthy(n.content)
  {
    NewsItem(n.id, n.title, n.summary, KeepTruthy(n.content), n.date, n.category, n.image_url)
  }

  function MapChannelRow(c: ChannelRow): (r: ChannelResource)
    ensures r.id == c.id && r.kind == c.kind && r.link_url == c.link_url
    ensures r.content == c.content && r.icon_name == c.icon_name
  {
    ChannelResource(c.id, c.title, c.description, c.kind, c.link_url, c.content, c.icon_name)
  }

  function MapTemplateRow(t: TemplateRow): (r: LandingPageTemplate)
    ensures r.id == t.id && r.imageUrl == t.image_url && r.category == t.category
    ensures r.demoUrl.Some? <==> Truthy(t.demo_url)
  {
    LandingPageTemplate(t.id, t.title, t.description, t.image_url, KeepTruthy(t.demo_url), t.category)
  }

  // Record to row: the inverse direction, used to state what the mapping loses.

  function ProjectToRow(p: Project): ProjectRow {
    ProjectRow(p.id, p.name, p.logo_url, Some(p.strengths), p.register_link, p.group_link,
               p.contact_phone, p.short_description, p.popup_content, p.priority, p.enabled,
               p.commission_policy, p.conditions, p.tab_1_title, p.tab_1_content,
               p.tab_2_title, p.tab_2_content, p.tab_3_title, p.tab_3_content)
  }

  function NewsToRow(n: NewsItem): NewsRow {
    NewsRow(n.id, n.title, n.summary, n.content, n.date, n.category, n.imageUrl)
  }

  function ChannelToRow(c: ChannelResource): ChannelRow {
    ChannelRow(c.id, c.title, c.description, c.kind, c.link_url, c.content, c.icon_name)
  }

  function TemplateToRow(t: LandingPageTemplate): TemplateRow {
    TemplateRow(t.id, t.title, t.description, t.imageUrl, t.demoUrl, t.category)
  }

  /** Projects and channel resources survive a store-and-load round trip unchanged. */
  lemma ProjectRoundTrip(p: Project)
    ensures MapProjectRow(ProjectToRow(p)) == p
  {
  }

  lemma ChannelRoundTrip(c: ChannelResource)
    ensures MapChannelRow(ChannelToRow(c)) == c
  {
  }

  /** A news item survives the round trip exactly when its content is not the empty string:
      an empty body comes back as no body. */
  lemma NewsRoundTrip(n: NewsItem)
    ensures MapNewsRow(NewsToRow(n)) == n <==> n.content != Some("")
  {
    if n.content == Some("") {
      assert MapNewsRow(NewsToRow(n)).content == None;
    }
  }

  /** Likewise a template loses an empty demo link. */
  lemma TemplateRoundTrip(t: LandingPageTemplate)
    ensures MapTemplateRow(TemplateToRow(t)) == t <==> t.demoUrl != Some("")
  {
    if t.demoUrl == Some("") {
      assert MapTemplateRow(TemplateToRow(t)).demoUrl == None;
    }
  }

  /** A row with a missing strength list loads as a project with no strengths. */
  lemma MissingStrengthsAreEmpty(p: ProjectRow)
    requires p.strengths.None?
    ensures MapProjectRow(p).strengths == []
  {
  }

  // The adoption rule

  /** `rows.map(f)`. */
  function MapRows<R, T>(rows: seq<R>, f: R -> T): (r: seq<T>)
    ensures |r| == |rows|
    ensures forall i :: 0 <= i < |rows| ==> r[i] == f(rows[i])
  {
    if rows == [] then [] else [f(rows[0])] + MapRows(rows[1..], f)
  }

  /** `r` is `rows` mapped through `f`, element by element, in order. */
  ghost predicate MappedFrom<R, T>(r: seq<T>, rows: seq<R>, f: R -> T) {
    |r| == |rows| && forall i :: 0 <= i < |r| ==> r[i] == f(rows[i])
  }

  /** The fetch produced something to show: fulfilled with a non-empty list. */
  predicate HasData<R>(res: Settled<R>) {
    res.Fulfilled? && |res.rows| > 0
  }

  /** One collection's reconciliation: the mapped rows replace the current list when the fetch
      fulfilled with at least one row; a rejection or an empty table keeps the current list. */
  function Adopt<R, T>(current: seq<T>, res: Settled<R>, f: R -> T): (r: seq<T>)
    ensures HasData(res) ==> MappedFrom(r, res.rows, f)
    ensures !HasData(res) ==> r == current
    ensures |r| > 0 <==> |current| > 0 || HasData(res)
  {
    if HasData(res) then MapRows(res.rows, f) else current
  }

  /** Applying the same outcome twice gives the same list as once when it has data; with no data
      both leave the list alone. */
  lemma AdoptIdempotent<R, T>(current: seq<T>, res: Settled<R>, f: R -> T)
    ensures Adopt(Adopt(current, res, f), res, f) == Adopt(current, res, f)
  {
  }

  /** The four settled outcomes, in the order the fetches were issued. */
  datatype Outcomes = Outcomes(
    projects: Settled<ProjectRow>,
    news: Settled<NewsRow>,
    channels: Settled<ChannelRow>,
    templates: Settled<TemplateRow>)

  /** The four collections the app holds. */
  datatype Collections = Collections(
    projects: seq<Project>,
    news: seq<NewsItem>,
    channelResources: seq<ChannelResource>,
    templates: seq<LandingPageTemplate>)

  /** `r` is what the adoption rule makes of `c`, collection by collection: a collection whose
      outcome has data is its rows mapped in order, any other collection is unchanged. */
  ghost predicate ReconciledFrom(r: Collections, c: Collections, o: Outcomes) {
    && (HasData(o.projects) ==> MappedFrom(r.projects, o.projects.rows, MapProjectRow))
    && (!HasData(o.projects) ==> r.projects == c.projects)
    && (HasData(o.news) ==> MappedFrom(r.news, o.news.rows, MapNewsRow))
    && (!HasData(o.news) ==> r.news == c.news)
    && (HasData(o.channels) ==> MappedFrom(r.channelResources, o.channels.rows, MapChannelRow))
    && (!HasData(o.channels) ==> r.channelResources == c.channelResources)
    && (HasData(o.templates) ==> MappedFrom(r.templates, o.templates.rows, MapTemplateRow))
    && (!HasData(o.templates) ==> r.templates == c.templates)
  }

  /** The reconciliation used both at start-up and by the reload helper: each collection is
      decided by its own outcome alone. */
  function Reconcile(c: Collections, o: Outcomes): (r: Collections)
    ensures ReconciledFrom(r, c, o)
  {
    Collections(
      Adopt(c.projects, o.projects, MapProjectRow),
      Adopt(c.news, o.news, MapNewsRow),
      Adopt(c.channelResources, o.channels, MapChannelRow),
      Adopt(c.templates, o.templates, MapTemplateRow))
  }

  /** One collection's outcome never affects another: changing only the project outcome leaves
      news, channel resources and templates as they would otherwise be, and so on. */
  lemma ReconcileIndependent(c: Collections, o1: Outcomes, o2: Outcomes)
    ensures o1.projects == o2.projects ==> Reconcile(c, o1).projects == Reconcile(c, o2).projects
    ensures o1.news == o2.news ==> Reconcile(c, o1).news == Reconcile(c, o2).news
    ensures o1.channels == o2.channels ==> Reconcile(c, o1).channelResources == Reconcile(c, o2).channelResources
    ensures o1.templates == o2.templates ==> Reconcile(c, o1).templates == Reconcile(c, o2).templates
  {
  }

  /** With every fetch rejected (no database reachable) the collections stay exactly as they were. */
  lemma AllRejectedKeepsEverything(c: Collections)
    ensures Reconcile(c, Outcomes(Rejected, Rejected, Rejected, Rejected)) == c
  {
  }
}
