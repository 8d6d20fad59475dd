/** The site's content entities. Field names follow the TypeScript interfaces; optional fields are `Option`s. */
module Types {
  import opened Wrappers

  /** A partner program card. `priority` orders the public listing; `enabled` controls public visibility. */
  datatype Project = Project(
    id: string,
    name: string,
    logo_url: string,
    strengths: seq<string>,
    register_link: string,
    group_link: string,
    contact_phone: string,
    short_description: string,
    popup_content: string,
    priority: int,
    enabled: bool,
    commission_policy: Option<string>,
    conditions: Option<string>,
    tab_1_title: Option<string>,
    tab_1_content: Option<string>,
    tab_2_title: Option<string>,
    tab_2_content: Option<string>,
    tab_3_title: Option<string>,
    tab_3_content: Option<string>)

  datatype NewsCategory = News | Knowledge | Policy

  /** `date` is the ISO calendar date `YYYY-MM-DD` as a string. */
  datatype NewsItem = NewsItem(
    id: string,
    title: string,
    summary: string,
    content: Option<string>,
    date: string,
    category: NewsCategory,
    imageUrl: string)

  datatype ResourceType = GUIDE | RESOURCE | SCRIPT

  datatype ChannelResource = ChannelResource(
    id: string,
    title: string,
    description: string,
    kind: ResourceType,   // the TypeScript field `type`
    link_url: Option<string>,
    content: Option<string>,
    icon_name: Option<string>)

  datatype TemplateCategory = Finance | Insurance | General

  datatype LandingPageTemplate = LandingPageTemplate(
    id: string,
    title: string,
    description: string,
    imageUrl: string,
    demoUrl: Option<string>,
    category: TemplateCategory)

  /** The public navigation tabs. */
  datatype TabType = HomeTab | CalculatorTab | DtiTab | BuildChannelTab | LandingPageTab | NewsTab | AdminTab | SupabaseTestTab

  // The string `id` is the only key that save, delete and toggle compare.
  function ProjectId(p: Project): string { p.id }
  function NewsId(n: NewsItem): string { n.id }
  function ChannelId(c: ChannelResource): string { c.id }
  function TemplateId(t: LandingPageTemplate): string { t.id }

  function Priority(p: Project): int { p.priority }
  predicate IsEnabled(p: Project) { p.enabled }
}
