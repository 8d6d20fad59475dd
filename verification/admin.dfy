/** The admin back-office: four in-memory collections, one edit-draft slot per entity kind,
    and the handlers that the dashboard's buttons and inputs call. Every mutation is a pure
    update of the session; nothing is sent to a remote store on this path. */
module AdminDashboard {
  import opened Wrappers
  import opened Types
  import opened Seqs
  import opened Decimal
  import opened Collection
  import opened Ordering

  // ---------------------------------------------------------------------------
  // Drafts built by the "add" buttons
  // ---------------------------------------------------------------------------

  const PROJECT_LOGO_PLACEHOLDER: string := "https://via.placeholder.com/100"
  const NEWS_IMAGE_PLACEHOLDER: string := "https://via.placeholder.com/400x200"
  const TEMPLATE_IMAGE_PLACEHOLDER: string := "https://via.placeholder.com/400x300"

  /** The placeholder id of a new project: `new-` followed by the clock reading in milliseconds. */
  function PlaceholderId(now: nat): (id: string)
    ensures |id| > 4 && id[..4] == "new-"
  {
    "new-" + DecimalString(now)
  }

  /** `handleAddProject`: an empty, disabled project placed after the `count` existing ones. */
  function NewProjectDraft(count: nat, now: nat): Project {
    Project(
      id := PlaceholderId(now),
      name := "",
      logo_url := PROJECT_LOGO_PLACEHOLDER,
      strengths := ["", "", ""],
      register_link := "",
      group_link := "",
      contact_phone := "",
      short_description := "",
      popup_content := "",
      priority := count + 1,
      enabled := false,
      commission_policy := Some(""),
      conditions := None,
      tab_1_title := Some(""),
      tab_1_content := Some(""),
      tab_2_title := Some(""),
      tab_2_content := Some(""),
      tab_3_title := Some(""),
      tab_3_content := Some(""))
  }

  /** `handleAddNews`: the id is `String(count + 1)`, the date is today's ISO date. */
  function NewNewsDraft(count: nat, today: string): NewsItem {
    NewsItem(DecimalString(count + 1), "", "", Some(""), today, News, NEWS_IMAGE_PLACEHOLDER)
  }

  /** `handleAddChannel`. */
  function NewChannelDraft(count: nat): ChannelResource {
    ChannelResource(DecimalString(count + 1), "", "", GUIDE, None, None, Some("FileText"))
  }

  /** `handleAddTemplate`. */
  function NewTemplateDraft(count: nat): LandingPageTemplate {
    LandingPageTemplate(DecimalString(count + 1), "", "", TEMPLATE_IMAGE_PLACEHOLDER, Some("#"), Finance)
  }

  /** What the add buttons promise about their drafts. */
  lemma NewDraftDefaults(count: nat, now: nat, today: string)
    ensures var p := NewProjectDraft(count, now);
      p.id == "new-" + DecimalString(now) && p.priority == count + 1 && !p.enabled
      && |p.strengths| == 3 && forall i :: 0 <= i < 3 ==> p.strengths[i] == ""
    ensures ParseDecimal(NewNewsDraft(count, today).id) == count + 1
    ensures ParseDecimal(NewChannelDraft(count).id) == count + 1
    ensures ParseDecimal(NewTemplateDraft(count).id) == count + 1
  {
    ParseDecimalString(count + 1);
  }

  /** A project placeholder id never equals a numeric id: it starts with a letter. */
  lemma PlaceholderIsNotNumeric(now: nat, n: nat)
    ensures PlaceholderId(now) != DecimalString(n)
  {
    assert PlaceholderId(now)[0] == 'n';
    assert IsDigit(DecimalString(n)[0]);
  }

  // ---------------------------------------------------------------------------
  // Numeric ids and the collision of String(length + 1) with a surviving id
  // ---------------------------------------------------------------------------

  /** The ids of `s` are "1", "2", ..., in order, like every seed collection other than projects. */
  ghost predicate DenseIds<T>(s: seq<T>, key: T -> string) {
    forall i :: 0 <= i < |s| ==> key(s[i]) == DecimalString(i + 1)
  }

  /** On a collection numbered 1..n the new id n + 1 is fresh, so the new draft is appended. */
  lemma DenseIdsNewIsFresh<T>(s: seq<T>, key: T -> string, d: T)
    requires DenseIds(s, key)
    requires key(d) == DecimalString(|s| + 1)
    ensures Save(s, key, d) == s + [d]
  {
    if HasId(s, key, key(d)) {
      var i :| 0 <= i < |s| && key(s[i]) == key(d);
      DecimalStringInjective(i + 1, |s| + 1);
    }
  }

  lemma DenseIdsUnique<T>(s: seq<T>, key: T -> string)
    requires DenseIds(s, key)
    ensures UniqueIds(s, key)
  {
    forall i, j | 0 <= i < j < |s| ensures key(s[i]) != key(s[j]) {
      DecimalStringInjective(i + 1, j + 1);
    }
  }

  /** After deleting any record but the last from a collection numbered 1..n, the next "new" id
      String(length + 1) is the id of the surviving last record: saving the new draft overwrites
      that record instead of adding one, and the count stays the same. */
  lemma CollisionAfterDelete<T>(s: seq<T>, key: T -> string, j: nat, d: T)
    requires DenseIds(s, key)
    requires 1 <= j < |s|
    requires key(d) == DecimalString(|s|)
    ensures var r := Delete(s, key, DecimalString(j), true);
      |r| == |s| - 1
      && key(d) == DecimalString(|r| + 1)
      && HasId(r, key, key(d))
      && |Save(r, key, d)| == |r|
      && (s[|s| - 1] != d ==> s[|s| - 1] !in Save(r, key, d))
  {
    var r := Delete(s, key, DecimalString(j), true);
    DenseIdsUnique(s, key);
    assert key(s[j - 1]) == DecimalString(j);
    DeleteRemovesOne(s, key, DecimalString(j));
    var last := s[|s| - 1];
    DecimalStringInjective(j, |s|);
    assert last in r;
    var k :| 0 <= k < |r| && r[k] == last;
    assert key(r[k]) == key(d);
    var saved := Save(r, key, d);
    assert forall x :: x in saved ==> x == d || (x in r && key(x) != key(d)) by {
      forall x | x in saved ensures x == d || (x in r && key(x) != key(d)) {
        var m :| 0 <= m < |saved| && saved[m] == x;
        if key(r[m]) != key(d) {
          assert x == r[m];
        }
      }
    }
    if last != d {
      assert last !in saved;
    }
  }

  // ---------------------------------------------------------------------------
  // Project-only operations
  // ---------------------------------------------------------------------------

  /** `toggleProjectStatus`: flips `enabled` on the records with the given id. */
  function ToggleEnabled(s: seq<Project>, id: string): (r: seq<Project>)
    ensures |r| == |s|
    ensures forall i :: 0 <= i < |s| && s[i].id == id ==> r[i] == s[i].(enabled := !s[i].enabled)
    ensures forall i :: 0 <= i < |s| && s[i].id != id ==> r[i] == s[i]
  {
    if s == [] then []
    else [if s[0].id == id then s[0].(enabled := !s[0].enabled) else s[0]] + ToggleEnabled(s[1..], id)
  }

  /** Toggling twice restores the collection. */
  lemma ToggleTwice(s: seq<Project>, id: string)
    ensures ToggleEnabled(ToggleEnabled(s, id), id) == s
  {
    var r := ToggleEnabled(ToggleEnabled(s, id), id);
    assert forall i :: 0 <= i < |s| ==> r[i] == s[i];
  }

  /** Toggling keeps every id and priority in place, so the set of keys is unchanged. */
  lemma ToggleKeepsKeys(s: seq<Project>, id: string, other: string)
    ensures HasId(ToggleEnabled(s, id), ProjectId, other) <==> HasId(s, ProjectId, other)
  {
    var r := ToggleEnabled(s, id);
    assert forall i :: 0 <= i < |s| ==> r[i].id == s[i].id;
  }

  // The strength list of the open project draft.

  /** `handleStrengthChange`: the entry at `i` becomes `v`. */
  function SetStrength(xs: seq<string>, i: nat, v: string): (r: seq<string>)
    requires i < |xs|
    ensures |r| == |xs| && r[i] == v
    ensures forall j :: 0 <= j < |xs| && j != i ==> r[j] == xs[j]
  {
    xs[i := v]
  }

  /** `addStrength`: one blank entry at the end. */
  function AddBlankStrength(xs: seq<string>): (r: seq<string>)
    ensures |r| == |xs| + 1 && r[..|xs|] == xs && r[|xs|] == ""
    ensures RemoveStrength(r, |xs|) == xs
  {
    xs + [""]
  }

  /** `removeStrength`: `filter((_, j) => j !== i)`; an index past the end removes nothing. */
  function RemoveStrength(xs: seq<string>, i: nat): (r: seq<string>)
    ensures i < |xs| ==> |r| == |xs| - 1
    ensures i < |xs| ==> forall j :: 0 <= j < i ==> r[j] == xs[j]
    ensures i < |xs| ==> forall j :: i <= j < |r| ==> r[j] == xs[j + 1]
    ensures i >= |xs| ==> r == xs
  {
    if i < |xs| then xs[..i] + xs[i + 1..] else xs
  }

  /** Removing position i keeps the other entries in order: the result is a subsequence. */
  lemma {:induction false} RemoveStrengthIsSubsequence(xs: seq<string>, i: nat)
    ensures IsSubsequence(RemoveStrength(xs, i), xs)
    decreases |xs|
  {
    if i < |xs| && xs != [] {
      if i == 0 {
        SubsequenceOfSelf(xs[1..]);
        assert RemoveStrength(xs, 0) == xs[1..];
      } else {
        RemoveStrengthIsSubsequence(xs[1..], i - 1);
        assert RemoveStrength(xs, i) == [xs[0]] + RemoveStrength(xs[1..], i - 1);
      }
    } else {
      SubsequenceOfSelf(xs);
    }
  }

  lemma {:induction false} SubsequenceOfSelf<T>(s: seq<T>)
    ensures IsSubsequence(s, s)
    decreases |s|
  {
    if s != [] {
      SubsequenceOfSelf(s[1..]);
    }
  }

  // ---------------------------------------------------------------------------
  // The admin project list
  // ---------------------------------------------------------------------------

  /** `toLowerCase` on the ASCII letters. */
  function LowerChar(c: char): (l: char)
    ensures 'A' <= c <= 'Z' ==> l as int == c as int + 32
    ensures !('A' <= c <= 'Z') ==> l == c
  {
    if 'A' <= c <= 'Z' then (c as int + 32) as char else c
  }

  function Lower(s: string): (r: string)
    ensures |r| == |s|
    ensures forall i :: 0 <= i < |s| ==> r[i] == LowerChar(s[i])
  {
    if s == [] then [] else [LowerChar(s[0])] + Lower(s[1..])
  }

  /** `hay.includes(needle)`: `needle` occurs at some position of `hay`. */
  predicate Includes(hay: string, needle: string)
    decreases |hay|
  {
    needle <= hay || (hay != [] && Includes(hay[1..], needle))
  }

  /** `needle` sits in `hay` starting at position k. */
  predicate OccursAt(hay: string, needle: string, k: nat) {
    k + |needle| <= |hay| && hay[k..k + |needle|] == needle
  }

  lemma {:induction false} IncludesAt(hay: string, needle: string, k: nat)
    requires OccursAt(hay, needle, k)
    ensures Includes(hay, needle)
    decreases k
  {
    if k > 0 {
      assert hay[1..][k - 1..k - 1 + |needle|] == hay[k..k + |needle|];
      assert OccursAt(hay[1..], needle, k - 1);
      IncludesAt(hay[1..], needle, k - 1);
    }
  }

  /** Includes holds exactly when the needle is found at some position. */
  lemma {:induction false} IncludesFound(hay: string, needle: string)
    requires Includes(hay, needle)
    ensures exists k: nat :: OccursAt(hay, needle, k)
    decreases |hay|
  {
    if needle <= hay {
      assert hay[0..|needle|] == needle;
      assert OccursAt(hay, needle, 0);
    } else {
      IncludesFound(hay[1..], needle);
      var k: nat :| OccursAt(hay[1..], needle, k);
      assert hay[k + 1..k + 1 + |needle|] == hay[1..][k..k + |needle|];
      assert OccursAt(hay, needle, k + 1);
    }
  }

  /** `includes` is exactly "occurs at some position". */
  lemma IncludesIff(hay: string, needle: string)
    ensures Includes(hay, needle) <==> exists k: nat :: OccursAt(hay, needle, k)
  {
    if Includes(hay, needle) {
      IncludesFound(hay, needle);
    } else if exists k: nat :: OccursAt(hay, needle, k) {
      var k: nat :| OccursAt(hay, needle, k);
      IncludesAt(hay, needle, k);
    }
  }

  function NameMatches(term: string): Project -> bool {
    (p: Project) => Includes(Lower(p.name), Lower(term))
  }

  /** Lines 703-705: the projects whose lower-cased name contains the lower-cased search term,
      in ascending priority, ties in collection order. */
  function AdminProjectList(s: seq<Project>, term: string): (r: seq<Project>)
    ensures SortedByPriority(r)
    ensures multiset(r) == multiset(Filter(s, NameMatches(term)))
    ensures forall i :: 0 <= i < |r| ==> Includes(Lower(r[i].name), Lower(term))
    ensures forall k :: PriorityRun(r, k) == PriorityRun(Filter(s, NameMatches(term)), k)
  {
    var matching := Filter(s, NameMatches(term));
    forall k ensures PriorityRun(SortByPriority(matching), k) == PriorityRun(matching, k) {
      SortIsStable(matching, k);
    }
    var r := SortByPriority(matching);
    assert forall i :: 0 <= i < |r| ==> r[i] in multiset(matching);
    r
  }

  /** An empty search lists every project. */
  lemma EmptySearchListsAll(s: seq<Project>)
    ensures multiset(AdminProjectList(s, "")) == multiset(s)
  {
    assert forall p: Project :: NameMatches("")(p) by {
      forall p: Project ensures NameMatches("")(p) {
        assert Lower("") == [];
        assert [] <= Lower(p.name);
      }
    }
    FilterAll(s, NameMatches(""));
  }

  // ---------------------------------------------------------------------------
  // The dashboard session
  // ---------------------------------------------------------------------------

  datatype AdminView = ProjectsView | NewsView | ChannelView | TemplatesView | SettingsView

  /** The dashboard's state together with the four collections it edits (held by the app root
      and passed in with their setters). */
  datatype Session = Session(
    view: AdminView,
    isEditing: bool,
    searchTerm: string,
    projectForm: Option<Project>,
    newsForm: Option<NewsItem>,
    channelForm: Option<ChannelResource>,
    templateForm: Option<LandingPageTemplate>,
    projects: seq<Project>,
    news: seq<NewsItem>,
    channelResources: seq<ChannelResource>,
    templates: seq<LandingPageTemplate>)

  predicate NoDrafts(st: Session) {
    st.projectForm.None? && st.newsForm.None? && st.channelForm.None? && st.templateForm.None?
  }

  /** The four collections are those of `other`. */
  predicate SameCollections(st: Session, other: Session) {
    st.projects == other.projects && st.news == other.news
    && st.channelResources == other.channelResources && st.templates == other.templates
  }

  /** The collection a committing handler writes to. */
  datatype Kind = ProjectKind | NewsKind | ChannelKind | TemplateKind

  /** Everything but the `k` collection is as in `st`: view, form flag, search, drafts and the
      other three collections. */
  predicate OthersUnchanged(r: Session, st: Session, k: Kind) {
    && r.view == st.view && r.isEditing == st.isEditing && r.searchTerm == st.searchTerm
    && r.projectForm == st.projectForm && r.newsForm == st.newsForm
    && r.channelForm == st.channelForm && r.templateForm == st.templateForm
    && (k != ProjectKind ==> r.projects == st.projects)
    && (k != NewsKind ==> r.news == st.news)
    && (k != ChannelKind ==> r.channelResources == st.channelResources)
    && (k != TemplateKind ==> r.templates == st.templates)
  }

  /** Only the `k` draft slot and the form flag may differ from `st`: the view, the search term,
      the other three draft slots and all four collections are kept. */
  predicate OnlyDraftChanged(r: Session, st: Session, k: Kind) {
    && r.view == st.view && r.searchTerm == st.searchTerm && SameCollections(r, st)
    && (k != ProjectKind ==> r.projectForm == st.projectForm)
    && (k != NewsKind ==> r.newsForm == st.newsForm)
    && (k != ChannelKind ==> r.channelForm == st.channelForm)
    && (k != TemplateKind ==> r.templateForm == st.templateForm)
  }

  /** A freshly mounted dashboard: project view, nothing being edited. */
  function Mount(projects: seq<Project>, news: seq<NewsItem>, channels: seq<ChannelResource>,
                 templates: seq<LandingPageTemplate>): (st: Session)
    ensures st.view == ProjectsView && !st.isEditing && NoDrafts(st) && st.searchTerm == ""
    ensures DraftsConsistent(st)
    ensures st.projects == projects && st.news == news
    ensures st.channelResources == channels && st.templates == templates
  {
    Session(ProjectsView, false, "", None, None, None, None, projects, news, channels, templates)
  }

  /** `resetForms`: every draft slot emptied and the edit form closed; the collections, the view
      and the search term are untouched. */
  function ResetForms(st: Session): (r: Session)
    ensures NoDrafts(r) && !r.isEditing
    ensures SameCollections(r, st) && r.view == st.view && r.searchTerm == st.searchTerm
  {
    st.(projectForm := None, newsForm := None, channelForm := None, templateForm := None, isEditing := false)
  }

  /** A view button: `setActiveView(v); resetForms()`. */
  function SwitchView(st: Session, v: AdminView): (r: Session)
    ensures r.view == v && NoDrafts(r) && !r.isEditing
    ensures SameCollections(r, st)
  {
    ResetForms(st).(view := v)
  }

  // Projects

  /** `handleEditProject`: the draft is a copy of the record; the collection is not touched. */
  function EditProject(st: Session, p: Project): (r: Session)
    ensures r.projectForm == Some(p) && r.isEditing
    ensures OnlyDraftChanged(r, st, ProjectKind)
  {
    st.(projectForm := Some(p), isEditing := true)
  }

  function AddProject(st: Session, now: nat): (r: Session)
    ensures r.projectForm == Some(NewProjectDraft(|st.projects|, now)) && r.isEditing
    ensures OnlyDraftChanged(r, st, ProjectKind)
  {
    st.(projectForm := Some(NewProjectDraft(|st.projects|, now)), isEditing := true)
  }

  /** `handleSaveProject`: with no open draft nothing happens; otherwise upsert by id and reset. */
  function SaveProject(st: Session): (r: Session)
    ensures st.projectForm.None? ==> r == st
    ensures st.projectForm.Some? ==>
      r.projects == Save(st.projects, ProjectId, st.projectForm.value)
      && r.news == st.news && r.channelResources == st.channelResources && r.templates == st.templates
      && NoDrafts(r) && !r.isEditing && r.view == st.view
  {
    match st.projectForm
    case None => st
    case Some(d) => ResetForms(st.(projects := Save(st.projects, ProjectId, d)))
  }

  function ToggleProject(st: Session, id: string): (r: Session)
    ensures r.projects == ToggleEnabled(st.projects, id)
    ensures OthersUnchanged(r, st, ProjectKind)
  {
    st.(projects := ToggleEnabled(st.projects, id))
  }

  function DeleteProject(st: Session, id: string, confirmed: bool): (r: Session)
    ensures !confirmed ==> r == st
    ensures r.projects == Delete(st.projects, ProjectId, id, confirmed)
    ensures OthersUnchanged(r, st, ProjectKind)
  {
    st.(projects := Delete(st.projects, ProjectId, id, confirmed))
  }

  /** The fields `handleProjectChange` is called with. */
  datatype ProjectField =
    | Name(s: string) | LogoUrl(s: string) | RegisterLink(s: string) | GroupLink(s: string)
    | ContactPhone(s: string) | ShortDescription(s: string) | PopupContent(s: string)
    | PriorityField(n: int) | CommissionPolicy(s: string)
    | Tab1Title(s: string) | Tab1Content(s: string) | Tab2Title(s: string) | Tab2Content(s: string)
    | Tab3Title(s: string) | Tab3Content(s: string)

  /** A field's value, whichever of the three field types it has. */
  datatype FieldValue = Text(s: string) | Number(n: int) | MaybeText(o: Option<string>)

  /** Which of the fifteen editable fields `f` names, ignoring the value it carries. */
  function FieldIndex(f: ProjectField): nat {
    match f
    case Name(_) => 0
    case LogoUrl(_) => 1
    case RegisterLink(_) => 2
    case GroupLink(_) => 3
    case ContactPhone(_) => 4
    case ShortDescription(_) => 5
    case PopupContent(_) => 6
    case PriorityField(_) => 7
    case CommissionPolicy(_) => 8
    case Tab1Title(_) => 9
    case Tab1Content(_) => 10
    case Tab2Title(_) => 11
    case Tab2Content(_) => 12
    case Tab3Title(_) => 13
    case Tab3Content(_) => 14
  }

  /** Reads the field of `p` that `f` names (the value `f` carries is ignored). */
  function Get(p: Project, f: ProjectField): FieldValue {
    match f
    case Name(_) => Text(p.name)
    case LogoUrl(_) => Text(p.logo_url)
    case RegisterLink(_) => Text(p.register_link)
    case GroupLink(_) => Text(p.group_link)
    case ContactPhone(_) => Text(p.contact_phone)
    case ShortDescription(_) => Text(p.short_description)
    case PopupContent(_) => Text(p.popup_content)
    case PriorityField(_) => Number(p.priority)
    case CommissionPolicy(_) => MaybeText(p.commission_policy)
    case Tab1Title(_) => MaybeText(p.tab_1_title)
    case Tab1Content(_) => MaybeText(p.tab_1_content)
    case Tab2Title(_) => MaybeText(p.tab_2_title)
    case Tab2Content(_) => MaybeText(p.tab_2_content)
    case Tab3Title(_) => MaybeText(p.tab_3_title)
    case Tab3Content(_) => MaybeText(p.tab_3_content)
  }

  /** The value `f` writes, as the field holds it: the optional fields hold it present. */
  function Carried(f: ProjectField): FieldValue {
    match f
    case PriorityField(n) => Number(n)
    case CommissionPolicy(s) => MaybeText(Some(s))
    case Tab1Title(s) => MaybeText(Some(s))
    case Tab1Content(s) => MaybeText(Some(s))
    case Tab2Title(s) => MaybeText(Some(s))
    case Tab2Content(s) => MaybeText(Some(s))
    case Tab3Title(s) => MaybeText(Some(s))
    case Tab3Content(s) => MaybeText(Some(s))
    case _ => Text(f.s)
  }

  /** `{ ...projectForm, [field]: value }`: the named field reads back the written value and every
      other field, editable or not, keeps its value. */
  function SetField(p: Project, f: ProjectField): (q: Project)
    ensures Get(q, f) == Carried(f)
    ensures forall g :: FieldIndex(g) != FieldIndex(f) ==> Get(q, g) == Get(p, g)
    ensures q.id == p.id && q.strengths == p.strengths && q.enabled == p.enabled
    ensures q.conditions == p.conditions
  {
    match f
    case Name(s) => p.(name := s)
    case LogoUrl(s) => p.(logo_url := s)
    case RegisterLink(s) => p.(register_link := s)
    case GroupLink(s) => p.(group_link := s)
    case ContactPhone(s) => p.(contact_phone := s)
    case ShortDescription(s) => p.(short_description := s)
    case PopupContent(s) => p.(popup_content := s)
    case PriorityField(n) => p.(priority := n)
    case CommissionPolicy(s) => p.(commission_policy := Some(s))
    case Tab1Title(s) => p.(tab_1_title := Some(s))
    case Tab1Content(s) => p.(tab_1_content := Some(s))
    case Tab2Title(s) => p.(tab_2_title := Some(s))
    case Tab2Content(s) => p.(tab_2_content := Some(s))
    case Tab3Title(s) => p.(tab_3_title := Some(s))
    case Tab3Content(s) => p.(tab_3_content := Some(s))
  }


  /** Two projects that agree on every editable field and on the rest are the same project. */
  lemma SameFieldsSameProject(p: Project, q: Project)
    requires forall g :: Get(p, g) == Get(q, g)
    requires p.id == q.id && p.strengths == q.strengths && p.enabled == q.enabled
    requires p.conditions == q.conditions
    ensures p == q
  {
    assert Get(p, Name("")) == Get(q, Name(""));
    assert Get(p, LogoUrl("")) == Get(q, LogoUrl(""));
    assert Get(p, RegisterLink("")) == Get(q, RegisterLink(""));
    assert Get(p, GroupLink("")) == Get(q, GroupLink(""));
    assert Get(p, ContactPhone("")) == Get(q, ContactPhone(""));
    assert Get(p, ShortDescription("")) == Get(q, ShortDescription(""));
    assert Get(p, PopupContent("")) == Get(q, PopupContent(""));
    assert Get(p, PriorityField(0)) == Get(q, PriorityField(0));
    assert Get(p, CommissionPolicy("")) == Get(q, CommissionPolicy(""));
    assert Get(p, Tab1Title("")) == Get(q, Tab1Title(""));
    assert Get(p, Tab1Content("")) == Get(q, Tab1Content(""));
    assert Get(p, Tab2Title("")) == Get(q, Tab2Title(""));
    assert Get(p, Tab2Content("")) == Get(q, Tab2Content(""));
    assert Get(p, Tab3Title("")) == Get(q, Tab3Title(""));
    assert Get(p, Tab3Content("")) == Get(q, Tab3Content(""));
  }

  /** A second edit of the same field overrides the first. */
  lemma SetFieldLastWins(p: Project, f: ProjectField, g: ProjectField)
    requires FieldIndex(f) == FieldIndex(g)
    ensures SetField(SetField(p, f), g) == SetField(p, g)
  {
    var a, b := SetField(SetField(p, f), g), SetField(p, g);
    forall h ensures Get(a, h) == Get(b, h) {
      if FieldIndex(h) == FieldIndex(g) {
        GetSameField(a, h, g);
        GetSameField(b, h, g);
      }
    }
    SameFieldsSameProject(a, b);
  }

  /** Edits of two different fields commute. */
  lemma SetFieldCommutes(p: Project, f: ProjectField, g: ProjectField)
    requires FieldIndex(f) != FieldIndex(g)
    ensures SetField(SetField(p, f), g) == SetField(SetField(p, g), f)
  {
    var a, b := SetField(SetField(p, f), g), SetField(SetField(p, g), f);
    forall h ensures Get(a, h) == Get(b, h) {
      if FieldIndex(h) == FieldIndex(g) {
        GetSameField(a, h, g);
        GetSameField(b, h, g);
        GetSameField(SetField(p, g), h, g);
      } else if FieldIndex(h) == FieldIndex(f) {
        GetSameField(a, h, f);
        GetSameField(b, h, f);
        GetSameField(SetField(p, f), h, f);
      }
    }
    SameFieldsSameProject(a, b);
  }

  /** Writing a field's current value back leaves the project as it is. */
  lemma SetFieldCurrentValue(p: Project, f: ProjectField)
    requires Get(p, f) == Carried(f)
    ensures SetField(p, f) == p
  {
    var q := SetField(p, f);
    forall h ensures Get(q, h) == Get(p, h) {
      if FieldIndex(h) == FieldIndex(f) {
        GetSameField(q, h, f);
        GetSameField(p, h, f);
      }
    }
    SameFieldsSameProject(q, p);
  }

  /** The reader looks only at which field is named, not at the value carried. */
  lemma GetSameField(p: Project, f: ProjectField, g: ProjectField)
    requires FieldIndex(f) == FieldIndex(g)
    ensures Get(p, f) == Get(p, g)
  {
  }

  /** `handleProjectChange`: edits the draft only, keeping its id. */
  function ChangeProject(st: Session, f: ProjectField): (r: Session)
    ensures OnlyDraftChanged(r, st, ProjectKind) && r.isEditing == st.isEditing
    ensures st.projectForm.None? ==> r == st
    ensures st.projectForm.Some? ==> r.projectForm == Some(SetField(st.projectForm.value, f))
  {
    match st.projectForm
    case None => st
    case Some(d) => st.(projectForm := Some(SetField(d, f)))
  }

  /** Applies an edit to the strength list of the open project draft, if there is one. */
  function WithStrengths(st: Session, xs: seq<string>): Session
    requires st.projectForm.Some?
  {
    st.(projectForm := Some(st.projectForm.value.(strengths := xs)))
  }

  function ChangeStrength(st: Session, i: nat, v: string): (r: Session)
    requires st.projectForm.Some? ==> i < |st.projectForm.value.strengths|
    ensures OnlyDraftChanged(r, st, ProjectKind) && r.isEditing == st.isEditing
    ensures st.projectForm.None? ==> r == st
    ensures st.projectForm.Some? ==>
      r.projectForm == Some(st.projectForm.value.(strengths := SetStrength(st.projectForm.value.strengths, i, v)))
  {
    match st.projectForm
    case None => st
    case Some(d) => WithStrengths(st, SetStrength(d.strengths, i, v))
  }

  function AddStrength(st: Session): (r: Session)
    ensures OnlyDraftChanged(r, st, ProjectKind) && r.isEditing == st.isEditing
    ensures st.projectForm.None? ==> r == st
    ensures st.projectForm.Some? ==>
      r.projectForm == Some(st.projectForm.value.(strengths := st.projectForm.value.strengths + [""]))
  {
    match st.projectForm
    case None => st
    case Some(d) => WithStrengths(st, AddBlankStrength(d.strengths))
  }

  function RemoveStrengthAt(st: Session, i: nat): (r: Session)
    ensures OnlyDraftChanged(r, st, ProjectKind) && r.isEditing == st.isEditing
    ensures st.projectForm.None? ==> r == st
    ensures st.projectForm.Some? ==>
      r.projectForm == Some(st.projectForm.value.(strengths := RemoveStrength(st.projectForm.value.strengths, i)))
  {
    match st.projectForm
    case None => st
    case Some(d) => WithStrengths(st, RemoveStrength(d.strengths, i))
  }

  // News

  function EditNews(st: Session, n: NewsItem): (r: Session)
    ensures r.newsForm == Some(n) && r.isEditing && OnlyDraftChanged(r, st, NewsKind)
  {
    st.(newsForm := Some(n), isEditing := true)
  }

  function AddNews(st: Session, today: string): (r: Session)
    ensures r.newsForm == Some(NewNewsDraft(|st.news|, today))
    ensures r.newsForm.value.id == DecimalString(|st.news| + 1)
    ensures r.isEditing && OnlyDraftChanged(r, st, NewsKind)
  {
    st.(newsForm := Some(NewNewsDraft(|st.news|, today)), isEditing := true)
  }

  function SaveNews(st: Session): (r: Session)
    ensures st.newsForm.None? ==> r == st
    ensures st.newsForm.Some? ==>
      r.news == Save(st.news, NewsId, st.newsForm.value)
      && r.projects == st.projects && r.channelResources == st.channelResources && r.templates == st.templates
      && NoDrafts(r) && !r.isEditing && r.view == st.view
  {
    match st.newsForm
    case None => st
    case Some(d) => ResetForms(st.(news := Save(st.news, NewsId, d)))
  }

  function DeleteNews(st: Session, id: string, confirmed: bool): (r: Session)
    ensures !confirmed ==> r == st
    ensures r.news == Delete(st.news, NewsId, id, confirmed)
    ensures OthersUnchanged(r, st, NewsKind)
  {
    st.(news := Delete(st.news, NewsId, id, confirmed))
  }

  // Channel resources

  function EditChannel(st: Session, c: ChannelResource): (r: Session)
    ensures r.channelForm == Some(c) && r.isEditing && OnlyDraftChanged(r, st, ChannelKind)
  {
    st.(channelForm := Some(c), isEditing := true)
  }

  function AddChannel(st: Session): (r: Session)
    ensures r.channelForm == Some(NewChannelDraft(|st.channelResources|))
    ensures r.channelForm.value.id == DecimalString(|st.channelResources| + 1)
    ensures r.isEditing && OnlyDraftChanged(r, st, ChannelKind)
  {
    st.(channelForm := Some(NewChannelDraft(|st.channelResources|)), isEditing := true)
  }

  function SaveChannel(st: Session): (r: Session)
    ensures st.channelForm.None? ==> r == st
    ensures st.channelForm.Some? ==>
      r.channelResources == Save(st.channelResources, ChannelId, st.channelForm.value)
      && r.projects == st.projects && r.news == st.news && r.templates == st.templates
      && NoDrafts(r) && !r.isEditing && r.view == st.view
  {
    match st.channelForm
    case None => st
    case Some(d) => ResetForms(st.(channelResources := Save(st.channelResources, ChannelId, d)))
  }

  function DeleteChannel(st: Session, id: string, confirmed: bool): (r: Session)
    ensures !confirmed ==> r == st
    ensures r.channelResources == Delete(st.channelResources, ChannelId, id, confirmed)
    ensures OthersUnchanged(r, st, ChannelKind)
  {
    st.(channelResources := Delete(st.channelResources, ChannelId, id, confirmed))
  }

  // Landing-page templates

  function EditTemplate(st: Session, t: LandingPageTemplate): (r: Session)
    ensures r.templateForm == Some(t) && r.isEditing && OnlyDraftChanged(r, st, TemplateKind)
  {
    st.(templateForm := Some(t), isEditing := true)
  }

  function AddTemplate(st: Session): (r: Session)
    ensures r.templateForm == Some(NewTemplateDraft(|st.templates|))
    ensures r.templateForm.value.id == DecimalString(|st.templates| + 1)
    ensures r.isEditing && OnlyDraftChanged(r, st, TemplateKind)
  {
    st.(templateForm := Some(NewTemplateDraft(|st.templates|)), isEditing := true)
  }

  function SaveTemplate(st: Session): (r: Session)
    ensures st.templateForm.None? ==> r == st
    ensures st.templateForm.Some? ==>
      r.templates == Save(st.templates, TemplateId, st.templateForm.value)
      && r.projects == st.projects && r.news == st.news && r.channelResources == st.channelResources
      && NoDrafts(r) && !r.isEditing && r.view == st.view
  {
    match st.templateForm
    case None => st
    case Some(d) => ResetForms(st.(templates := Save(st.templates, TemplateId, d)))
  }

  function DeleteTemplate(st: Session, id: string, confirmed: bool): (r: Session)
    ensures !confirmed ==> r == st
    ensures r.templates == Delete(st.templates, TemplateId, id, confirmed)
    ensures OthersUnchanged(r, st, TemplateKind)
  {
    st.(templates := Delete(st.templates, TemplateId, id, confirmed))
  }

  // Image upload into the open draft

  datatype UploadTarget = ProjectLogo | NewsImage | TemplateImage

  /** The branch of `handleFileUpload` run once the file is read: the data URL goes into the
      image field of the matching draft; with that draft slot empty nothing changes. */
  function ApplyUpload(st: Session, target: UploadTarget, dataUrl: string): (r: Session)
    ensures SameCollections(r, st) && r.isEditing == st.isEditing && r.view == st.view
    ensures target == ProjectLogo && st.projectForm.Some? ==>
      r == st.(projectForm := Some(st.projectForm.value.(logo_url := dataUrl)))
    ensures target == NewsImage && st.newsForm.Some? ==>
      r == st.(newsForm := Some(st.newsForm.value.(imageUrl := dataUrl)))
    ensures target == TemplateImage && st.templateForm.Some? ==>
      r == st.(templateForm := Some(st.templateForm.value.(imageUrl := dataUrl)))
    ensures ((target == ProjectLogo && st.projectForm.None?) || (target == NewsImage && st.newsForm.None?)
             || (target == TemplateImage && st.templateForm.None?)) ==> r == st
  {
    if target == ProjectLogo && st.projectForm.Some? then
      st.(projectForm := Some(st.projectForm.value.(logo_url := dataUrl)))
    else if target == NewsImage && st.newsForm.Some? then
      st.(newsForm := Some(st.newsForm.value.(imageUrl := dataUrl)))
    else if target == TemplateImage && st.templateForm.Some? then
      st.(templateForm := Some(st.templateForm.value.(imageUrl := dataUrl)))
    else st
  }

  // ---------------------------------------------------------------------------
  // Events and the draft-slot invariant
  // ---------------------------------------------------------------------------

  datatype Event =
    | SwitchTo(v: AdminView)
    | Cancel
    | Search(term: string)
    | EditProjectEv(p: Project) | AddProjectEv(now: nat) | SaveProjectEv
    | ToggleProjectEv(id: string) | DeleteProjectEv(id: string, confirmed: bool)
    | ChangeProjectEv(f: ProjectField)
    | ChangeStrengthEv(index: nat, value: string) | AddStrengthEv | RemoveStrengthEv(index: nat)
    | UploadEv(target: UploadTarget, dataUrl: string)
    | EditNewsEv(n: NewsItem) | AddNewsEv(today: string) | SaveNewsEv | DeleteNewsEv(id: string, confirmed: bool)
    | EditChannelEv(c: ChannelResource) | AddChannelEv | SaveChannelEv | DeleteChannelEv(id: string, confirmed: bool)
    | EditTemplateEv(t: LandingPageTemplate) | AddTemplateEv | SaveTemplateEv
    | DeleteTemplateEv(id: string, confirmed: bool)
  {
    /** Events that can change a collection; all others only touch the dashboard's own state. */
    predicate Commits() {
      SaveProjectEv? || ToggleProjectEv? || DeleteProjectEv? || SaveNewsEv? || DeleteNewsEv?
      || SaveChannelEv? || DeleteChannelEv? || SaveTemplateEv? || DeleteTemplateEv?
    }
  }

  /** The view whose list or form the event's control belongs to. */
  function Home(ev: Event): Option<AdminView> {
    match ev
    case SwitchTo(_) => None
    case Cancel => None
    case Search(_) => Some(ProjectsView)
    case EditProjectEv(_) => Some(ProjectsView)
    case AddProjectEv(_) => Some(ProjectsView)
    case SaveProjectEv => Some(ProjectsView)
    case ToggleProjectEv(_) => Some(ProjectsView)
    case DeleteProjectEv(_, _) => Some(ProjectsView)
    case ChangeProjectEv(_) => Some(ProjectsView)
    case ChangeStrengthEv(_, _) => Some(ProjectsView)
    case AddStrengthEv => Some(ProjectsView)
    case RemoveStrengthEv(_) => Some(ProjectsView)
    case UploadEv(t, _) =>
      Some(match t case ProjectLogo => ProjectsView case NewsImage => NewsView case TemplateImage => TemplatesView)
    case EditNewsEv(_) => Some(NewsView)
    case AddNewsEv(_) => Some(NewsView)
    case SaveNewsEv => Some(NewsView)
    case DeleteNewsEv(_, _) => Some(NewsView)
    case EditChannelEv(_) => Some(ChannelView)
    case AddChannelEv => Some(ChannelView)
    case SaveChannelEv => Some(ChannelView)
    case DeleteChannelEv(_, _) => Some(ChannelView)
    case EditTemplateEv(_) => Some(TemplatesView)
    case AddTemplateEv => Some(TemplatesView)
    case SaveTemplateEv => Some(TemplatesView)
    case DeleteTemplateEv(_, _) => Some(TemplatesView)
  }

  /** Controls of the edit form (as opposed to the list). */
  predicate InForm(ev: Event) {
    ev.Cancel? || ev.SaveProjectEv? || ev.ChangeProjectEv? || ev.ChangeStrengthEv? || ev.AddStrengthEv?
    || ev.RemoveStrengthEv? || ev.UploadEv? || ev.SaveNewsEv? || ev.SaveChannelEv? || ev.SaveTemplateEv?
  }

  /** The draft slot of the active view is occupied. */
  predicate ActiveDraftOpen(st: Session) {
    match st.view
    case ProjectsView => st.projectForm.Some?
    case NewsView => st.newsForm.Some?
    case ChannelView => st.channelForm.Some?
    case TemplatesView => st.templateForm.Some?
    case SettingsView => false
  }

  /** The event's control is on screen: view buttons always; list controls in their view while
      not editing; form controls in their view while its form is open. */
  predicate Offered(st: Session, ev: Event) {
    && (Home(ev).Some? ==> Home(ev).value == st.view)
    && (ev.SwitchTo? || (InForm(ev) <==> (st.isEditing && ActiveDraftOpen(st))))
    && (ev.ChangeStrengthEv? ==> ev.index < |st.projectForm.value.strengths|)
  }

  /** Only the draft slot of the active view may be occupied, and the edit form is open exactly
      when that slot is. */
  predicate DraftsConsistent(st: Session) {
    && (st.view != ProjectsView ==> st.projectForm.None?)
    && (st.view != NewsView ==> st.newsForm.None?)
    && (st.view != ChannelView ==> st.channelForm.None?)
    && (st.view != TemplatesView ==> st.templateForm.None?)
    && (st.isEditing <==> ActiveDraftOpen(st))
  }

  /** Runs the handler an event is wired to. */
  function Step(st: Session, ev: Event): (r: Session)
    requires ev.ChangeStrengthEv? && st.projectForm.Some? ==> ev.index < |st.projectForm.value.strengths|
    ensures !ev.Commits() ==> SameCollections(r, st)
  {
    match ev
    case SwitchTo(v) => SwitchView(st, v)
    case Cancel => ResetForms(st)
    case Search(term) => st.(searchTerm := term)
    case EditProjectEv(p) => EditProject(st, p)
    case AddProjectEv(now) => AddProject(st, now)
    case SaveProjectEv => SaveProject(st)
    case ToggleProjectEv(id) => ToggleProject(st, id)
    case DeleteProjectEv(id, ok) => DeleteProject(st, id, ok)
    case ChangeProjectEv(f) => ChangeProject(st, f)
    case ChangeStrengthEv(i, v) => ChangeStrength(st, i, v)
    case AddStrengthEv => AddStrength(st)
    case RemoveStrengthEv(i) => RemoveStrengthAt(st, i)
    case UploadEv(t, data) => ApplyUpload(st, t, data)
    case EditNewsEv(n) => EditNews(st, n)
    case AddNewsEv(today) => AddNews(st, today)
    case SaveNewsEv => SaveNews(st)
    case DeleteNewsEv(id, ok) => DeleteNews(st, id, ok)
    case EditChannelEv(c) => EditChannel(st, c)
    case AddChannelEv => AddChannel(st)
    case SaveChannelEv => SaveChannel(st)
    case DeleteChannelEv(id, ok) => DeleteChannel(st, id, ok)
    case EditTemplateEv(t) => EditTemplate(st, t)
    case AddTemplateEv => AddTemplate(st)
    case SaveTemplateEv => SaveTemplate(st)
    case DeleteTemplateEv(id, ok) => DeleteTemplate(st, id, ok)
  }

  /** Every event the dashboard offers keeps the draft slots consistent: at most one draft exists,
      it belongs to the active view, and the form is open exactly when it exists. */
  lemma StepKeepsDraftsConsistent(st: Session, ev: Event)
    requires DraftsConsistent(st) && Offered(st, ev)
    ensures DraftsConsistent(Step(st, ev))
  {
  }

  /** Every event of `evs` is offered in the state the previous ones lead to. */
  predicate OfferedRun(st: Session, evs: seq<Event>)
    decreases |evs|
  {
    evs == [] || (Offered(st, evs[0]) && OfferedRun(Step(st, evs[0]), evs[1..]))
  }

  /** Runs a sequence of offered events. */
  function Run(st: Session, evs: seq<Event>): Session
    requires OfferedRun(st, evs)
    decreases |evs|
  {
    if evs == [] then st else Run(Step(st, evs[0]), evs[1..])
  }

  /** Any sequence of offered events keeps the draft slots consistent. */
  lemma {:induction false} RunKeepsDraftsConsistent(st: Session, evs: seq<Event>)
    requires DraftsConsistent(st) && OfferedRun(st, evs)
    ensures DraftsConsistent(Run(st, evs))
    decreases |evs|
  {
    if evs != [] {
      StepKeepsDraftsConsistent(st, evs[0]);
      RunKeepsDraftsConsistent(Step(st, evs[0]), evs[1..]);
    }
  }

  /** Editing a draft (its fields, its strength list, its image), opening forms, cancelling and
      switching views never touch the collections: only save, toggle and delete do. */
  lemma {:induction false} DraftEditsLeaveCollections(st: Session, evs: seq<Event>)
    requires OfferedRun(st, evs)
    requires forall i :: 0 <= i < |evs| ==> !evs[i].Commits()
    ensures SameCollections(Run(st, evs), st)
    decreases |evs|
  {
    if evs != [] {
      DraftEditsLeaveCollections(Step(st, evs[0]), evs[1..]);
    }
  }
}
