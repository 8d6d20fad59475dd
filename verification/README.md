# FinZ content core in Dafny

FinZ is a sales-support web app for consumer-finance agents. Its public pages list partner
projects, news, channel-building resources and landing-page templates. An admin dashboard edits
those four collections in memory. This project models that core as pure functions over
immutable records and sequences:

- **Records.** The records and their closed enumerations (`Types`), plus the database row shapes
  and the row-to-record mapping (`Bootstrap`).
- **Collection operations.** The generic collection operations every dashboard handler uses:
  upsert-by-id save and confirmed filter-delete (`Collection`). The stable ascending priority
  sort (`Ordering`). `Array.prototype.filter`/`slice` and `String(n)` (`Seqs`, `Decimal`).
- **Dashboard session.** The admin dashboard session (`AdminDashboard`):
  - its four draft slots, the edit flag and the view;
  - every handler: add/edit/save/delete per kind, the enabled toggle, strength-list editing,
    image upload into the open draft, form reset and view switch;
  - the admin list (case-insensitive name search, then priority sort);
  - the invariant that at most the active view's draft exists and the form is open exactly
    when it does.
- **Start-up reconciliation.** Each of the four settled fetches replaces its collection only
  when it fulfilled with at least one row (`Bootstrap.Reconcile`).
- **App root.** Seed state, loading flag, admin click / login / logout, the rendered screen and
  the public project listing (`App`).
- **Display projections.** Desktop and mobile sidebars, the theme toggle, the popup's tab filter
  and single-open accordion, the card's three strengths, and the channel-icon choice (`Display`).
- **Seed data.** The seed collections as concrete values, with facts about them (`Seed`).

Modules follow the program's structure. `Wrappers`, `Seqs`, `Decimal`, `Types`, `Collection`
and `Ordering` are the foundations. `AdminDashboard`, `Bootstrap`, `Display`, `Seed` and `App`
build on them.

The clock, the file reader, the confirmation dialog and the database are inputs:
- `now`/`today` for new drafts;
- an opaque data-URL string for uploads;
- a `confirmed` boolean for deletes;
- `Settled` outcomes for fetches.

`priority` is an unbounded integer.

Two things about the source are worth knowing:
- The reload helper in `App.tsx` (lines 174-249) is defined but never called. `App.Reload`
  models it because it applies the same adoption rule as start-up (`App.ReloadMatchesStartup`).
- Pressing the same popup tab twice restores the accordion only when no tab or that same tab
  was open. If a different tab j was open, the first press opens i and the second closes
  everything. `Display.ToggleTabTwice` states the restoring case and
  `Display.ToggleTabTwiceFromOther` the other.

## Model

| member | source | states |
|---|---|---|
| Decimal.DecimalString | components/AdminDashboard.tsx:145 | `String(n)` for a natural number: non-empty, all digits, no leading zero, one digit exactly below 10 |
| Decimal.ParseDecimalString | components/AdminDashboard.tsx:145 | reading the decimal string back gives the number (round trip) |
| Decimal.DecimalStringInjective | components/AdminDashboard.tsx:183 | distinct numbers give distinct id strings |
| Collection.Save | components/AdminDashboard.tsx:93-103 | id present: same length, every record with the draft's id replaced by the draft, all others kept in place; id absent: the draft appended; afterwards the id is present |
| Collection.Delete | components/AdminDashboard.tsx:109-113 | unconfirmed or absent id: unchanged; confirmed: no record with the id survives, every other record survives in its original order (a subsequence of the input), no record is invented, length drops by the number of matches |
| Collection.DeleteRemovesOne | components/AdminDashboard.tsx:170-174 | with unique ids, deleting a present id removes exactly one record |
| Collection.SavePreservesUniqueIds | components/AdminDashboard.tsx:95-98 | saving keeps ids unique |
| Collection.SaveIdempotent | components/AdminDashboard.tsx:95-98 | saving the same draft twice equals saving it once |
| Collection.SaveNewThenDelete | components/AdminDashboard.tsx:158-174 | saving a draft with a fresh id and then deleting that id restores the collection |
| Ordering.SortByPriority | components/AdminDashboard.tsx:705 | the result is non-decreasing in priority and a permutation of the input |
| Ordering.SortIsStable | App.tsx:501 | for every priority value the records with that priority keep their relative input order |
| Ordering.SortOfSorted | App.tsx:501 | an already-ordered list is returned unchanged |
| AdminDashboard.PlaceholderId | components/AdminDashboard.tsx:71 | a new project's id is `new-` followed by the clock reading |
| AdminDashboard.NewDraftDefaults | components/AdminDashboard.tsx:69-91 | new project: placeholder id, priority count+1, disabled, three blank strengths; new news/channel/template: id reads back as count+1 |
| AdminDashboard.PlaceholderIsNotNumeric | components/AdminDashboard.tsx:71 | a project placeholder id never equals a numeric id |
| AdminDashboard.DenseIdsNewIsFresh | components/AdminDashboard.tsx:144-168 | on a collection numbered 1..n the new id n+1 is free, so saving the new draft appends it |
| AdminDashboard.DenseIdsUnique | constants.ts:166-194 | a collection numbered 1..n has unique ids |
| AdminDashboard.CollisionAfterDelete | components/AdminDashboard.tsx:145 | after deleting any record but the last from a collection numbered 1..n, the new id equals the last record's id; saving the new draft overwrites that record and the count stays n-1 |
| AdminDashboard.ToggleEnabled | components/AdminDashboard.tsx:105-107 | same length; records with the id have `enabled` negated and nothing else changed; all other records unchanged |
| AdminDashboard.ToggleTwice | components/AdminDashboard.tsx:105-107 | toggling the same id twice restores the collection |
| AdminDashboard.ToggleKeepsKeys | components/AdminDashboard.tsx:106 | the set of ids present is unchanged by a toggle |
| AdminDashboard.SetStrength | components/AdminDashboard.tsx:119-125 | same length, position i holds the new value, every other position unchanged |
| AdminDashboard.AddBlankStrength | components/AdminDashboard.tsx:127-129 | the old list followed by one empty entry; removing that last entry gives the old list back |
| AdminDashboard.RemoveStrength | components/AdminDashboard.tsx:131-136 | position i removed, entries before it and after it kept in order; an index past the end removes nothing |
| AdminDashboard.RemoveStrengthIsSubsequence | components/AdminDashboard.tsx:133 | the remaining strengths are a subsequence of the original |
| AdminDashboard.Lower | components/AdminDashboard.tsx:704 | lower-casing keeps the length and maps each character on its own |
| AdminDashboard.IncludesIff | components/AdminDashboard.tsx:704 | `includes` holds exactly when the needle occurs at some position |
| AdminDashboard.AdminProjectList | components/AdminDashboard.tsx:703-705 | the listed projects are the name-search matches, in non-decreasing priority, ties in collection order, each match listed |
| AdminDashboard.EmptySearchListsAll | components/AdminDashboard.tsx:27 | with the initial empty search every project is listed |
| AdminDashboard.Mount | components/AdminDashboard.tsx:25-33 | the dashboard opens on the project view with no draft and the form closed, draft slots consistent |
| AdminDashboard.ResetForms | components/AdminDashboard.tsx:250-256 | all four draft slots empty and the form closed; collections, view and search untouched |
| AdminDashboard.SwitchView | components/AdminDashboard.tsx:642-654 | the chosen view is active with no draft and the form closed; collections untouched |
| AdminDashboard.EditProject | components/AdminDashboard.tsx:64-67 | the draft is the record and the form is open; view, search, the other draft slots and the collections untouched |
| AdminDashboard.AddProject | components/AdminDashboard.tsx:69-91 | the draft is the new-project default for the current count and the form is open; view, search, the other draft slots and the collections untouched |
| AdminDashboard.SaveProject | components/AdminDashboard.tsx:93-103 | no draft: nothing changes; otherwise projects become the upsert of the draft, other collections unchanged, drafts cleared and form closed |
| AdminDashboard.DeleteProject | components/AdminDashboard.tsx:109-113 | only the project collection changes, by the confirmed delete; unconfirmed changes nothing |
| AdminDashboard.SetField | components/AdminDashboard.tsx:115-117 | the named field reads back the written value; every other editable field, and the id, enabled flag, strengths and conditions, keep their values |
| AdminDashboard.SetFieldLastWins | components/AdminDashboard.tsx:115-117 | a second edit of the same field overrides the first |
| AdminDashboard.SetFieldCommutes | components/AdminDashboard.tsx:115-117 | edits of two different fields commute |
| AdminDashboard.SetFieldCurrentValue | components/AdminDashboard.tsx:115-117 | writing a field's current value back leaves the draft unchanged |
| AdminDashboard.ChangeProject | components/AdminDashboard.tsx:115-117 | the open draft becomes the draft with that one field set; view, search, form flag, the other draft slots and the collections untouched; with no draft nothing changes |
| AdminDashboard.ChangeStrength | components/AdminDashboard.tsx:119-125 | the draft becomes the same draft with its strengths replaced by the set-at-index result; view, search, form flag, other draft slots and collections untouched; no draft: no change |
| AdminDashboard.AddStrength | components/AdminDashboard.tsx:127-129 | the draft becomes the same draft with `""` appended after its old strengths; view, search, form flag, other draft slots and collections untouched; no draft: no change |
| AdminDashboard.RemoveStrengthAt | components/AdminDashboard.tsx:131-136 | the draft becomes the same draft with its strengths replaced by the remove-at-index result; view, search, form flag, other draft slots and collections untouched; no draft: no change |
| AdminDashboard.EditNews | components/AdminDashboard.tsx:139-142 | the news draft is the item and the form is open; view, search, the other draft slots and the collections untouched |
| AdminDashboard.AddNews | components/AdminDashboard.tsx:144-156 | the news draft is the new-news default for the current count and today's date, its id the decimal string of count+1, and the form is open; view, search, the other draft slots and the collections untouched |
| AdminDashboard.SaveNews | components/AdminDashboard.tsx:158-168 | no draft: nothing changes; otherwise news becomes the upsert of the draft, others unchanged, drafts cleared |
| AdminDashboard.DeleteNews | components/AdminDashboard.tsx:170-174 | only the news collection changes, by the confirmed delete |
| AdminDashboard.EditChannel | components/AdminDashboard.tsx:177-180 | the channel draft is the resource and the form is open; view, search, the other draft slots and the collections untouched |
| AdminDashboard.AddChannel | components/AdminDashboard.tsx:182-192 | the channel draft is the new-resource default for the current count, its id the decimal string of count+1, and the form is open; view, search, the other draft slots and the collections untouched |
| AdminDashboard.SaveChannel | components/AdminDashboard.tsx:194-204 | no draft: nothing changes; otherwise channel resources become the upsert of the draft, others unchanged, drafts cleared |
| AdminDashboard.DeleteChannel | components/AdminDashboard.tsx:206-210 | only the channel collection changes, by the confirmed delete |
| AdminDashboard.EditTemplate | components/AdminDashboard.tsx:213-216 | the template draft is the template and the form is open; view, search, the other draft slots and the collections untouched |
| AdminDashboard.AddTemplate | components/AdminDashboard.tsx:218-229 | the template draft is the new-template default for the current count, its id the decimal string of count+1, and the form is open; view, search, the other draft slots and the collections untouched |
| AdminDashboard.SaveTemplate | components/AdminDashboard.tsx:231-241 | no draft: nothing changes; otherwise templates become the upsert of the draft, others unchanged, drafts cleared |
| AdminDashboard.DeleteTemplate | components/AdminDashboard.tsx:243-247 | only the template collection changes, by the confirmed delete |
| AdminDashboard.ApplyUpload | components/AdminDashboard.tsx:51-57 | the data URL lands in the image field of the matching draft only; with that slot empty nothing changes; collections, view and form flag untouched |
| AdminDashboard.Step | components/AdminDashboard.tsx:64-256 | every event other than save, toggle and delete leaves the four collections unchanged |
| AdminDashboard.StepKeepsDraftsConsistent | components/AdminDashboard.tsx:667-669 | any control the dashboard shows keeps at most one draft, belonging to the active view, with the form open exactly when it exists |
| AdminDashboard.RunKeepsDraftsConsistent | components/AdminDashboard.tsx:250-256 | the draft-slot invariant holds after any sequence of offered events |
| AdminDashboard.DraftEditsLeaveCollections | components/AdminDashboard.tsx:115-136 | draft edits (fields, strengths, image), opening forms, cancelling and switching views never change a collection |
| Bootstrap.KeepTruthy | App.tsx:80 | `x \|\| undefined`: present exactly when the string is present and non-empty, and then unchanged |
| Bootstrap.MapProjectRow | App.tsx:45-67 | id, priority and enabled carried over; missing strengths become the empty list |
| Bootstrap.MapNewsRow | App.tsx:75-85 | id, category carried over, `image_url` becomes `imageUrl`, content kept only when non-empty |
| Bootstrap.MapChannelRow | App.tsx:93-103 | id, type, link, content and icon name carried over as they are |
| Bootstrap.MapTemplateRow | App.tsx:111-120 | id, category carried over, `image_url` becomes `imageUrl`, demo link kept only when non-empty |
| Bootstrap.ProjectRoundTrip | App.tsx:45-67 | a project stored as a row and loaded back is unchanged |
| Bootstrap.ChannelRoundTrip | App.tsx:93-103 | a channel resource stored and loaded back is unchanged |
| Bootstrap.NewsRoundTrip | App.tsx:80 | a news item survives a store-and-load round trip exactly when its content is not the empty string |
| Bootstrap.TemplateRoundTrip | App.tsx:117 | a template survives the round trip exactly when its demo link is not the empty string |
| Bootstrap.MissingStrengthsAreEmpty | App.tsx:50 | a row without strengths loads with an empty strength list |
| Bootstrap.MapRows | App.tsx:46 | `map` keeps length and order, element by element |
| Bootstrap.Adopt | App.tsx:45 | fulfilled and non-empty: the mapped rows, same length and order; otherwise the current list; never empties a non-empty list |
| Bootstrap.AdoptIdempotent | App.tsx:75 | applying the same outcome twice equals applying it once |
| Bootstrap.Reconcile | App.tsx:37-127 | each of the four collections follows the adoption rule for its own outcome |
| Bootstrap.ReconcileIndependent | App.tsx:93 | one collection's outcome never affects another collection |
| Bootstrap.AllRejectedKeepsEverything | App.tsx:128-131 | with every fetch rejected all four collections keep their values |
| Display.Enabled | components/Layout.tsx:132 | only enabled projects, every enabled project, in collection order (a subsequence) and as many as there are enabled projects |
| Display.HotProjects | components/Layout.tsx:111 | at most five, all enabled, a prefix of the enabled projects in collection order, exactly min(5, enabled count) of them |
| Display.MobileProjects | components/Layout.tsx:132 | exactly the enabled projects, with no cap |
| Display.SidebarsKeepOrder | components/Layout.tsx:111-132 | the mobile list is a subsequence of the collection and the desktop list is its prefix (no priority sort) |
| Display.FewEnabledShowsAll | components/Layout.tsx:111 | with at most five enabled projects both sidebars agree |
| Display.ToggleTheme | components/Layout.tsx:27-29 | the theme flag is negated |
| Display.ToggleThemeTwice | components/Layout.tsx:27-29 | toggling twice restores the theme |
| Display.HighlightedTab | App.tsx:545 | the login screen highlights Home; any other tab highlights itself |
| Display.VisibleTabs | components/ProjectPopup.tsx:18-22 | each tab has non-empty title and content, every such candidate is shown, in the order tab 1, tab 2, tab 3, and as many tabs as candidates that qualify (equal candidates are not merged) |
| Display.NoTabFieldsNoTabs | components/ProjectPopup.tsx:22 | a project without tab titles shows no tabs |
| Display.ToggleTab | components/ProjectPopup.tsx:12-16 | pressing the open tab closes it; pressing another opens exactly that one |
| Display.ToggleTabTwice | components/ProjectPopup.tsx:14-16 | pressing the same tab twice restores the state when no tab or that tab was open |
| Display.ToggleTabTwiceFromOther | components/ProjectPopup.tsx:14-16 | when a different tab was open, pressing i twice leaves all tabs closed |
| Display.DisplayStrengths | components/ProjectCard.tsx:15 | min(3, count) strengths, a prefix of the project's list, all of them when there are at most three |
| Display.ChannelIcon | App.tsx:163-170 | each of the three known names picks its icon, and only that name does |
| Seed.SeedProjectsShape | constants.ts:4-164 | six projects, distinct ids, priority i+1 at position i, all enabled, so already in listing order |
| Seed.SeedCardsTruncate | constants.ts:8-16 | every seed project has more than three strengths and its card shows the first three |
| Seed.SeedPopupsShowAllTabs | constants.ts:24-29 | every seed project shows all three popup tabs in order |
| Seed.SeedNewsIds | constants.ts:166-194 | seed news ids are "1", "2", "3" |
| Seed.SeedNewsNewestFirst | constants.ts:172-190 | seed news dates are non-increasing |
| Seed.SeedAddBuildsFour | constants.ts:196-247 | on the seed, each add button builds id "4" and saving appends a fourth record |
| Seed.SeedNewsCollision | components/AdminDashboard.tsx:144-168 | delete news "1" then add: the new id "3" overwrites the third seed item and two items remain |
| Seed.SeedIconsKnown | constants.ts:202-218 | seed icon names are drawn from Users, FileText, Share2, so none falls back to the default icon |
| App.Init | App.tsx:17-27 | collections equal the seeds, Home tab, no selection, logged out, loading |
| App.FinishLoading | App.tsx:37-134 | loading ends whatever the outcomes; tab, login and selection unchanged; each collection becomes its mapped rows when its fetch fulfilled with data and is otherwise kept |
| App.Reload | App.tsx:174-249 | the same per-collection adoption rule as start-up; loading flag, tab, login and selection untouched |
| App.ReloadMatchesStartup | App.tsx:184 | reload and start-up give the same collections for the same outcomes |
| App.AdminClick | App.tsx:141-147 | logged in: the Admin tab; logged out: the login tab; nothing else changes |
| App.LoginSuccess | App.tsx:149-152 | logged in and on the Admin tab |
| App.Logout | App.tsx:154-157 | logged out and on the Home tab |
| App.Navigate | components/Layout.tsx:94 | the chosen tab becomes active; login and data unchanged |
| App.OpenProject | App.tsx:159-161 | the clicked project is selected for the popup |
| App.ClosePopup | App.tsx:557 | the selection is cleared |
| App.Render | App.tsx:253-271 | spinner exactly while loading; dashboard exactly on the Admin tab while logged in; login page for the login tab or the Admin tab while logged out |
| App.AdminClickNeedsLogin | App.tsx:141-147 | the admin button reaches the dashboard exactly when logged in and loaded |
| App.LogoutLocksAdmin | App.tsx:154-157 | after logout neither navigation nor the admin button shows the dashboard |
| App.RunKeepsAdminTabGuarded | App.tsx:268-271 | the Admin tab is active only while logged in, under any sequence of offered events |
| App.RunKeepsLoaded | App.tsx:132-134 | once loaded the spinner never returns |
| App.PublicListing | App.tsx:501 | non-decreasing in priority, a permutation of the enabled projects, each listed project enabled |
| App.PublicListingMembership | App.tsx:501 | a project is listed exactly when it is in the collection and enabled |
| App.PublicListingStable | App.tsx:501 | projects of equal priority keep collection order |
| App.ToggleChangesListing | components/AdminDashboard.tsx:105-107 | after a toggle the project is listed exactly when it was disabled before |
| App.ListingOfSortedEnabled | App.tsx:501 | an all-enabled collection already in priority order is listed as it stands |
| App.SeedListingIsSeed | App.tsx:18 | the seed listing is the seed in seed order |
| App.OfflineStartShowsSeed | App.tsx:128-131 | with every fetch rejected the home page lists exactly the seed projects |
| App.AdminMountConsistent | App.tsx:273-285 | the dashboard mounts on the app's collections with consistent, empty draft slots |

## Left out

- Remote persistence: the database client, its generated row types and the helper layer. A fetch is an abstract `Settled` outcome. The admin path writes only to local state, so nothing is written back.
- Reading the uploaded file (FileReader, base64): the resulting data URL is an opaque string input to `ApplyUpload`.
- AdminDashboard.ApplyUpload: the file read is treated as finishing before the next event, and the URL is written into the draft current at that moment. In the program the read finishes later, in `reader.onloadend`, and writes `{ ...draft, image: url }` over the draft captured when the file was picked. Two effects are not modelled: a field edit made while the read is in flight is lost, and a read that ends after Cancel, Save or a view switch refills a draft slot while the form is closed or another view is active. The second breaks the draft-slot invariant, so `StepKeepsDraftsConsistent` and `RunKeepsDraftsConsistent` hold only under the synchronous-read assumption.
- The loan and DTI calculators: floating-point arithmetic.
- The login form's credential comparison: login success is an abstract event.
- The Supabase connection-test page and the usage examples: diagnostics only.
- Realtime subscriptions, `alert` messages, console logging, and all JSX/CSS rendering beyond which screen is shown.
- The settings view's save: it only shows a message.
- `window.confirm` is a boolean input to the delete handlers.
- The inline field setters of the news, channel and template forms: each replaces one field of the open draft, like `ChangeProject`, and never the id. They are not modelled one by one.
- AdminDashboard.ChangeStrength: requires an index inside the draft's strength list. The form only offers existing indices. JavaScript would extend the array with holes for a larger index.
- AdminDashboard.LowerChar: folds only ASCII letters. `toLowerCase` also folds other scripts, such as the Vietnamese capitals with diacritics.
- AdminDashboard.SetField: priority is set from an integer. The form's `Number(...)` can yield a fraction or NaN, which the model does not represent.
- App.Reload: the reload helper is defined but never called.
- The `created_at`/`updated_at` row columns: the mapping drops them.
- The channel resource's `type` field is named `kind` in the model, because `type` is a Dafny keyword.
- Unchecked casts of database values: the row types hold closed enumerations for news category, resource type and template category, and an integer priority. The program only casts what the database returns (`App.tsx` lines 82, 98 and 118), so an out-of-range category or a fractional priority passes through unchanged there; the model cannot represent such a value.
- The start-up project fetch (`getProjects`, `lib/supabaseHelpers.ts` lines 32-36) asks the database for enabled rows only, ordered by priority, unlike the reload helper's fetch of all rows. The model takes the fetched rows as given, so it does not promise that adopted start-up projects are all enabled or priority-sorted.
