# Resume builder document store, in Dafny

This project models the logic inside a React resume builder: the in-memory
resume document and the pure derivations the pages compute from it.

A resume is an ordered list of sections. Each section has an id, a type
(`contact`, `summary`, `experience`, `education`, `skills`, `projects`,
`certifications`, or any other string), a title and a list of loosely-typed
items.

The model covers five areas:

- **The builder page** (`Builder.ResumeBuilder`) holds `sections`,
  `draggedSectionId` and `selectedTemplateId`. Its handlers are:
  - update a section by id;
  - delete a section by id;
  - append a new section, titled from a fixed table;
  - start a drag;
  - drop one section on another. A drop relocates the dragged section to the
    target's index by two array splices; it does not swap them.

  The list operations are functions in `SectionList`, and each handler is
  proved to set the state to that function of the old state. The two builder
  components (`DashboardResumeBuilder.tsx` and `ResumeBuilder.tsx`) contain
  the same store logic, so one model serves both, and the table below cites
  the lines in each.
- **The section editor** (`SectionEditor`) handles renaming a section, the
  blank-item factory, appending an item, deleting items by id and setting
  one named field of the items with an id.
- **The preview** (`Preview`) derives:
  - the contact record, the summary text and the displayed name;
  - the heading and the items of each block (first section of each type only);
  - date ranges with "Present";
  - skill-bar widths and labels;
  - which layout renders.
- **The template gallery** (`Templates`) covers the catalogue, the text
  search, the category tabs, the "No templates found" state, favourites and
  feature badges.
- **The resume list** (`Resumes`) covers the text search and the grid/list
  view switch.

Items are maps from field name to value (a string or a boolean), because the
editor writes a field chosen by name at run time. A missing key stands for
JavaScript's `undefined`, and the `{}` made by the factory's default branch is
the empty map. JavaScript truthiness and the text React renders for a value
are written out (`Document.Truthy`, `Document.Shown`).

Every clock reading that makes up an id (`Date.now()`) is a `stamp`
parameter. Uniqueness of ids is an explicit invariant (`Document.UniqueIds`):
every list operation preserves it, provided an added section's id is fresh.

## Model

| member | source | states |
|---|---|---|
| SectionList.InitialSections | src/components/resume/DashboardResumeBuilder.tsx:36-80 | The initial document is contact, summary, experience, education, skills in that order, with distinct ids; contact and summary hold one item each with blank fields, the other three hold none |
| Builder.ResumeBuilder.constructor | src/components/resume/ResumeBuilder.tsx:25-72 | The page starts with the initial sections (the same five as the dashboard builder), no drag in progress and the "minimal" template |
| Builder.ResumeBuilder.SelectTemplate | src/components/resume/DashboardResumeBuilder.tsx:85-87 | Selecting a template sets `selectedTemplateId` and changes nothing else |
| SectionList.UpdatedSections | src/components/resume/DashboardResumeBuilder.tsx:89-95 | Update keeps the length and positions, replaces every section whose id equals the update's id, and keeps every other section |
| SectionList.UpdateNoMatch | src/components/resume/ResumeBuilder.tsx:78-84 | An update whose id no section has leaves the list unchanged |
| SectionList.UpdateAtUniqueId | src/components/resume/DashboardResumeBuilder.tsx:89-95 | With unique ids, an update replaces exactly the one position that has its id |
| SectionList.UpdateKeepsUnique | src/components/resume/DashboardResumeBuilder.tsx:89-95 | An update preserves uniqueness of section ids |
| Builder.ResumeBuilder.UpdateSection | src/components/resume/ResumeBuilder.tsx:78-84 | The handler sets `sections` to the updated list, leaves the drag id and template alone, and keeps ids unique |
| SectionList.DeletedSections | src/components/resume/DashboardResumeBuilder.tsx:97-99 | Delete yields an order-preserving subsequence; it holds none of the sections with the id and every other section as often as before |
| SectionList.DeleteNoMatch | src/components/resume/ResumeBuilder.tsx:86-88 | A delete whose id no section has leaves the list unchanged |
| SectionList.DeleteKeepsUnique | src/components/resume/DashboardResumeBuilder.tsx:97-99 | A delete preserves uniqueness of section ids |
| Builder.ResumeBuilder.DeleteSection | src/components/resume/ResumeBuilder.tsx:86-88 | The handler sets `sections` to the filtered list, leaves the rest of the state alone, and keeps ids unique |
| SectionList.TitleFor | src/components/resume/DashboardResumeBuilder.tsx:110-129 | The title table: experience gets "Work Experience", education "Education", skills "Skills", projects "Projects", certifications "Certifications"; every other type gets "" |
| SectionList.InitialTitlesFromTable | src/components/resume/ResumeBuilder.tsx:26-70 | The titles of the initial experience, education and skills sections are those of the add-section table |
| SectionList.AddedSections | src/components/resume/DashboardResumeBuilder.tsx:101-131 | Add appends exactly one section at the end, with id type-dash-stamp, the given type, the table's title and no items; earlier sections are unchanged |
| SectionList.AddKeepsUnique | src/components/resume/DashboardResumeBuilder.tsx:101-102 | An added section whose id is fresh keeps ids unique |
| Builder.ResumeBuilder.AddSection | src/components/resume/ResumeBuilder.tsx:90-121 | The handler sets `sections` to the list with the new section appended, leaves the rest of the state alone, and keeps ids unique when the new id is fresh |
| Builder.ResumeBuilder.DragStart | src/components/resume/DashboardResumeBuilder.tsx:134-136 | Starting a drag records the section id and changes nothing else |
| SectionList.IndexOfId | src/components/resume/DashboardResumeBuilder.tsx:149-150 | `findIndex`: the first index holding the id, or None exactly when no section has it |
| SectionList.SpliceOut | src/components/resume/DashboardResumeBuilder.tsx:157 | `splice(from, 1)` on an array: every later element moves one slot left |
| SectionList.SpliceIn | src/components/resume/DashboardResumeBuilder.tsx:158 | `splice(to, 0, x)` on an array: `x` lands on `to` and every later element moves one slot right |
| SectionList.SpliceMove | src/components/resume/ResumeBuilder.tsx:145-147 | Copying the list into an array and splicing the dragged section out and back in yields exactly the relocated list `Moved` |
| SectionList.MovedShape | src/components/resume/DashboardResumeBuilder.tsx:156-158 | A relocation keeps the length, puts the moved section on the target index, keeps every position outside the range between the two indices, and shifts those inside by one |
| SectionList.MovedPermutation | src/components/resume/DashboardResumeBuilder.tsx:156-158 | A relocation is a permutation of the list |
| SectionList.MovedKeepsUnique | src/components/resume/DashboardResumeBuilder.tsx:156-158 | A relocation preserves uniqueness of section ids |
| SectionList.Moved | src/components/resume/DashboardResumeBuilder.tsx:156-158 | Definition only: the dragged section spliced out of its index and spliced back in at the target index (its properties are in MovedShape and MovedPermutation) |
| SectionList.DropNoOpIff | src/components/resume/DashboardResumeBuilder.tsx:145-154 | A drop changes nothing exactly when no drag is in progress (or its id is empty), the dragged id is the target id, or either id is absent |
| SectionList.DropResult | src/components/resume/DashboardResumeBuilder.tsx:142-162 | Definition only: the outcome of a drop, None on each early return and the relocated list otherwise (its properties are in DropNoOpIff and DropRelocates) |
| SectionList.DropRelocates | src/components/resume/ResumeBuilder.tsx:134-149 | A drop that happens yields a permutation of the same length; the dragged section lands at the target's original index, positions outside the range are unchanged and those inside shift by one |
| SectionList.DropExample | src/components/resume/DashboardResumeBuilder.tsx:156-160 | [S1,S2,S3,S4] with S1 dropped on S3 gives [S2,S3,S1,S4] |
| SectionList.DropIsNotSwap | src/components/resume/DashboardResumeBuilder.tsx:156-160 | Dropping S3 back on S1 afterwards gives [S2,S1,S3,S4], not the original order: a drop is a relocation, not a swap |
| Builder.ResumeBuilder.Drop | src/components/resume/DashboardResumeBuilder.tsx:142-162 | On every early return the sections and the drag id stay as they were; otherwise the sections become the relocated list and the drag id is cleared; the template is never touched and ids stay unique |
| SectionList.ReplayKeepsUniqueIds | src/components/resume/DashboardResumeBuilder.tsx:89-162 | Any sequence of adds with fresh ids, deletes, updates and drops keeps section ids unique |
| Builder.OfferedDeleteKeepsMandatory | src/components/resume/ResumeBuilder.tsx:192-196 | With unique ids, deleting any section the editor offers a delete button for never removes a contact or summary section |
| Builder.InitialDeletePolicy | src/components/resume/DashboardResumeBuilder.tsx:264-268 | In the initial document exactly the contact and summary sections lack the delete button |
| Builder.DeleteOffered | src/components/resume/DashboardResumeBuilder.tsx:264-268 | Definition only: the delete button is offered for a section whose type is neither contact nor summary |
| SectionEditor.TitleChanged | src/components/resume/SectionEditor.tsx:90-95 | Renaming changes only the title; id, type and items are unchanged |
| SectionEditor.BlankItem | src/components/resume/SectionEditor.tsx:97-152 | For each of the five item types the factory builds exactly that type's required fields, with the stamp as id, "" for text, false for `current` and "intermediate" for `level`, and leaves the optional `url` unset; for every other type it builds the empty object |
| SectionEditor.BlankItemDefaults | src/components/resume/SectionEditor.tsx:101-131 | A blank skill has name "" and level "intermediate"; blank experience and education items have every string field "" and `current` false |
| SectionEditor.DefaultItemHasNoId | src/components/resume/SectionEditor.tsx:150-151 | The object built for contact, summary or an unknown type has no id, so no id-based delete or edit reaches it |
| SectionEditor.ItemAdded | src/components/resume/SectionEditor.tsx:154-157 | Adding appends exactly one blank item at the end; existing items, id, type and title are unchanged |
| SectionEditor.ItemDeleted | src/components/resume/SectionEditor.tsx:160-165 | Deleting yields an order-preserving subsequence of the items with none of those having the id and every other item as often as before; id, type and title are unchanged |
| SectionEditor.ItemDeleteNoMatch | src/components/resume/SectionEditor.tsx:160-165 | A delete whose id no item has leaves the section unchanged |
| SectionEditor.AddThenDeleteItem | src/components/resume/SectionEditor.tsx:97-165 | Deleting the item just added under a fresh stamp restores the section |
| SectionEditor.ChangedItems | src/components/resume/SectionEditor.tsx:170-172 | The item list keeps its length; items with the id get the value in the named field and keep every other field; other items are unchanged |
| SectionEditor.ItemChanged | src/components/resume/SectionEditor.tsx:167-174 | Editing changes only the items; id, type and title are unchanged |
| SectionEditor.ItemChangeNoMatch | src/components/resume/SectionEditor.tsx:167-174 | An edit whose id no item has leaves the section unchanged |
| SectionEditor.ItemChangeIdempotent | src/components/resume/SectionEditor.tsx:167-174 | Repeating the same edit changes nothing further |
| Preview.FindByKind | src/components/resume/ResumePreview.tsx:61-68 | `find` by type: None exactly when no section has the type, otherwise the first section that has it |
| Preview.GetContactInfo | src/components/resume/ResumePreview.tsx:25-28 | The first item of the first contact section, or the empty record when there is no contact section or it has no items |
| Preview.GetSummary | src/components/resume/ResumePreview.tsx:30-33 | The first summary item's `content` when truthy, otherwise "" (also when there is no summary section) |
| Preview.DisplayName | src/components/resume/ResumePreview.tsx:42 | The name line is the contact's name when truthy, otherwise "Your Name" |
| Preview.SummaryShownIff | src/components/resume/ResumePreview.tsx:53 | The summary block appears exactly when the first summary section's first item has a non-empty `content` |
| Preview.NoSummarySectionNoBlock | src/components/resume/ResumePreview.tsx:53 | Without a summary section there is no summary block |
| Preview.SummaryShown | src/components/resume/ResumePreview.tsx:53 | Definition only: the summary block appears when the summary text is truthy (its properties are in SummaryShownIff and NoSummarySectionNoBlock) |
| Preview.BlockHeading | src/components/resume/ResumePreview.tsx:61-64 | A type's block is absent exactly when no section has that type; otherwise its heading is the first such section's title, or the type's default heading when that title is empty, and it is never blank |
| Preview.DefaultHeading | src/components/resume/ResumePreview.tsx:64 | Definition only: the heading used when the first section of a type has an empty title ("Experience", "Education", "Skills", "Projects", "Certifications") |
| Preview.RenderedItems | src/components/resume/ResumePreview.tsx:66-68 | The items rendered for a type are those of the first section of that type, and none when there is no such section |
| Preview.LaterSectionsIgnored | src/components/resume/ResumePreview.tsx:61-68 | Once a list has a section of a type, appending more sections never changes that type's block: the same items, and for the five item types the same heading |
| Preview.FirstOfKindExists | src/components/resume/ResumePreview.tsx:61 | If some section has the type, there is a first one |
| Preview.EndDateText | src/components/resume/ResumePreview.tsx:73 | The end of a date range is "Present" for a current experience or education entry, and the `endDate` text in every other case, projects included |
| Preview.DateRange | src/components/resume/ResumePreview.tsx:73 | Definition only: the start date, " - ", then the end text (its properties are in CurrentFlagOnlyForDatedKinds) |
| Preview.CurrentFlagOnlyForDatedKinds | src/components/resume/ResumePreview.tsx:99-143 | Experience and education entries read "start - Present" when current and "start - end" otherwise; a project reads "start - end" whether or not it is current |
| Preview.SkillWidth | src/components/resume/ResumePreview.tsx:445-447 | The bar width is 25 percent for beginner, 50 for intermediate, 75 for advanced and 100 for any other or missing level |
| Preview.SkillLabel | src/components/resume/ResumePreview.tsx:515-517 | The label is "Basic" for beginner, "Intermediate" for intermediate, "Advanced" for advanced and "Expert" for any other or missing level |
| Preview.SkillBarMatchesLabel | src/components/resume/ResumePreview.tsx:515-526 | Width and label tell the same level: the pair is one of 25/Basic, 50/Intermediate, 75/Advanced, 100/Expert, and two skills have the same bar exactly when they have the same label |
| Preview.RenderTemplate | src/components/resume/ResumePreview.tsx:645-657 | A known template id selects its own layout; any other id selects minimal |
| Preview.RenderTemplateRoundTrip | src/components/resume/ResumePreview.tsx:645-657 | Every layout is selected by its own id |
| Walkthrough.InitialPreviewHeader | src/components/resume/ResumePreview.tsx:25-53 | A fresh document previews as "Your Name" with no summary block |
| Walkthrough.InitialPreviewBlocks | src/components/resume/ResumePreview.tsx:61-68 | A fresh document has an empty "Work Experience" block and no projects block |
| Walkthrough.SecondExperienceSectionHidden | src/components/resume/ResumePreview.tsx:61-68 | Adding a second experience section and filling in an entry stores the entry, yet the preview still renders only the first (empty) experience section |
| Walkthrough.BlankSkillPreview | src/components/resume/SectionEditor.tsx:126-131 | A newly added skill previews as a 50 percent bar labelled "Intermediate" |
| Walkthrough.BlankExperienceDates | src/components/resume/ResumePreview.tsx:73 | A newly added experience entry shows the date range " - " |
| Text.ToLower | src/pages/dashboard/Templates.tsx:105 | `toLowerCase` keeps the length and lower-cases each ASCII letter in place |
| Text.ToLowerIdempotent | src/pages/dashboard/Resumes.tsx:87-88 | Lower-casing twice equals lower-casing once |
| Text.Includes | src/pages/dashboard/Resumes.tsx:87 | `includes` holds exactly when the needle occurs at some index of the haystack |
| Text.IncludesEmpty | src/pages/dashboard/Templates.tsx:104-109 | Every string includes the empty string |
| Templates.EveryCategoryHasTab | src/pages/dashboard/Templates.tsx:21-111 | Every catalogue template's category is one of the tabs after "All" |
| Templates.AllTemplates | src/pages/dashboard/Templates.tsx:21-102 | Definition only: the eight catalogue entries with their ids, names, descriptions, categories, flags and features |
| Templates.Categories | src/pages/dashboard/Templates.tsx:111 | Definition only: the six tabs, "All" first |
| Templates.FilteredTemplates | src/pages/dashboard/Templates.tsx:104-109 | The search result is an order-preserving subsequence, and a template is in it exactly when the lower-cased query occurs in its lower-cased name, description, category or a feature; a matching template occurs as often as in the catalogue, any other not at all |
| Templates.MatchesQuery | src/pages/dashboard/Templates.tsx:104-108 | Definition only: the lower-cased query occurs in the lower-cased name, description, category or some feature |
| Templates.EmptyQueryKeepsAll | src/pages/dashboard/Templates.tsx:104-109 | An empty query keeps every template |
| Templates.QueryCaseInsensitive | src/pages/dashboard/Templates.tsx:104-109 | Two queries with the same lower-cased form give the same result |
| Templates.QueryLowerCased | src/pages/dashboard/Templates.tsx:104-109 | The result for a query equals the result for its lower-cased form |
| Templates.TabTemplates | src/pages/dashboard/Templates.tsx:164 | A tab shows an order-preserving subsequence of the search result: every template on "All", otherwise exactly those of the tab's category, each as often as in the search result |
| Templates.TemplatesPage.Visible | src/pages/dashboard/Templates.tsx:163-164 | Definition only: the cards of a tab for the current query (its properties are in FilteredTemplates and TabTemplates) |
| Templates.AllTabShowsEverything | src/pages/dashboard/Templates.tsx:164 | The "All" tab shows the search result unchanged |
| Templates.NoTemplatesFoundIff | src/pages/dashboard/Templates.tsx:259 | "No templates found" shows exactly when no template both matches the search and belongs to the tab |
| Templates.Toggled | src/pages/dashboard/Templates.tsx:113-119 | Toggling flips membership; an absent id is appended at the end; a present id is removed wherever it occurs, keeping the other ids in order and in number |
| Templates.ToggleTwiceAbsent | src/pages/dashboard/Templates.tsx:113-119 | Toggling an absent id twice gives back the original list |
| Templates.ToggleKeepsNoDuplicates | src/pages/dashboard/Templates.tsx:113-119 | Toggling never creates a duplicate in a duplicate-free list |
| Templates.TemplatesPage.constructor | src/pages/dashboard/Templates.tsx:18-19 | The gallery starts with an empty search and no favourites |
| Templates.TemplatesPage.SetSearchQuery | src/pages/dashboard/Templates.tsx:141 | Typing sets the query and leaves the favourites alone |
| Templates.TemplatesPage.ToggleFavorite | src/pages/dashboard/Templates.tsx:113-119 | The handler sets the favourites to the toggled list, leaves the query alone, and keeps the list duplicate-free |
| Templates.FeatureBadges | src/pages/dashboard/Templates.tsx:231-240 | A card shows the first two features (all of them when there are at most two), then "+(n-2) more" exactly when n > 2 |
| Resumes.AllResumes | src/pages/dashboard/Resumes.tsx:38-84 | Definition only: the five saved resumes with their titles, templates, dates and counters |
| Resumes.FilteredResumes | src/pages/dashboard/Resumes.tsx:86-89 | The search result is an order-preserving subsequence, and a resume is in it exactly when the lower-cased query occurs in its lower-cased title or template; a matching resume occurs as often as in the list, any other not at all |
| Resumes.MatchesQuery | src/pages/dashboard/Resumes.tsx:86-88 | Definition only: the lower-cased query occurs in the lower-cased title or template name |
| Resumes.EmptyQueryKeepsAll | src/pages/dashboard/Resumes.tsx:86-89 | An empty query keeps every resume |
| Resumes.QueryCaseInsensitive | src/pages/dashboard/Resumes.tsx:87-88 | The result depends on the query only through its lower-cased form |
| Resumes.Rendered | src/pages/dashboard/Resumes.tsx:140-230 | The grid shows one card per matching resume, in order, followed by the "create new" card; the list shows one row per matching resume, in order |
| Resumes.ViewsShowSameResumes | src/pages/dashboard/Resumes.tsx:140-230 | Both views show the same resumes in the same order |
| Resumes.ResumesPage.Results | src/pages/dashboard/Resumes.tsx:140-142 | Definition only: the results area for the current view and query (its properties are in Rendered and FilteredResumes) |
| Resumes.ResumesPage.constructor | src/pages/dashboard/Resumes.tsx:35-36 | The page starts in the grid view with an empty search |
| Resumes.ResumesPage.SetView | src/pages/dashboard/Resumes.tsx:120-133 | Each view button sets the view to its own value and leaves the search alone |
| Resumes.ResumesPage.SetSearchQuery | src/pages/dashboard/Resumes.tsx:112 | Typing sets the query and leaves the view alone |

## Left out

- Markup, styling, images, icons and tooltips are left out. Only the values the pages compute are modelled.
- React state plumbing and re-rendering are not modelled. Page state is a class whose handler methods update its fields.
- The clock (`Date.now()`) is not modelled. Each id's stamp is a parameter, and uniqueness is assumed only where a lemma states a freshness precondition.
- `handleSave` and `lastSaved` are left out, because they depend only on the locale's clock formatting.
- The resume title field and the active edit/preview tab are left out. They are plain text or tab state with no logic.
- PDF download and printing are left out. They are browser I/O (`window.print`, an alert).
- Drag events, `preventDefault` and the dragging opacity flag are left out; only the state changes of drag start and drop are modelled.
- Routing, the landing, dashboard, header, footer and layout pages, and the template selector are left out. They are static lists and links without logic of their own.
- Items are compared as values: two items with the same fields are the same item (`Document.ItemExtensional`), where JavaScript would compare object identity. No handler compares items, so no behaviour depends on this.
- `Text.ToLower` lower-cases only the ASCII letters; full Unicode case mapping is not modelled.
- Template thumbnails and the resume cards' counters are kept as plain data, or dropped. The search never looks at them.
- `SectionList.SpliceMove` copies the list into a fixed-size array and shifts elements in place. A JavaScript array's changing length is modelled by leaving the last slot stale after the removal.
- The builder has no delete guard of its own: any section can be deleted by id. Contact and summary sections are protected only because the editor does not show their delete button, and that is what `Builder.OfferedDeleteKeepsMandatory` states.
- `Builder.ResumeBuilder.Drop` clears `draggedSectionId` only after a successful move. After every early return (no drag, a drop on itself, an unknown id) the drag id stays set, as the code does.
- A new section of a type that already exists is stored and edited like any other. The preview, however, renders only the first section of each type, so the new section's items never appear (`Walkthrough.SecondExperienceSectionHidden`).
