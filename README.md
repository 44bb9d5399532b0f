# pbiXplorer report analysis, modelled in Dafny

pbiXplorer shows the structure of a Power BI report: its pages and visuals, which data fields
the visuals use, and a side-by-side comparison of a page's layout with an AI-proposed
alternative. This project models the in-memory analysis behind those views and proves what it
promises:

- **Metadata extraction** (`visual_extractor`, backend). This walks a decoded report layout and
  builds the report metadata in nested loops:
  - pages are numbered from 1, with `"Page n"` names by default;
  - visuals are numbered from 1, with their positions copied;
  - projection roles map to `queryRef` lists;
  - query fields come from the semantic query's `Select` names;
  - a config or query that fails to parse becomes a warning.

  `visual_extractor.dfy` holds the imperative extractor. Each method is proved equal to a
  specification function of its inputs. `visual_properties.dfy` proves what those functions
  promise.
- **Field usage** (`analyzeColumnUsage`, analysis page). This counts every `query_fields` entry and
  every field listed under a projection role into an insertion-ordered tally
  (`column_usage.dfy`).
  - The ranking sorts the entries stably by descending count and shows the first five and the last
    five of that list (`ranking.dfy`).
  - The suggestions text is shown with its asterisks removed (`suggestions.dfy`).
- **Layout comparison** (layout page).
  - The alternate layout text is sanitised: every "```json" or "```" is removed, then the text is
    trimmed (`fences.dfy`).
  - It is then parsed and indexed at `pages[pageIndex]`, and any exception becomes `null`.
  - Both the original page and the alternate page are drawn as rectangles scaled by the slider's
    value (`layout.dfy`).

JSON documents are the datatype `Json.Json`. `json.loads` and `JSON.parse` are parameters of type
`string -> Option<Json>`, where `None` stands for the exception they raise. Python's and
JavaScript's behaviour on unexpected values is modelled rather than assumed away:
- `.get` on a non-dict raises;
- iterating a number raises;
- reading a property of `null` throws;
- an out-of-range index is `undefined`.

The model follows the code, including where its behaviour may be unexpected:
- A `null` or `undefined` alternate page is passed to `.visuals.map` unchecked. This makes the whole
  layout page throw, instead of degrading to an empty pane (`Layout.ViewOutcome`).
- An alternate page index out of range yields `undefined`, not `null` (`Layout.ResolvePages`).
- The fence sanitiser removes fences anywhere in the text, not only at its ends.
- A position member that is absent becomes `NaN` when scaled, not 0.

## Model

| member | source | states |
|---|---|---|
| Visuals.DictGet | Backend/Visuals/visualExtractor.py:19-20 | `.get` answers exactly on a dict, gives the stored value for a present key and the default for a missing key |
| Visuals.PyIter | Backend/Visuals/visualExtractor.py:63-66 | `for x in v` works exactly on lists, dicts and strings; a list iterates its own items, a dict its keys in order and a string its one-character strings |
| Visuals.ExtractVisual | Backend/Visuals/visualExtractor.py:33-72 | a visual is recorded exactly when its container is a dict, and it carries the number it was given |
| Visuals.ExtractPage | Backend/Visuals/visualExtractor.py:25-30 | a recorded page carries the number it was given |
| Visuals.ParseVisualConfig | Backend/Visuals/visualExtractor.py:47-56 | the config `try` block leaves the visual type and the projections written before any exception, and says whether it failed |
| Visuals.AppendSelectNames | Backend/Visuals/visualExtractor.py:66-68 | the loop over one command's selects appends the `Name` of each select that has one |
| Visuals.RunCommand | Backend/Visuals/visualExtractor.py:63-68 | one command's `SemanticQueryDataShapeCommand.Query.Select` names, or a failure |
| Visuals.ParseVisualQuery | Backend/Visuals/visualExtractor.py:58-70 | the query `try` block leaves the query fields appended before any exception, and says whether it failed |
| Visuals.ExtractVisualData | Backend/Visuals/visualExtractor.py:34-72 | builds a dict container's visual record and its warnings, as the per-visual specification says |
| Visuals.ExtractVisuals | Backend/Visuals/visualExtractor.py:32-72 | the inner loop's records and warnings are those of every container, in order |
| Visuals.ExtractPageData | Backend/Visuals/visualExtractor.py:25-74 | one page's record and warnings, as the per-page specification says |
| Visuals.ExtractPages | Backend/Visuals/visualExtractor.py:23-74 | the outer loop's pages and warnings are those of every section, in order, or the exception of the first section that raises |
| Visuals.ThemeAndVersion | Backend/Visuals/visualExtractor.py:18-20 | a decoded config that is not a dict makes `.get` raise |
| Visuals.Extraction | Backend/Visuals/visualExtractor.py:3-76 | `None` without warnings for a falsy layout; a truthy layout that is not a dict raises; a report always has `"Unknown"` suggestions and optimal layout |
| Visuals.VisualExtractor | Backend/Visuals/visualExtractor.py:3-76 | the whole extractor computes the specified report, warnings or exception |
| VisualProperties.QueryRefsShape | Backend/Visuals/visualExtractor.py:54 | a role's list has one entry per item, the item's `queryRef` or `"Unknown"`; it raises exactly when an item is not a dict |
| VisualProperties.ProjectionRolesShape | Backend/Visuals/visualExtractor.py:53-55 | the roles kept are, in order, those before the first role whose items raise; the block fails exactly then |
| VisualProperties.SelectNamesOfDicts | Backend/Visuals/visualExtractor.py:66-68 | over dict selects, the names are exactly the `Name` of every select that has one, in order, and selects without `Name` are skipped |
| VisualProperties.QueryFieldsOfWellFormed | Backend/Visuals/visualExtractor.py:62-68 | for well-formed commands, the query fields are every select name in command order then select order, with no failure |
| VisualProperties.VisualAlwaysRecorded | Backend/Visuals/visualExtractor.py:34-72 | a dict container is always recorded, with its number, its position copied verbatim (`None` when a key is absent) and one warning per failed block |
| VisualProperties.EachShape | Backend/Visuals/visualExtractor.py:24-33 | an `enumerate` loop finishes exactly when no item raises, and then holds one record per item, in order, numbered from 1 |
| VisualProperties.VisualStepFacts | Backend/Visuals/visualExtractor.py:33-72 | one visual step returns exactly on a dict container, with that container's record |
| VisualProperties.VisualsShape | Backend/Visuals/visualExtractor.py:32-72 | a page's visuals: one per container, in order, with `visual_number = j+1`, exactly when every container is a dict |
| VisualProperties.PageStepFacts | Backend/Visuals/visualExtractor.py:25-32 | one page step returns exactly on a well-shaped section, numbered, named `displayName` or `"Page n"`, with one visual per container |
| VisualProperties.PagesShape | Backend/Visuals/visualExtractor.py:23-74 | the pages: one per section, in order, with `page_number = i+1` and the name default |
| VisualProperties.ExtractionOutcome | Backend/Visuals/visualExtractor.py:3-76 | `None` exactly for a falsy layout; otherwise a report with the config's theme and version, one page per section and `"Unknown"` suggestions and optimal layout, or an exception exactly when the layout is not well shaped |
| VisualProperties.ThemeAndVersionDefaults | Backend/Visuals/visualExtractor.py:18-20 | key by key: the version is the config's `version` or `"Unknown"`; the theme is `themeCollection.baseTheme.name`, `"Unknown"` when any of the three keys is missing, and an exception when `themeCollection` or `baseTheme` is present but not a dict |
| ColumnUsage.CountFields | Frontend/src/components/AnalysisView.jsx:55-57 | counting a field list bumps each field once, in order |
| ColumnUsage.CountRoles | Frontend/src/components/AnalysisView.jsx:59-63 | counting the projections bumps every role's fields, role after role |
| ColumnUsage.CountVisual | Frontend/src/components/AnalysisView.jsx:54-63 | one visual's query fields, then its projection fields |
| ColumnUsage.CountPage | Frontend/src/components/AnalysisView.jsx:53-64 | all the visuals of a page, in order |
| ColumnUsage.AnalyzeColumnUsage | Frontend/src/components/AnalysisView.jsx:51-67 | the tally built in place is the tally of every reference of the report |
| ColumnUsage.BumpCount | Frontend/src/components/AnalysisView.jsx:56 | one increment changes only the counted field's count, by one |
| ColumnUsage.BumpTotal | Frontend/src/components/AnalysisView.jsx:56 | one increment adds one to the sum of the counts |
| ColumnUsage.BumpKeys | Frontend/src/components/AnalysisView.jsx:56 | one increment keeps every key in place and adds a new field last |
| ColumnUsage.BumpDistinct | Frontend/src/components/AnalysisView.jsx:56 | one increment keeps the keys distinct |
| ColumnUsage.BumpPositive | Frontend/src/components/AnalysisView.jsx:56 | one increment keeps every count positive |
| ColumnUsage.BumpAllFacts | Frontend/src/components/AnalysisView.jsx:51-65 | counting a reference list adds each field's number of occurrences and the list's length, and lists new keys in first-occurrence order |
| ColumnUsage.DedupMembers | Frontend/src/components/AnalysisView.jsx:51-65 | the first-occurrence list holds exactly the referenced fields |
| ColumnUsage.RefsCount | Frontend/src/components/AnalysisView.jsx:51-65 | the references are as many as all `query_fields` entries plus all projection-list entries of every visual of every page |
| ColumnUsage.VisualsRefsCount | Frontend/src/components/AnalysisView.jsx:54-63 | the same count for the visuals of one page |
| ColumnUsage.RoleFieldsCount | Frontend/src/components/AnalysisView.jsx:59-62 | the same count for the roles of one visual |
| ColumnUsage.VisualRefsMentions | Frontend/src/components/AnalysisView.jsx:55-62 | how often one visual references a field: its query-field entries plus its entries under each role |
| ColumnUsage.RoleFieldsMentions | Frontend/src/components/AnalysisView.jsx:59-62 | the per-role part of that count, each role counted separately |
| ColumnUsage.TallyFacts | Frontend/src/components/AnalysisView.jsx:51-65 | the tally has distinct keys, in first-occurrence order; a field is a key exactly when referenced; each count is its number of references, at least one; the counts sum to the total number of entries |
| ColumnUsage.VisualTally | Frontend/src/components/AnalysisView.jsx:55-62 | a field listed under two roles of a visual counts twice; absent `query_fields` or `projections` add nothing |
| ColumnUsage.CountOfEntry | Frontend/src/components/AnalysisView.jsx:56 | with distinct keys, an entry's count is the count looked up by its key |
| Ranking.Insert | Frontend/src/components/AnalysisView.jsx:102 | insertion lengthens the list by one |
| Ranking.SortByCount | Frontend/src/components/AnalysisView.jsx:102 | sorting keeps the number of entries |
| Ranking.MostUsed | Frontend/src/components/AnalysisView.jsx:103 | `slice(0, 5)` keeps `min(5, n)` entries |
| Ranking.LeastUsed | Frontend/src/components/AnalysisView.jsx:104 | `slice(-5)` keeps `min(5, n)` entries, also when fewer than five exist |
| Ranking.Rank | Frontend/src/components/AnalysisView.jsx:102-104 | both lists hold `min(5, n)` entries, and they coincide when there are at most five fields |
| Ranking.InsertPermutes | Frontend/src/components/AnalysisView.jsx:102 | insertion adds exactly the inserted entry |
| Ranking.InsertOrders | Frontend/src/components/AnalysisView.jsx:102 | insertion keeps the list non-increasing |
| Ranking.InsertKeepsTies | Frontend/src/components/AnalysisView.jsx:102 | insertion puts an entry ahead of the entries with its count and leaves the others' relative order unchanged |
| Ranking.SortFacts | Frontend/src/components/AnalysisView.jsx:102 | the sorted list is a permutation of the tally entries with non-increasing counts, and entries with equal counts keep tally order |
| Ranking.Entries | Frontend/src/components/AnalysisView.jsx:103-104 | `{ col, count }` for each entry, in order |
| Ranking.MostUsedShape | Frontend/src/components/AnalysisView.jsx:102-103 | `mostUsed` is the first `min(5, n)` sorted entries, non-increasing, and no entry left out has a larger count |
| Ranking.LeastUsedShape | Frontend/src/components/AnalysisView.jsx:102-104 | `leastUsed` is the last `min(5, n)` entries of the same descending list, also non-increasing, and no entry left out has a smaller count |
| Ranking.FewFields | Frontend/src/components/AnalysisView.jsx:103-104 | with at most five fields the two lists are equal, and with none both are empty |
| Ranking.SortedEntry | Frontend/src/components/AnalysisView.jsx:102 | a sorted entry is a tally entry, with its key's tally count |
| Ranking.RankedCounts | Frontend/src/components/AnalysisView.jsx:102-104 | every entry shown is a tally entry, and its count is the tally count of its field |
| Ranking.ReportRanks | Frontend/src/components/AnalysisView.jsx:102-104 | every field shown for a report is referenced by the report, and its count is its number of references |
| Suggestions.StripAsterisks | Frontend/src/components/AnalysisView.jsx:270 | the stripped text is no longer than the input, and every character in it comes from the input |
| Suggestions.DisplayedSuggestions | Frontend/src/components/AnalysisView.jsx:270 | absent suggestions stay absent, and the shown text has no `*` |
| Suggestions.StripNoAsterisk | Frontend/src/components/AnalysisView.jsx:270 | the stripped text contains no `*` |
| Suggestions.StripCharwise | Frontend/src/components/AnalysisView.jsx:270 | stripping works character by character: it distributes over concatenation, drops `*` and keeps any other character |
| Suggestions.StripKeepsOthers | Frontend/src/components/AnalysisView.jsx:270 | every other character keeps its number of occurrences, and the text shrinks by exactly its number of asterisks |
| Suggestions.StripWithoutAsterisks | Frontend/src/components/AnalysisView.jsx:270 | a text without `*` is shown unchanged |
| Suggestions.StripIdempotent | Frontend/src/components/AnalysisView.jsx:270 | stripping twice is stripping once |
| Fences.StripFences | Frontend/src/components/LayoutPage.jsx:56 | the replace never lengthens the text, and every character left comes from the input |
| Fences.Trim | Frontend/src/components/LayoutPage.jsx:56 | `trim` never lengthens the text |
| Fences.Sanitize | Frontend/src/components/LayoutPage.jsx:56 | sanitising never lengthens the text |
| Fences.StripLeavesNoFence | Frontend/src/components/LayoutPage.jsx:56 | after the global replace no three consecutive backticks remain; removals never join backticks into a new fence |
| Fences.StripWithoutFence | Frontend/src/components/LayoutPage.jsx:56 | a text without three consecutive backticks is not changed by the replace |
| Fences.StripPlainHead | Frontend/src/components/LayoutPage.jsx:56 | a backtick-free head is kept as it is |
| Fences.TrimStartSuffix | Frontend/src/components/LayoutPage.jsx:56 | trimming the start leaves a suffix that does not start with white space |
| Fences.TrimEndPrefix | Frontend/src/components/LayoutPage.jsx:56 | trimming the end leaves a prefix that does not end with white space |
| Fences.TrimSlice | Frontend/src/components/LayoutPage.jsx:56 | `trim` returns a contiguous piece of its input, with no white space at either end |
| Fences.TrimTrimmed | Frontend/src/components/LayoutPage.jsx:56 | trimming a trimmed text changes nothing |
| Fences.TrimDropsTrailing | Frontend/src/components/LayoutPage.jsx:56 | trailing white space does not survive `trim` |
| Fences.NoFenceSlice | Frontend/src/components/LayoutPage.jsx:56 | a piece of a fence-free text is fence-free |
| Fences.SanitizedShape | Frontend/src/components/LayoutPage.jsx:56 | the sanitised text has no three consecutive backticks and no leading or trailing white space |
| Fences.SanitizeIdempotent | Frontend/src/components/LayoutPage.jsx:56 | sanitising twice is sanitising once |
| Fences.SanitizeNoBackticks | Frontend/src/components/LayoutPage.jsx:56 | a text without backticks is only trimmed |
| Fences.SanitizeFenced | Frontend/src/components/LayoutPage.jsx:56 | "```json\n<body>\n```" sanitises to the same text as `<body>` when the body has no backticks |
| Layout.Member | Frontend/src/components/LayoutPage.jsx:51-59 | reading a property throws exactly on `null`; a value read is a member of that name of the object; `undefined` means no member has that name |
| Layout.Index | Frontend/src/components/LayoutPage.jsx:51-59 | indexing throws exactly on a thrown, `undefined` or `null` target; an in-range array index gives that item and an out-of-range one `undefined` |
| Layout.ResolveText | Frontend/src/components/LayoutPage.jsx:56-62 | text whose sanitised form does not parse resolves to `null`; `undefined` only comes from a parsed document that has a `pages` value |
| Layout.ResolveAlternatePage | Frontend/src/components/LayoutPage.jsx:54-63 | an `optimal_layout` that is not a string resolves to `null` |
| Layout.ToNumber | Frontend/src/components/LayoutPage.jsx:146-149 | `undefined` (or a thrown read) converts to `NaN`, a number to itself and `null` to 0 |
| Layout.Scaled | Frontend/src/components/LayoutPage.jsx:146-149 | `x * scale` is `NaN` exactly when `x` converts to `NaN`, and otherwise the converted value times the scale |
| Layout.ProjectVisual | Frontend/src/components/LayoutPage.jsx:138-149 | a visual draws exactly when its `position` is a value other than `null` (destructuring `undefined` or `null` throws) |
| Layout.ProjectAll | Frontend/src/components/LayoutPage.jsx:138-149 | a drawn pane has one rectangle per visual |
| Layout.RenderPane | Frontend/src/components/LayoutPage.jsx:218-229 | a pane draws only for a page whose `visuals` is an array, and then draws the projection of those visuals |
| Layout.LayoutView | Frontend/src/components/LayoutPage.jsx:40-63 | the placeholder shows exactly when the metadata is falsy |
| Layout.ResolveFailure | Frontend/src/components/LayoutPage.jsx:54-63 | a non-string `optimal_layout`, or one whose sanitised text does not parse, resolves to `null` rather than raising |
| Layout.ResolveWithoutPages | Frontend/src/components/LayoutPage.jsx:59-62 | a parsed layout without a `pages` member resolves to `null` |
| Layout.ResolvePages | Frontend/src/components/LayoutPage.jsx:59 | an in-range index yields `pages[pageIndex]`, and an out-of-range one yields `undefined` |
| Layout.ResolveFenced | Frontend/src/components/LayoutPage.jsx:56-59 | a fenced payload resolves as its unfenced body does |
| Layout.ProjectNumbers | Frontend/src/components/LayoutPage.jsx:139-149 | a numeric position gives `(x*scale, y*scale, width*scale, height*scale)`, non-negative for non-negative inputs |
| Layout.ProjectExample | Frontend/src/components/LayoutPage.jsx:139-149 | (10, 20, 100, 50) at scale 0.5 gives (5, 10, 50, 25) |
| Layout.ProjectAllShape | Frontend/src/components/LayoutPage.jsx:138-149 | a pane draws exactly one rectangle per visual, in visual order, each that visual's projection, unless some projection throws |
| Layout.ViewOutcome | Frontend/src/components/LayoutPage.jsx:40-63 | the placeholder shows exactly without truthy metadata; with it both panes show exactly when both pages render, each pane its own page's rendering; a `null` or `undefined` alternate page, or an original page out of range, makes the render throw |
| Layout.PaneProjectsVisuals | Frontend/src/components/LayoutPage.jsx:138-149 | a drawn pane's page has a `visuals` array, and the pane holds one rectangle per visual, in order, each that visual's projection |
| Layout.PanesProjectVisuals | Frontend/src/components/LayoutPage.jsx:218-229 | when both panes show, each holds one rectangle per visual of its own page, in order, each that visual's projection at the one shared scale |
| Layout.ScaleSlider.constructor | Frontend/src/components/LayoutPage.jsx:17 | the scale starts at 0.48, within the slider's range |
| Layout.ScaleSlider.HandleScaleChange | Frontend/src/components/LayoutPage.jsx:19-21 | the scale becomes the slider's value, and stays within [0.1, 10] |
| Layout.SliderScaleNonNegative | Frontend/src/components/LayoutPage.jsx:87-95 | at any slider value, a non-negative numeric position gives a non-negative rectangle |

## Left out

- Printing: `print` and `console.error` are left out. The backend's per-visual warnings are
  returned as a sequence of `Visuals.Warning` values instead.
- `Visuals.Extraction`: when an exception escapes `visual_extractor`, its result is only `Raised`.
  The warnings already printed before the exception are not part of that result.
- The internals of `json.loads` and `JSON.parse` are not modelled. Both are parameters.
- Duplicate member names in a JSON object: `Json.Lookup` takes the first member of a name, while
  `json.loads` and `JSON.parse` keep the last. Decoded documents are taken to have distinct names.
- `Layout.ToNumber`: the numeric conversion of a string or an array operand of `x * scale` is the
  parameter `fromText`. JavaScript's string-to-number grammar is not modelled.
- Floating point: positions and the scale are real numbers. IEEE-754 rounding of `x * scale`,
  `scale.toFixed(2)` and the slider's 0.01 step are not modelled.
- `Layout.ScaleSlider.HandleScaleChange`: requires its value to be within [0.1, 10]. That range is
  what the slider at `LayoutPage.jsx:87-95` reports, and the slider component's clamping is not
  modelled.
- How React draws a `NaN` style value is not modelled. The rectangle simply holds `NaN`.
- `Layout.Member`: JavaScript built-in properties of arrays, strings and objects (`length`,
  `constructor`, …) are not modelled. Only data members are, which covers every property the
  page reads.
- `pageIndex` is a route parameter string. It is modelled as an integer, and an object is indexed
  by its decimal numeral.
- The field tally reads the stored metadata through a typed view:
  - field names are strings;
  - `query_fields` is a list when present;
  - `projections` maps roles to lists.

  Values of other types, and field names such as `constructor` that clash with
  `Object.prototype`, are not modelled.
- `Object.entries` lists integer-like keys first, in numeric order. The tally assumes field names
  that are not integer-like, so entries keep insertion order.
- The backend-to-frontend transport of the metadata (HTTP, `localStorage`) is not modelled. The
  extractor's report and the frontend's views are modelled separately.
- Browser I/O and presentation are not modelled:
  - `localStorage` reads and writes;
  - the dark-mode toggle;
  - routing;
  - charts;
  - the page selector;
  - MUI styling and the visuals' title and caption text.
- Files outside the core are not part of this model:
  - the upload form;
  - the Flask routes;
  - the archive reader;
  - the AI prompt code.
