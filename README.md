# Climatrix dashboard logic in Dafny

Climatrix is a climate-risk dashboard. It shows hurricane scenarios as
exposure points on a map and sums up their exposed value and expected
annual impact (EAI). It also lets the user keep a list of hand-entered
assets, and it has a results page with a searchable asset-status table.
A separate demo page sends exposure points, read from a preset GeoJSON
file or typed in as comma-separated lines, to an impact service.

This project models the logic under that user interface:

- The mock scenario generator and the three-scenario catalog (`Constants`).
- The dashboard's state (`App`): the summary statistics, the custom-asset
  list, scenario selection, and welcome / controls / main navigation.
- The controls menu's own asset form and list (`ControlsMenu`).
- The demo page (`DemoApp`): CSV and preset parsing, the map view per mode,
  and the `loading` / `data` handling around the service call.
- The results page (`ResultsDashboard`): the asset table, its search,
  the status badge colours and the tab switch.
- The map layer's rules (`MapWrapper`): marker style and popup.

`JsArrays` and `JsStrings` give the JavaScript library operations the
code relies on (`filter`, `find`, `reduce`, `trim`, `split`,
`toLowerCase`, `includes`). `filter` and `reduce` are proved against
independent reference definitions (a subsequence of the accepted elements,
as many as there are; the mathematical sum). `split` is proved against
its inverse `join`. `trim`, `find` and `includes` are pinned down by
characterising contracts. `toLowerCase` is specified character by
character; its further properties are idempotence and that a letter
absent from a text in both cases is absent from its lower-cased form.

Numbers are modelled as `real`. A `NaN` or `undefined` number is `None`.
The program's environment is passed in as parameters:

- `parseFloat` is a parameter `parse: string -> Option<real>`.
- `Math.log10` is a parameter `log10: real -> real`.
- `Date.now()` is a parameter `now: int`.
- `Math.random()` is a sequence `rolls` of its successive results, each in
  [0, 1), consumed in the order the generator calls it.
- The preset files (a function from a path to its features, `None` when
  the fetch fails), and the impact service's answer, are parameters of
  the methods that fetch them.

Parts the source changes step by step are classes with methods:

- `App.AppState` and `ControlsMenu.AssetForm` hold the `useState` fields of
  their components.
- `DemoApp.DemoState` does the same for the demo page.
- `Constants.GenerateMockGeoJson` keeps the generator's counted loop.

Each of these is proved against a function: `MockRun`, `Summarize`,
`RemoveById`, `ScenarioById`, `NewAsset`, `ParseCsv` and
`PresetExposures`.

## Model

| member | source | states |
|---|---|---|
| JsArrays.Filter | App.tsx:62 | `filter` keeps exactly the elements satisfying the callback, as a subsequence in order, as many as the callback accepts; when all satisfy it, the list is unchanged |
| JsArrays.FilterUnique | App.tsx:62 | the contract of `filter` determines its result: any subsequence of accepted elements, as many as are accepted, is the filtered list, so duplicates are kept and order is kept |
| JsArrays.FilterAppend | App.tsx:62 | filtering distributes over concatenation |
| JsArrays.Find | App.tsx:38 | `find` gives `None` iff no element satisfies the predicate, else the first one that does |
| JsArrays.FindUnique | App.tsx:38 | when only one element can satisfy the predicate, `find` returns that element |
| JsArrays.ReduceAdd | App.tsx:52-53 | a `reduce` with `+` from an initial value equals that value plus the mathematical sum |
| JsArrays.SumAtLeast | App.tsx:52 | a sum of terms each at least `lo` is at least `lo` times their count |
| JsStrings.Trim | climada-demo/src/App.jsx:52 | `trim` returns the slice between leading and trailing whitespace, with no whitespace at its ends |
| JsStrings.TrimIdempotent | climada-demo/src/App.jsx:52 | trimming twice equals trimming once |
| JsStrings.Split | climada-demo/src/App.jsx:52 | `split` on one character always yields at least one piece |
| JsStrings.SplitCount | climada-demo/src/App.jsx:52 | there is one more piece than separators |
| JsStrings.SplitPiecesFree | climada-demo/src/App.jsx:53 | no piece contains the separator |
| JsStrings.JoinSplit | climada-demo/src/App.jsx:52 | joining the pieces of a split gives back the text |
| JsStrings.SplitJoin | climada-demo/src/App.jsx:53 | splitting a join of separator-free pieces gives back the pieces |
| JsStrings.Lower | components/ResultsDashboard.tsx:154 | `toLowerCase` keeps the length and lower-cases character by character |
| JsStrings.LowerIdempotent | components/ResultsDashboard.tsx:154 | lower-casing is idempotent; only the empty string lower-cases to empty |
| JsStrings.Contains | components/ResultsDashboard.tsx:156-157 | `includes` holds iff the substring occurs at some position |
| JsStrings.MissingCharNotContained | components/ResultsDashboard.tsx:156 | a substring cannot occur where one of its characters is absent |
| Types.RemoveById | App.tsx:61-63 | keeps exactly the assets with a different id, in order and as many as there are (duplicates included); an unknown id leaves the list unchanged |
| Types.RemoveByIdAppend | App.tsx:62 | removal distributes over concatenation, so survivors keep their order |
| Types.RemoveUndoesAppend | App.tsx:57-63 | removing the id of an asset just appended undoes the append when that id was fresh |
| Types.RemoveByIdIdempotent | App.tsx:62 | removing twice by the same id is removing once |
| Constants.DrawProperties | constants.ts:14-18 | one point's numbers consume 5 rolls exactly when the impact roll exceeds 0.1 (high exposure) or 0.4 (otherwise), and 4 otherwise; with 4 rolls the impact is zero |
| Constants.DrawFeature | constants.ts:12-27 | one loop iteration yields a point feature with properties |
| Constants.MockRun | constants.ts:11-28 | `n` iterations yield exactly `n` point features, using between `4n` and `5n` rolls |
| Constants.OffsetBound | constants.ts:12-13 | a random offset stays within half the box size either way |
| Constants.ValueInRange | constants.ts:14 | every generated value lies in [500000, 10000000) |
| Constants.ImpactInRange | constants.ts:18 | a generated impact is a non-negative integer below 8% of the value |
| Constants.DrawPropertiesOk | constants.ts:14-18 | each point's value is integral in [500000, 10000000), and its impact is integral in [0, 8% of value) |
| Constants.DrawFeatureOk | constants.ts:12-25 | each point is stored `[lng, lat]` within half the box size of the centre and meets the number ranges |
| Constants.MockRunOk | constants.ts:11-28 | every point the loop produces meets the ranges and the box |
| Constants.GenerateMockGeoJson | constants.ts:4-33 | the loop returns exactly `count` features, equal to `MockRun`, each within the ranges and the box |
| Constants.Scenarios | constants.ts:35-60 | the catalog has three scenarios, all with data, holding 5, 10 and 8 points |
| Constants.CatalogIdsDistinct | constants.ts:35-60 | the catalog ids are pairwise distinct |
| Constants.CatalogFeaturesOk | constants.ts:35-60 | every catalog point meets the generator's ranges for its scenario's centre and box size |
| App.Summarize | App.tsx:47-55 | zeros without data; otherwise the point count and the sums of all values and all impacts |
| App.SummarizeAddPoint | App.tsx:51-53 | one more point adds one to the count and its numbers to the two totals |
| App.CatalogSummaries | App.tsx:47-55 | a catalog scenario's summary counts 5, 10 or 8 points, has a non-negative impact total, and has a value total of at least 500000 per point |
| App.ScenarioById | App.tsx:38 | the lookup finds a catalog scenario with that id, or `None` iff no scenario has it |
| App.ScenarioByIdFinds | App.tsx:38 | with distinct ids, looking up an entry's id finds that entry |
| App.ScenarioByIdMember | App.tsx:38 | with distinct ids, a scenario of the catalog is what its own id looks up |
| App.AppState.Stats | App.tsx:47-55 | the summary of the shown scenario: zeros without data, otherwise its point count; once loading is over, the summary of the scenario the selected id looks up |
| App.AppState.constructor | App.tsx:29-34 | initial state is welcome view, map tab, first scenario selected and shown, loading, no custom assets |
| App.AppState.SelectionEffect | App.tsx:36-45 | a found id shows that scenario and clears loading; an unknown id leaves loading raised and the scenario unchanged |
| App.AppState.Mount | App.tsx:36-45 | the first effect run shows the first catalog scenario with loading cleared |
| App.AppState.SelectScenario | App.tsx:36-45 | a new id runs the selection effect; the same id changes nothing; the state invariant is kept |
| App.AppState.HandleAddAsset | App.tsx:57-59 | appends the asset at the end, earlier entries unchanged |
| App.AppState.HandleRemoveAsset | App.tsx:61-63 | the list becomes `RemoveById` of the old list |
| App.AppState.HandleStart | App.tsx:65 | view becomes controls; the tab is not touched |
| App.AppState.HandleNavigateToMap | App.tsx:66-69 | view main with the map tab |
| App.AppState.HandleNavigateToResults | App.tsx:70-73 | view main with the results tab |
| App.AppState.HandleBackToControls | App.tsx:74 | view becomes controls; the tab is not touched |
| App.AppState.SelectTab | App.tsx:107-108 | a tab button selects its tab |
| ControlsMenu.NewAsset | components/ControlsMenu.tsx:103-108 | a submit is accepted iff the name is non-empty and lat, lon and value all parse; the asset carries the parsed numbers and the timestamp id |
| ControlsMenu.NoRangeCheck | components/ControlsMenu.tsx:107 | acceptance depends only on whether the fields parse, not on the numbers, so no range is checked |
| ControlsMenu.AssetForm.constructor | components/ControlsMenu.tsx:95-99 | empty list and four empty fields |
| ControlsMenu.AssetForm.EditField | components/ControlsMenu.tsx:167-172 | typing replaces one field and leaves the others |
| ControlsMenu.AssetForm.HandleAddAsset | components/ControlsMenu.tsx:101-112 | accepted: list grows by the new asset at the end and all four fields are cleared; refused: nothing changes |
| ControlsMenu.AssetForm.HandleRemoveAsset | components/ControlsMenu.tsx:114-116 | the list becomes `RemoveById` of the old list; the form is untouched |
| DemoApp.OrDefault | climada-demo/src/App.jsx:44 | `??` replaces only a missing number by 1000000 |
| DemoApp.OrFalsy | climada-demo/src/App.jsx:54 | the logical-or fallback keeps a non-zero number, replaces a missing number or zero by 1000000, and never yields zero |
| DemoApp.DefaultsDifferOnlyOnZero | climada-demo/src/App.jsx:41-54 | on a present number or a missing one, the two defaulting rules differ exactly on an explicit zero |
| DemoApp.Field | climada-demo/src/App.jsx:53 | a missing field is `undefined`; a present one is trimmed, then parsed |
| DemoApp.ParseCsvLine | climada-demo/src/App.jsx:53-54 | a CSV point's value is never zero |
| DemoApp.ParseCsvLineFields | climada-demo/src/App.jsx:53-54 | fields 1, 2 and 3 are lat, lon and value, and any further fields are ignored |
| DemoApp.ParseCsvLineShort | climada-demo/src/App.jsx:53-54 | a line with only a latitude has no longitude and the default value |
| DemoApp.ParseCsvLineTwo | climada-demo/src/App.jsx:53-54 | a line `lat,lon` reads both coordinates and gets the default value |
| DemoApp.ParseCsv | climada-demo/src/App.jsx:50-56 | one point per line-feed-separated line of the trimmed text, in order |
| DemoApp.ParseCsvLines | climada-demo/src/App.jsx:52 | text joined from lines gives exactly one point per line, each that line's parse |
| DemoApp.Coordinate | climada-demo/src/App.jsx:42-43 | an index past the coordinates is `undefined` |
| DemoApp.PresetExposure | climada-demo/src/App.jsx:41-45 | latitude is the second coordinate and longitude the first, each undefined when missing; the value is kept when present (zero included) and 1000000 otherwise |
| DemoApp.PresetExposures | climada-demo/src/App.jsx:41-45 | one exposure per feature, in order |
| DemoApp.PresetExposureReadsPoint | climada-demo/src/App.jsx:41-44 | a feature at `[lng, lat]` becomes latitude `lat` and longitude `lng`, its value (zero included) kept |
| DemoApp.PresetExposureDefault | climada-demo/src/App.jsx:44 | without properties or value, the value defaults to 1000000 |
| DemoApp.DemoMatchesCatalog | climada-demo/src/App.jsx:10-14 | the demo's three scenarios carry the dashboard catalog's names, centres and zooms |
| DemoApp.MapView | climada-demo/src/App.jsx:77-82 | preset mode shows the selected scenario's centre and zoom; custom mode shows `[20, -60]` at zoom 4 |
| DemoApp.PresetViewIsCatalogView | climada-demo/src/App.jsx:77-82 | in preset mode the map opens where the dashboard opens the same scenario |
| DemoApp.DemoState.ShowsLayer | climada-demo/src/App.jsx:143 | the result layer is drawn exactly when there is data and no request is loading |
| DemoApp.DemoState.constructor | climada-demo/src/App.jsx:18-22 | preset mode, `scenario1`, empty text, no data, not loading |
| DemoApp.DemoState.CallApi | climada-demo/src/App.jsx:66-74 | sends the fixed payload; stores the body only for an ok, parseable answer; otherwise throws with `data` unchanged |
| DemoApp.DemoState.LoadPreset | climada-demo/src/App.jsx:37-48 | fetches the selected scenario's file, sends its exposures while loading, ends not loading, and keeps the old data on any failure |
| DemoApp.DemoState.CalcFromCsv | climada-demo/src/App.jsx:58-64 | sends `ParseCsv` of the text while loading, ends not loading, and keeps the old data on failure |
| DemoApp.DemoState.Refresh | climada-demo/src/App.jsx:25-34 | preset mode sends the selected file's exposures (nothing when the fetch fails); custom mode with non-blank text sends `ParseCsv` of the text; otherwise nothing is sent and the data is cleared; data and `loading` follow as in `LoadPreset` and `CalcFromCsv` |
| DemoApp.DemoState.SetMode | climada-demo/src/App.jsx:102-107 | the radio buttons set the mode |
| DemoApp.DemoState.SetSelected | climada-demo/src/App.jsx:113-115 | the drop-down selects one of the demo's keys |
| DemoApp.DemoState.SetCsvText | climada-demo/src/App.jsx:131 | the text area replaces the text |
| ResultsDashboard.AssetIdsDistinct | components/ResultsDashboard.tsx:37-44 | the six row ids are pairwise distinct |
| ResultsDashboard.RowMatches | components/ResultsDashboard.tsx:155-157 | the search callback: every row matches the empty term, a row whose lower-cased id starts with the term matches, and a match needs a term no longer than the id or the type |
| ResultsDashboard.KeepRow | components/ResultsDashboard.tsx:155-157 | the callback passed to `filter` is defined on every row and accepts exactly the matching rows |
| ResultsDashboard.FilterAssets | components/ResultsDashboard.tsx:152-159 | an empty term gives the whole table; otherwise exactly the rows whose lower-cased id or type contains the lower-cased term, a subsequence in table order |
| ResultsDashboard.EmptyTermKeepsAll | components/ResultsDashboard.tsx:153 | the empty-term shortcut agrees with filtering by the empty term |
| ResultsDashboard.FilterIgnoresCase | components/ResultsDashboard.tsx:154-157 | terms that lower-case alike find the same rows |
| ResultsDashboard.SearchFpso | components/ResultsDashboard.tsx:152-159 | "fpso" in any case finds the two FPSO rows, in order |
| ResultsDashboard.FilterAssetsLength | components/ResultsDashboard.tsx:155 | the result is never longer than the table |
| ResultsDashboard.StatusColor | components/ResultsDashboard.tsx:61-69 | each of the four damage labels gets its own colour |
| ResultsDashboard.StatusColorFallback | components/ResultsDashboard.tsx:61-69 | slate exactly for unknown labels; distinct known labels never share a colour |
| ResultsDashboard.TableStatusesKnown | components/ResultsDashboard.tsx:37-44 | every row of the table has a known label, so no badge falls back to slate |
| ResultsDashboard.RenderTabContent | components/ResultsDashboard.tsx:210-216 | the distribution and asset tabs exactly for their labels |
| ResultsDashboard.RenderTabContentLabels | components/ResultsDashboard.tsx:210-216 | each tab button's label shows its tab; any other label shows the metrics tab |
| MapWrapper.PointToLayer | components/MapWrapper.tsx:18-29 | radius 6 when `eai <= 0`, else at least 8 and the larger of 8 and the log size; red colours iff `eai > 0`, orange otherwise; weight 2 and opacity 0.7 |
| MapWrapper.RadiusOrder | components/MapWrapper.tsx:20 | an impact point's marker is larger than a no-impact one; for an increasing logarithm, radius does not decrease with the impact |
| MapWrapper.Popup | components/MapWrapper.tsx:31-46 | a popup iff properties are present and the geometry is a point; it reads `[lng, lat]` and shows lat, then lng |
| MapWrapper.PopupOfGenerated | components/MapWrapper.tsx:34 | a generated point's popup shows the latitude and longitude it was drawn at |
| MapWrapper.CatalogPopups | components/MapWrapper.tsx:31-46 | each catalog point has a popup within half its box of the centre; its marker is 6 exactly when its impact is zero |

## Left out

- Rendering is not modelled, except where a rule decides what is rendered:
  JSX, Tailwind class strings, recharts charts, and Leaflet map, tile and
  marker construction. Also left out are ReportModal, InfoModal, Header,
  LegendPanel and SummaryPanel.
- Number formatting (`toLocaleString`, `toFixed`, `Math.trunc` in
  displays): library formatting of floats.
- Floating point: numbers are exact reals. No rounding, no `Infinity`, and
  no `-0`.
- `parseFloat` and `Math.log10` are abstract parameters, not models of
  those functions.
- `NaN` and `undefined` are both `None`. The two defaulting rules meet
  different inputs: the `??` of the preset mapping reads numbers parsed
  from JSON, which cannot hold `NaN`, so there `None` is only a missing
  value; the `||` of the CSV parse reads `parseFloat` results, and `||`
  replaces `NaN` and `undefined` alike.
- DemoApp.DefaultsDifferOnlyOnZero: compares the two rules on the values
  they can meet, where `None` is a missing number. On `NaN` itself they
  also differ (`NaN ?? 1000000` stays `NaN`, `NaN || 1000000` is
  1000000), but no `NaN` reaches the `??`.
- Network and file I/O: the fetch itself, `API_BASE`, the JSON
  encoding of the payload, and the admin/responder API helpers. The
  service's answer and the preset file's contents are inputs.
- `backend/main.py`: a placeholder that returns a fixed message.
- The 500 ms timer in the selection effect: selection is one discrete
  step, and the race between a late timer and a newer selection is
  not modelled.
- The controls menu's hazard selects, condition sliders and climate-scenario
  select: local state that feeds nothing else.
- The props the dashboard passes to the controls menu that the menu does
  not declare (the navigation callbacks and the asset list callbacks).
  The two asset lists are kept separate, as in the code.
- Custom-asset markers on the map, and the demo page's constant marker
  style and popup.
- ReportModal's copy of the status-colour switch.
- The results tab's own state (`activeTab`, `searchTerm`, the report modal
  flag): the tab switch and the search are modelled as functions of it.
- The literal Tailwind class of each status colour: `StatusColor` returns
  the colour family.
- JsStrings.Lower: only ASCII and Latin-1 upper-case letters are
  lower-cased. Other scripts' case mappings are not modelled.
- Constants.GenerateMockGeoJson: needs five rolls per point up front (the
  most one point can use), where `Math.random` never runs out. It also
  returns `used`, the number of rolls consumed.
- ControlsMenu.NewAsset: no range or positivity check on latitude,
  longitude or value, and no uniqueness of the timestamp id. The code
  makes none, and the model follows the code.
- ControlsMenu.NewAsset: the new asset has no risk type. The record type
  asks for one, but the menu does not set it.
- DemoApp.DemoState.Refresh: the effect's dependencies are the mode and the
  selection, not the text, so it is a separate method that callers run
  once after the constructor (the mount, in preset mode) and after
  `SetMode` or `SetSelected`. The demo's scenarios have no
  description, so the description paragraph is empty.
- DemoApp.DemoState.LoadPreset and DemoApp.DemoState.CalcFromCsv: each
  request is one atomic step. Overlapping requests are not modelled: a
  second load can start while one is in flight, the first one's `finally`
  then clears `loading` early, and the last answer to arrive wins.
- DemoApp.DemoState.LoadPreset: a feature without geometry makes the
  mapping throw. This is not modelled: a preset feature always has
  coordinates (possibly too few).
