# Polygon weather dashboard: drawing, geometry, colour rules and store

This project models the logic under a map dashboard in which a user draws polygons,
binds each to a weather data source, and sees each polygon coloured by threshold rules
applied to the weather observed at its centroid. Four pieces are modelled:

- **Geometry and colour classification** (`utils/api.ts`): `calculatePolygonCentroid`,
  `calculateBoundingBox` and the first-match rule evaluator `applyColorRules`, each a
  method with a loop, proved against a specification function (`Centroid`,
  `BoundingBoxOf`, `Classify`) whose properties are lemmas (module `Geometry`, `ColorRules`).
- **The state container** (`store/useStore.ts`): class `Store.AppStore` holds every field
  of the store record; each action is a method whose `modifies` frame names exactly the
  fields it replaces, so all other fields are unchanged. The new lists are built by
  pure functions (`WithoutPolygon`, `WithUpdate`, `WithRuleAdded`, `WithRuleRemoved`).
- **The drawing state machine** (`components/MapComponent.tsx`): the click and keydown
  handlers, `finishDrawing`, `cancelDrawing`, `startDrawing` as methods on the store, and
  `getPolygonColor` as a function (module `MapView`).
- **The observation refresh** (`hooks/useWeatherData.ts`): the per-polygon value and
  colour, the dropping of failed entries, and the wholesale replacement of `polygonData`
  (module `WeatherRefresh`). The weather fetch is an input: one outcome per polygon.

Shared helpers (module `Seqs`) give `filter`, `find`/`findIndex`, dropping nulls and
summing one definition each. Coordinates, thresholds and temperatures are `real`; an
observation value is `Number`, a finite real or NaN, because the mean over an empty
window is 0/0 and NaN fails every rule comparison.

Behaviour worth knowing, taken from the code:

- A polygon whose fetch fails or whose data source is missing gets no entry and no
  placeholder entry (hooks/useWeatherData.ts:24, 52, 57).
- A click is refused when the new list would reach 12 pairs
  (components/MapComponent.tsx:29), so a drawing holds at most 11 pairs, although the
  code's own warning (components/MapComponent.tsx:30) says 12 are allowed.
- Rules are evaluated in declaration order only; they are never sorted by threshold.

## Model

| member | source | states |
|---|---|---|
| Geometry.CalculatePolygonCentroid | utils/api.ts:8-18 | returns `Centroid(points)`: `(0, 0)` for no pairs, otherwise the latitude sum and the longitude sum, each divided by the count |
| Geometry.CalculateBoundingBox | utils/api.ts:25-43 | returns `BoundingBoxOf(points)`: all zero for no pairs, otherwise the running min/max of latitude and longitude started from the first pair |
| Geometry.BoundingBoxEncloses | utils/api.ts:30-42 | every pair of a non-empty list has `south <= lat <= north` and `west <= lng <= east` (so `south <= north`, `west <= east`) |
| Geometry.BoundingBoxTight | utils/api.ts:30-42 | each of the four edges of a non-empty list's box equals some pair's coordinate |
| Geometry.CentroidInBoundingBox | utils/api.ts:11-17 | the centroid of a non-empty list lies inside its bounding box |
| ColorRules.Classify | utils/api.ts:93-118 | the colour is the default `#cccccc` or the colour of one of the rules |
| ColorRules.ApplyColorRules | utils/api.ts:87-119 | the loop with its operator switch and early return computes `Classify`: the first matching rule's colour, else `#cccccc` |
| ColorRules.ClassifyFirstMatch | utils/api.ts:93-116 | when rule `i` matches and no earlier rule does, the result is rule `i`'s colour, whatever later rules say |
| ColorRules.ClassifyDefault | utils/api.ts:114-118 | no matching rule (including no rules at all) gives `#cccccc`; if no rule uses `#cccccc` as its colour, `#cccccc` comes back only then |
| ColorRules.ClassifyAppend | utils/api.ts:93-117 | appending rules never changes the outcome once an earlier rule matches; otherwise only the appended rules decide |
| ColorRules.ClassifyNaN | utils/api.ts:96-110 | the comparisons are exact, so NaN matches no operator and gets `#cccccc` |
| Store.ThirdInitialRuleUnreachable | store/useStore.ts:63-67 | with the initial rules, the third rule (`>= 25`) is never the first match and its colour never comes back |
| Store.WithoutPolygon | store/useStore.ts:88 | the kept polygons are exactly those of the list whose id differs |
| Store.WithoutPolygonAppend | store/useStore.ts:88 | removal from a concatenation is removal from each part, concatenated: survivors keep their original order |
| Store.WithoutAbsentPolygon | store/useStore.ts:88 | removing an id nobody has leaves the list unchanged |
| Store.RemoveAfterAdd | store/useStore.ts:81-90 | appending a polygon with a fresh id and then removing that id restores the list, order included |
| Store.Merge | store/useStore.ts:101 | each field given in the patch replaces the source's field; every absent field keeps the source's value |
| Store.MergeIdempotent | store/useStore.ts:101 | merging a patch twice equals merging it once; the empty patch changes nothing |
| Store.WithUpdate | store/useStore.ts:99-102 | same length; sources with the id get the patch merged in, all others are unchanged |
| Store.WithRuleAdded | store/useStore.ts:106-111 | same length; sources with the id get the rule appended after their rules and keep id, name and fields; others unchanged |
| Store.WithRuleRemoved | store/useStore.ts:113-118 | same length; sources with the id keep only the rules with another id and keep id, name and fields; others unchanged |
| Store.RulesWithoutExact | store/useStore.ts:116 | the remaining rules are exactly those with another id, never more than before |
| Store.RulesWithoutAppend | store/useStore.ts:116 | rule removal distributes over concatenation: the remaining rules keep their declaration order |
| Store.RemoveRuleAfterAdd | store/useStore.ts:106-118 | adding a rule whose id the matching sources lack and then removing that id restores every data source |
| Store.AppStore.constructor | store/useStore.ts:44-71 | the initial state: a window from 15 days before to 15 days after today, single-hour mode, not drawing, no pairs, polygons, selection or polygon data, and the selected data source is one that exists |
| Store.AppStore.SetTimeRange | store/useStore.ts:74 | replaces `timeRange` and nothing else |
| Store.AppStore.SetIsRangeMode | store/useStore.ts:75 | replaces `isRangeMode` and nothing else |
| Store.AppStore.SetSelectedHour | store/useStore.ts:76 | replaces `selectedHour` and nothing else |
| Store.AppStore.SetMapCenter | store/useStore.ts:77 | replaces `mapCenter` and nothing else |
| Store.AppStore.SetIsDrawing | store/useStore.ts:78 | replaces `isDrawing` and nothing else |
| Store.AppStore.SetCurrentDrawingPoints | store/useStore.ts:79 | replaces `currentDrawingPoints` and nothing else |
| Store.AppStore.AddPolygon | store/useStore.ts:81-84 | the polygon is appended after the existing ones, which keep their order |
| Store.AppStore.RemovePolygon | store/useStore.ts:86-90 | polygons become `WithoutPolygon`; the selection is cleared exactly when it named the id; nothing else changes |
| Store.AppStore.SetSelectedPolygon | store/useStore.ts:92 | replaces `selectedPolygon` and nothing else |
| Store.AppStore.AddDataSource | store/useStore.ts:94-97 | the data source is appended after the existing ones |
| Store.AppStore.UpdateDataSource | store/useStore.ts:99-102 | data sources become `WithUpdate`; nothing else changes |
| Store.AppStore.SetSelectedDataSource | store/useStore.ts:104 | replaces `selectedDataSource` and nothing else |
| Store.AppStore.AddColorRule | store/useStore.ts:106-111 | data sources become `WithRuleAdded`; nothing else changes |
| Store.AppStore.RemoveColorRule | store/useStore.ts:113-118 | data sources become `WithRuleRemoved`; nothing else changes |
| Store.AppStore.UpdatePolygonData | store/useStore.ts:120 | replaces `polygonData` wholesale and nothing else |
| MapView.Click | components/MapComponent.tsx:24-36 | not drawing: no change; drawing: the pair is appended when the new length stays below 12, otherwise the pairs are unchanged, so a drawing of at most 11 pairs stays so |
| MapView.KeyDown | components/MapComponent.tsx:37-43 | Enter while drawing with at least 3 pairs finishes; Escape while drawing cancels; any other key or state changes nothing |
| MapView.FinishDrawing | components/MapComponent.tsx:46-69 | under 3 pairs nothing changes; otherwise exactly one polygon is appended, built from the pairs, centroid, box, selected data source and `#1890ff`, then the pairs are cleared and drawing stops |
| MapView.DrawnPolygonGeometry | components/MapComponent.tsx:52-63 | a finished polygon keeps the drawn pairs in order, and its vertices and centroid lie inside its bounding box |
| MapView.CancelDrawing | components/MapComponent.tsx:71-75 | the pairs are cleared and drawing stops; no polygon is added |
| MapView.StartDrawing | components/MapComponent.tsx:84-87 | drawing starts and the pairs are left as they are |
| MapView.PolygonColor | components/MapComponent.tsx:108-111 | the colour of the first observation with that polygon id, or `#1890ff` when there is none or its colour is empty |
| WeatherRefresh.HourValue | hooks/useWeatherData.ts:36-38 | the temperature of the first sample whose time starts with the hour prefix, else 0 |
| WeatherRefresh.RangeValue | hooks/useWeatherData.ts:29-33 | NaN exactly when no sample's instant lies in `[start, end]` |
| WeatherRefresh.RangeValueBounded | hooks/useWeatherData.ts:29-33 | the range value is the mean of the in-window temperatures: it lies between any bounds on them |
| WeatherRefresh.SourceOf | hooks/useWeatherData.ts:23 | absent exactly when no data source has the id; otherwise the first listed source with that id |
| WeatherRefresh.Observe | hooks/useWeatherData.ts:18-53 | an entry exists exactly when the fetch succeeded and the data source exists; it carries the polygon id, the stamp, the mode's value and `Classify` of that value under the source's rules |
| WeatherRefresh.Observations | hooks/useWeatherData.ts:56-57 | at most one entry per polygon, and every polygon whose entry exists has it in the output, whatever the others' fetches did |
| WeatherRefresh.ObservationsSound | hooks/useWeatherData.ts:42-49 | every output entry is the entry of some polygon whose fetch succeeded, with that polygon's value and rule colour |
| WeatherRefresh.ObservationsSplit | hooks/useWeatherData.ts:18-57 | the output for two batches of polygons is the first batch's output followed by the second's: polygon order is kept and failures stay local |
| WeatherRefresh.ObservationsDropFailed | hooks/useWeatherData.ts:20-24 | with distinct ids, a polygon whose fetch failed or whose data source is missing has no entry |
| WeatherRefresh.FetchDataForPolygons | hooks/useWeatherData.ts:12-58 | with no polygons `polygonData` is untouched; otherwise it is replaced by `Observations` of the store's polygons, and nothing else changes |

## Left out

- `fetchWeatherData` (utils/api.ts:45-79): URL building, HTTP and JSON parsing are network I/O; each polygon's fetch is an input, `None` when it failed or threw.
- The call at hooks/useWeatherData.ts:20 passes date strings where `Date` values are expected and omits the field list, so as written that call throws for every polygon and every entry is dropped; the model keeps the outcome abstract, which includes that case.
- The concurrent fan-out with `Promise.all`, and a slow earlier refresh overwriting a later one: concurrency and effect scheduling.
- IEEE-754 arithmetic: values are exact reals, so rounding, overflow and Infinity are not modelled; NaN is modelled only where the code produces it, the 0/0 mean of an empty window.
- Date parsing and formatting (hooks/useWeatherData.ts:15-16, 30, 36, 46): instants are integers, each sample carries its parsed instant, and the two renderings of the selected hour are inputs to `FetchDataForPolygons`.
- The weather series is one list of samples rather than two parallel arrays, so arrays of different lengths are not modelled.
- A `Partial<DataSource>` field present with the value `undefined` (which the spread would copy) is not distinguished from an absent field.
- An operator outside the five is unrepresentable, so the switch's default branch is not modelled.
- Toasts, Leaflet icon setup, rendering and `resetCenter` (components/MapComponent.tsx:11-17, 89-154); the `Date.now()` id and name of a new polygon are parameters.
- The handlers read the store's current fields; React's capture of values from the last render is not modelled.
- components/TimelineSlider.tsx, components/Sidebar.tsx, app/page.tsx, app/layout.tsx and tailwind.config.js are not part of this model: widgets, layout and styling.
