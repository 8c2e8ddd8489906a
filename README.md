# Frankfurt tram lines: the map-state layer and the line extractor

This project is a Dafny model of the core of frankfurt-tram-lines. The
system draws the Frankfurt tram network on a map and highlights the line a
user picks. It has two halves, and the model covers both.

- **The map front end** (`src/components/transport-map.ts`,
  `src/components/transport-data.ts`).
  - The class `TransportMap` owns one maplibre-gl map engine. It registers
    the "pmtiles" protocol for its lifetime. `addTransportLayers` builds the
    line, station and station-centroid collections and adds four sources and
    three layers. `setSelectedLine` copies the lines whose key
    (`transportLineId`: number, origin and destination concatenated) equals
    the selection into the `transport-selected` source, and fits the
    viewport to them.
  - The React hook `useTransportMap` sequences all of this from its props
    and two pieces of state.
- **The extractor** (`src/bin/extract_transport_lines.rs`). It walks the
  OpenStreetMap objects of an extract:
  - tram-stop nodes become stations;
  - route relations whose name reads `Tram <n>: <from> => [<via> => ]<to>`
    become lines, with their geometry from their way members and their stop
    list from their stop members;
  - finally the lines are sorted.

Modules, leaf to root:

| module | file | what it holds |
|---|---|---|
| `Wrappers` | wrappers.dfy | `Option`, `Result` |
| `Numerals` | numerals.dfy | decimal rendering of a number in a template literal; Rust's `parse::<u8>` |
| `Geo` | geo.dfy | GeoJSON positions, geometries, features; turf's `bbox` (min/max) and `centroid` (exact mean) |
| `TransportData` | transport_data.dfy | `Station`, `TransportLine`, `TransportData`, `transportLineId` |
| `Aggregation` | aggregation.dfy | reference definitions of the collections `addTransportLayers` builds, and the grouping of stations by name |
| `Engine` | engine.dfy | the maplibre capability surface: `MapEngine` (sources, ordered layers, controls, `setData`/`fitBounds` calls) and the process-wide `Protocols` table |
| `TransportMapSurface` | transport_map.dfy | the class `TransportMap`, its loops as methods, and the functions and lemmas that specify them |
| `MapHook` | map_hook.dfy | `useTransportMap` as a class driven by events: container change, engine load, data arrival, selection change, unmount |
| `Osm` | osm.dfy | OSM ids and objects, and `BTreeMap` iteration order |
| `RouteName` | route_name.dfy | the route-name regular expression, specified as a grammar with leftmost-first priority |
| `LineOrder` | line_order.dfy | the derived `Ord` of `TransportLine`, and the in-place sort |
| `Extraction` | extraction.dfy | the per-object loop, role dispatch and errors, as reference functions and as the imperative loop proved against them |

Behaviour of the code that the model keeps as it is:

- `TransportMap` creates the engine first and registers "pmtiles" after it.
- `setSelectedLine` calls `setData` and `fitBounds` once per matching line,
  inside its loop, not once at the end.
- When nothing matches, the previous highlight stays; the selected source is
  not cleared.
- The layer effect runs again whenever `map` or `transportData` changes. On
  an engine that already has the sources, `addSource` throws; see
  `TransportMapSurface.ProvisionRefused`.
- The two data effects belong to one component, so a throw in the layer
  effect skips the highlight effect of that commit, and the error then
  unmounts the tree.
- A selection is acted on only when it is truthy, so the empty string is
  ignored like `null`.

## Model

| member | source | states |
|---|---|---|
| TransportData.IdShape | src/components/transport-data.ts:8-10 | the key is the decimal number, then `from`, then `to`; its length is the sum of the three |
| TransportData.IdIgnoresRoute | src/components/transport-data.ts:8-10 | geometry and stop list do not enter the key |
| TransportData.IdNotInjective | src/components/transport-data.ts:9 | line 1 "2A"→"B" and line 12 "A"→"B" are different lines with the same key "12AB" |
| TransportData.IdSameEnds | src/components/transport-data.ts:9 | with equal ends, equal keys exactly when the numbers are equal |
| TransportData.IdDeterminesNumber | src/components/transport-data.ts:9 | when the ends do not start with a digit, equal keys mean equal numbers and equal `from`+`to` |
| Numerals.Decimal | src/components/transport-data.ts:9 | the rendering of a number is a non-empty digit string with no leading zero except for 0 |
| Numerals.DecimalValue | src/components/transport-data.ts:9 | the rendering reads back as the number |
| Numerals.DecimalOfDigitsValue | src/components/transport-data.ts:9 | the digit strings without a leading zero are exactly the renderings |
| Numerals.ParseU8 | src/bin/extract_transport_lines.rs:124-130 | accepted exactly when the text is digits, optionally after `+`, worth less than 256; the result is their value |
| Numerals.ParseDecimal | src/bin/extract_transport_lines.rs:124-130 | parsing the rendering of `n` gives `n` for `n < 256` and fails above |
| Numerals.ParseAccepts | src/bin/extract_transport_lines.rs:124-130 | "12", "+7", "007" and "1" parse |
| Numerals.ParseRejectsOverflow | src/bin/extract_transport_lines.rs:124-130 | "256" does not parse |
| Numerals.ParseRejectsNonDigits | src/bin/extract_transport_lines.rs:124-130 | "-1", "+", "11E" and "1: A" do not parse |
| Geo.BBoxBounds | src/components/transport-map.ts:70 | turf's box holds every position and each side is attained by one; there is no box exactly when there are no positions |
| Geo.CentroidInside | src/components/transport-map.ts:133 | the centroid of a point cloud lies in its bounding box |
| Geo.CentroidWithin | src/components/transport-map.ts:133 | the centroid lies in any box holding all the points |
| Geo.CentroidExample | src/components/transport-map.ts:133 | the centroid of [0,0] and [2,0] is [1,0] |
| Aggregation.LineFeatures | src/components/transport-map.ts:84-94 | one feature per line, in line order, with the line's geometry and no properties |
| Aggregation.StationFeatures | src/components/transport-map.ts:100-110 | one point per station, in iteration order, carrying the station's name |
| Aggregation.GroupNames | src/components/transport-map.ts:99-114 | the map's keys are distinct and are exactly the station names that occur |
| Aggregation.GroupNonEmpty | src/components/transport-map.ts:111-113 | a name has a non-empty group exactly when it is a key |
| Aggregation.StationInItsGroup | src/components/transport-map.ts:111-113 | each station's position lands in its name's group, right after the earlier stations of that name |
| Aggregation.GroupSizesSum | src/components/transport-map.ts:99-114 | the group sizes add up to the number of stations |
| Aggregation.GroupsInFirstSeenOrder | src/components/transport-map.ts:99-114 | groups are ordered by the first station of each name |
| Aggregation.CentroidFeatures | src/components/transport-map.ts:115-136 | one centroid feature per name given |
| Aggregation.CentroidsPerGroup | src/components/transport-map.ts:119-136 | the k-th centroid is a point named after the k-th group and lies in that group's bounding box |
| Aggregation.CentralExample | src/components/transport-map.ts:99-136 | two stations "Central" at [0,0] and [2,0] give one group and one centroid "Central" at [1,0] |
| TransportMapSurface.MatchingMembers | src/components/transport-map.ts:58-59 | the matches are exactly the lines whose key is the selection |
| TransportMapSurface.HighlightSkip | src/components/transport-map.ts:59 | a line that does not match leaves the loop state as it was |
| TransportMapSurface.HighlightMatch | src/components/transport-map.ts:59-72 | a matching line grows the collection, replaces the selected source with it, and makes the two calls |
| TransportMapSurface.HighlightThrow | src/components/transport-map.ts:65-68 | a match with an unusable selected source throws, and nothing was replaced or fitted before it |
| TransportMapSurface.HighlightRejected | src/components/transport-map.ts:69-72 | when `fitBounds` rejects the empty box at a match, that match is the first one; its `setData` has already run and no fit is logged |
| TransportMapSurface.RejectedIsFirst | src/components/transport-map.ts:58-72 | an empty box at a match means no earlier match: the line is the first match of all the lines |
| TransportMapSurface.NoEarlierMatch | src/components/transport-map.ts:58-72 | an empty box for the matches so far plus one line leaves no earlier match when the first match has a coordinate |
| TransportMapSurface.FirstOfAll | src/components/transport-map.ts:58-59 | a match with no match before it is the first match of all the lines |
| TransportMapSurface.FirstMatchKept | src/components/transport-map.ts:58-72 | one more line examined without a throw keeps the first match's coordinate |
| TransportMapSurface.FitRejectsOnlyFirst | src/components/transport-map.ts:70-72 | a later box of the matches so far can be empty only if the first one was |
| TransportMapSurface.MatchingAppend | src/components/transport-map.ts:58-59 | the matches of two runs of lines are the matches of each, in order |
| TransportMapSurface.MatchExamined | src/components/transport-map.ts:59-72 | one matching line either leaves the loop state for the next line or makes the whole call throw, with the state a throw leaves |
| TransportMapSurface.HighlightDone | src/components/transport-map.ts:58-75 | after the loop the sources and calls are the ones `setSelectedLine` promises |
| TransportMapSurface.SelectCallsAt | src/components/transport-map.ts:69-72 | for the j-th match, `setData` with the first j+1 matches, then `fitBounds` to their box with the selection padding |
| TransportMapSurface.SelectCallsShape | src/components/transport-map.ts:58-75 | two calls per match, in match order, each pair as above |
| TransportMapSurface.FitPerMatch | src/components/transport-map.ts:69-72 | `fitBounds` runs once per match with padding 100/50/50/50, right after a `setData` on the selected source |
| TransportMapSurface.LastFitCoversAll | src/components/transport-map.ts:70-72 | the last call fits the viewport to the box of all the matches |
| TransportMapSurface.SelectedHoldsMatches | src/components/transport-map.ts:58-69 | afterwards the selected source holds exactly the matches' geometries, in line order, with no properties |
| TransportMapSurface.NoMatchKeepsHighlight | src/components/transport-map.ts:58-59 | with no match nothing throws, no call is made and the previous highlight stays |
| TransportMapSurface.SelectTwice | src/components/transport-map.ts:53-76 | selecting the same key twice leaves the same sources as once, and the second call does not throw |
| TransportMapSurface.SelectExample | src/components/transport-map.ts:58-59 | with lines 1 A→B and 2 C→D, the key "1AB" matches the first line only |
| TransportMapSurface.EmptyRouteExample | src/components/transport-map.ts:58-72 | with those lines, which carry no coordinate, selecting "1AB" replaces the selected data with line 1 and then throws at `fitBounds`, with no fit logged |
| TransportMapSurface.ProvisionFresh | src/components/transport-map.ts:138-153 | on a loaded engine without the four names, exactly the four sources are added with their collections, the selected one empty, and nothing else changes |
| TransportMapSurface.ProvisionRefused | src/components/transport-map.ts:138-141 | before load, or when "transport" exists, the first `addSource` throws and nothing is added |
| TransportMapSurface.LayersInOrder | src/components/transport-map.ts:154-192 | the three layers are added in order, each drawing a source that exists |
| TransportMapSurface.TransportMap.constructor | src/components/transport-map.ts:22-45 | a fresh unloaded engine with the style's sources, and "pmtiles" registered |
| TransportMapSurface.TransportMap.Load | src/components/transport-map.ts:41-44 | the load event marks the engine loaded and adds one control |
| TransportMapSurface.TransportMap.SetSelectedLine | src/components/transport-map.ts:53-76 | throws exactly when a line matches and either the selected source is not GeoJSON (nothing changed) or the first match has no coordinate (its `setData` ran, then `fitBounds` rejected the empty box); otherwise the selected source holds the matches and the calls are two per match |
| TransportMapSurface.TransportMap.ShowMatches | src/components/transport-map.ts:65-72 | the loop body for a match: look up and throw if unusable; otherwise `setData`, then `fitBounds`, which throws on an empty box |
| TransportMapSurface.TransportMap.AddTransportLayers | src/components/transport-map.ts:83-193 | the sources are the four collections added in order, stopping at the first throw; the layers follow only if all sources were added |
| TransportMapSurface.TransportMap.AddSources | src/components/transport-map.ts:138-153 | the four `addSource` calls in order, the first throw ends the method |
| TransportMapSurface.TransportMap.AddLayers | src/components/transport-map.ts:154-192 | the three `addLayer` calls in order, sources untouched |
| TransportMapSurface.TransportMap.CollectLines | src/components/transport-map.ts:84-94 | the loop builds the lines collection |
| TransportMapSurface.TransportMap.CollectStations | src/components/transport-map.ts:95-114 | the loop builds the stations collection and the name→positions map, keys in first-seen order |
| TransportMapSurface.TransportMap.CollectCentroids | src/components/transport-map.ts:115-136 | the loop builds one centroid per group |
| TransportMapSurface.TransportMap.Destruct | src/components/transport-map.ts:200-202 | "pmtiles" is unregistered |
| MapHook.TransportMapHook.constructor | src/components/transport-map.ts:212-220 | first render: no map, no layers, no protocol, no call |
| MapHook.TransportMapHook.SetContainer | src/components/transport-map.ts:222-230 | the old map is destructed before a new one is made; "pmtiles" is registered exactly while there is a container; `map` is not touched |
| MapHook.TransportMapHook.EngineLoad | src/components/transport-map.ts:41-44 | the load callback sets `map`; with data present, the layer effect and then the highlight effect run on that map, and its sources, layers and `setData`/`fitBounds` log are what those calls leave; without data the engine keeps them |
| MapHook.TransportMapHook.DataArrived | src/components/transport-map.ts:232-245 | the layer effect runs only when both `map` and data are present; the highlight effect follows only if the layer effect returned and the selection is truthy; the engine holds what those calls leave, and the hook fails exactly when one threw |
| MapHook.TransportMapHook.Select | src/components/transport-map.ts:240-245 | a changed selection runs `setSelectedLine` only with map, data, layers added and a truthy selection; the hook then fails exactly when `setSelectedLine` throws, and otherwise the engine holds the highlighted source and the appended `setData`/`fitBounds` calls; without the run the engine is untouched |
| MapHook.TransportMapHook.Unmount | src/components/transport-map.ts:226-228 | the cleanup destructs the live map and "pmtiles" is unregistered; props, state and the record of calls stay as they were |
| MapHook.TransportMapHook.CommitAll | src/components/transport-map.ts:232-245 | the layer effect, then the highlight effect if the layer effect returned and the selection is truthy; a throw skips the rest and tears the tree down; the engine holds what the calls leave |
| MapHook.TransportMapHook.CommitHighlight | src/components/transport-map.ts:240-245 | the highlight effect alone, under the same guard; it fails exactly when `setSelectedLine` throws and leaves the engine as `setSelectedLine` does |
| MapHook.TransportMapHook.TearDown | src/components/transport-map.ts:226-228 | a thrown effect unmounts the tree: the live map is destructed |
| MapHook.TransportMapHook.LayerEffect | src/components/transport-map.ts:233-238 | `addTransportLayers` on the current data: the sources and layers it leaves, no `setData`/`fitBounds` call, and `layersAdded` set unless it threw |
| MapHook.TransportMapHook.HighlightEffect | src/components/transport-map.ts:241-245 | `setSelectedLine` with the selection and data: it throws exactly as `setSelectedLine` does, leaving what the calls before the throw did; otherwise the matches are in the selected source and their `setData`/`fitBounds` calls are appended; the layers stay |
| Osm.IterationDistinct | src/bin/extract_transport_lines.rs:55 | the object loop visits no id twice |
| Osm.IterationOrderUnique | src/bin/extract_transport_lines.rs:55 | the map's ascending iteration order is unique |
| RouteName.FirstSep | src/bin/extract_transport_lines.rs:117 | the lazy `from` group stops at the first separator |
| RouteName.LastCandidate | src/bin/extract_transport_lines.rs:117 | the greedy number group ends at the last colon that still leaves a separator |
| RouteName.LastArrow | src/bin/extract_transport_lines.rs:117 | the greedy via group ends at the last arrow |
| RouteName.ParseSound | src/bin/extract_transport_lines.rs:117-118 | the reported split spells the name, and the last group holds no further arrow |
| RouteName.ParseComplete | src/bin/extract_transport_lines.rs:117-118 | every name that splits along the grammar is matched |
| RouteName.ParsePriority | src/bin/extract_transport_lines.rs:117 | no split has a longer number; with that number none has a shorter origin; with that origin too, the separator is the same and no via is longer |
| RouteName.ViaAndToSound | src/bin/extract_transport_lines.rs:117 | the text after the separator is via, arrow and `to`, with no arrow in `to` |
| RouteName.NewlineRejected | src/bin/extract_transport_lines.rs:117 | a line break anywhere means no match |
| RouteName.GreedyNumberExample | src/bin/extract_transport_lines.rs:117 | "Tram 1: A: B => C" splits with number "1" and with "1: A"; the greedy number group reports "1: A" |
| LineOrder.CompareLinesFlip | src/bin/extract_transport_lines.rs:17-26 | swapping the lines flips the comparison |
| LineOrder.CompareLinesEqual | src/bin/extract_transport_lines.rs:17-26 | `Equal` exactly when number, from, to and stations agree |
| LineOrder.CompareIgnoresGeometry | src/bin/extract_transport_lines.rs:23-24 | the geometry never affects the comparison |
| LineOrder.LineLeqTotal | src/bin/extract_transport_lines.rs:17-26 | any two lines are comparable |
| LineOrder.LineLeqTrans | src/bin/extract_transport_lines.rs:17-26 | the order is transitive |
| LineOrder.AdjacentToSorted | src/bin/extract_transport_lines.rs:144 | neighbours in order put every pair in order |
| LineOrder.Sort | src/bin/extract_transport_lines.rs:144 | afterwards the lines are sorted and are a permutation of the lines before |
| LineOrder.Insert | src/bin/extract_transport_lines.rs:144 | one insertion step keeps the prefix sorted, the same lines, and the part after it untouched |
| LineOrder.InsertStart | src/bin/extract_transport_lines.rs:144 | an insertion step starts with the new line right after a sorted prefix |
| Extraction.LineStringPositions | src/bin/extract_transport_lines.rs:86-97 | a way's line string is `[lon, lat]` of each of its nodes in order, and fails exactly when a node is missing |
| Extraction.MembersRead | src/bin/extract_transport_lines.rs:83-110 | the stop list is the stop members' ids in order; the `k`-th line string is the line string of the `k`-th role-"" way member; every stop member is a node |
| Extraction.MembersFail | src/bin/extract_transport_lines.rs:83-110 | reading the members fails exactly when one member fails |
| Extraction.LineFromRoute | src/bin/extract_transport_lines.rs:111-135 | a line comes from a named route relation whose name matches; the reported split gives its from and to, and its number parses as the line's `u8` number; the members give its geometry and stations |
| Extraction.UnmatchedNameSkipped | src/bin/extract_transport_lines.rs:118-122 | a route whose name does not match is skipped, not an error |
| Extraction.BadNumberFails | src/bin/extract_transport_lines.rs:124-130 | a matching name whose reported number is not a `u8` is an error, even when another split's number would parse |
| Extraction.BadNumberExample | src/bin/extract_transport_lines.rs:117-130 | "Tram 1: A: B => C" also splits with number "1", but the relation stops the extraction |
| Extraction.ClassifyCases | src/bin/extract_transport_lines.rs:56-140 | missing names are errors; everything but tram stops and route relations is skipped; a station is keyed by its node id |
| Extraction.ExtractFails | src/bin/extract_transport_lines.rs:55-141 | the pass fails with the error of the first failing object, and succeeds when none fails |
| Extraction.ExtractAborts | src/bin/extract_transport_lines.rs:55-141 | any failing object makes the pass fail |
| Extraction.ExtractStations | src/bin/extract_transport_lines.rs:58-72 | the stations are exactly the tram stops, each under its node id with its name and `[lon, lat]` |
| Extraction.ExtractLines | src/bin/extract_transport_lines.rs:76-138 | the lines are exactly the lines the visited objects contribute |
| Extraction.CollectLineString | src/bin/extract_transport_lines.rs:88-96 | the node loop computes the way's line string |
| Extraction.CollectMembers | src/bin/extract_transport_lines.rs:81-110 | the member loop computes the route's line strings and stops |
| Extraction.Visit | src/bin/extract_transport_lines.rs:56-140 | the loop body classifies one object |
| Extraction.ExtractTransportLines | src/bin/extract_transport_lines.rs:53-144 | fails exactly when the pass fails, with its error; otherwise the pass's stations, and its lines sorted and permuted |
| Extraction.SortedByNumber | src/bin/extract_transport_lines.rs:144 | sorted lines run by number first, then by origin |

## Left out

- maplibre-gl itself is reduced to the state the core touches: sources, ordered layers, a count of controls, and the log of `setData`/`fitBounds` calls. Rendering, style, zoom, center, gestures, attribution text, paint and layout values, and the `NavigationControl` are not modelled.
- The `pmtiles` `Protocol` object and its tile handler are not modelled; only the name registered in the process-wide table is.
- The selection's `fitBounds` is modelled as rejecting only turf's empty box. maplibre also rejects a latitude outside [-90, 90]; the coordinates are taken to be valid WGS84, as the extractor reads them from OpenStreetMap.
- A line's `geometry` is typed as any GeoJSON `Geometry`, but the model has only `Point` and `MultiLineString`. Those are the only kinds the extractor writes: a point per station and a multi-line string per line.
- Floating point is not modelled. Coordinates are exact reals. turf's `bbox` is min/max over the coordinates. turf's `centroid` of the group's point collection is the exact arithmetic mean.
- React's scheduling is replaced by explicit events. Each event is one prop change or the engine's load callback, followed by one commit that runs the affected effects in declaration order.
  - The extra render caused by `setLayersAdded(true)` is folded into the same commit.
  - A thrown effect is recorded as `failed`. It skips the component's later effects in that commit, unmounts the tree and runs the pending cleanup.
- `useTransportData` (fetch and JSON parse) is outside the model; the data arrives as an event.
- The JSON object `stations` is given as its entries in property enumeration order, which is the order `Object.values` visits.
- On the Rust side, the following are not modelled: reading the PBF file, `get_objs_and_deps`, `serde_json` output, file writing and the clap CLI. The extract is a map from OSM id to object. Its `BTreeMap` iteration order is given as an ascending id list.
- An `unwrap` on an object missing from the extract is a panic. It is modelled as the error `Panicked`, which ends the run like the other errors.
- The text of the error messages and of the "Unparseable line name" warning is not modelled; errors are a datatype.
- The regex engine is not modelled. The name grammar and its leftmost-first priority are specified directly.
- Rust strings compare byte-wise in UTF-8. The model compares code points, which gives the same order.
- MapHook.TransportMapHook.Unmount: does not re-establish `Valid()`. An unmounted hook takes no further events, and `Valid()` ties the live map to the container prop, which the unmounted component still holds.
- LineOrder.Sort: `slice::sort` is stable, but the model proves only sorted and permutation. The relative order of lines that compare `Equal` (same number, ends and stops, different geometry) is not captured.
- The `HashMap` of stations is a map. Its serialisation order is not modelled.
