/** The class `TransportMap`: it owns one map engine, registers the "pmtiles"
    protocol for its lifetime, provisions the transport sources and layers,
    and highlights the selected line. */
module TransportMapSurface {
  import opened Wrappers
  import opened Geo
  import opened TransportData
  import opened Numerals
  import opened Aggregation
  import opened Engine

  const PMTILES := "pmtiles"
  const TRANSPORT := "transport"
  const SELECTED := "transport-selected"
  const STATIONS := "stations"
  const CENTROIDS := "station-centroids"
  const LABELS := "transport-station-labels"

  /** Room above the highlighted line for the selection box. */
  const SELECT_PADDING := Padding(100, 50, 50, 50)

  /** The four sources `addTransportLayers` adds, in the order it adds them. */
  function TransportSources(data: TransportData): seq<(string, Source)> {
    var values := StationValues(data.stations);
    GroupsNonEmpty(values);
    SourceList(LineFeatures(data.lines), StationFeatures(values), CentroidFeatures(values, GroupNames(values)))
  }

  /** The four sources, given the three collections built for them; the
      selected source starts empty. */
  function SourceList(lines: seq<Feature>, stations: seq<Feature>, centroids: seq<Feature>): seq<(string, Source)> {
    [ (TRANSPORT, GeoJsonSource(FeatureCollection(lines))),
      (SELECTED, GeoJsonSource(FeatureCollection([]))),
      (STATIONS, GeoJsonSource(FeatureCollection(stations))),
      (CENTROIDS, GeoJsonSource(FeatureCollection(centroids))) ]
  }

  /** The three layers it adds, in order: all lines, the highlight, the
      station labels. */
  function TransportLayers(): seq<Layer> {
    [Layer(TRANSPORT, LineLayer, TRANSPORT), Layer(SELECTED, LineLayer, SELECTED), Layer(LABELS, SymbolLayer, CENTROIDS)]
  }

  /** `addSource` applied to `adds` in order; the first one that throws stops
      the rest. The flag says whether all of them were added. */
  function ProvisionSources(loaded: bool, sources: map<string, Source>, adds: seq<(string, Source)>): (map<string, Source>, bool)
    decreases |adds|
  {
    if adds == [] then (sources, true)
    else if !loaded || adds[0].0 in sources then (sources, false)
    else ProvisionSources(loaded, sources[adds[0].0 := adds[0].1], adds[1..])
  }

  /** `addLayer` applied to `ls` in order. */
  function ProvisionLayers(layers: seq<Layer>, sources: map<string, Source>, ls: seq<Layer>): seq<Layer>
    decreases |ls|
  {
    if ls == [] then layers else ProvisionLayers(WithLayer(layers, sources, ls[0]), sources, ls[1..])
  }

  /** The lines whose key is `key`, in line order. */
  function Matching(lines: seq<TransportLine>, key: string): seq<TransportLine>
  {
    if lines == [] then []
    else
      var last := lines[|lines| - 1];
      Matching(lines[..|lines| - 1], key) + (if TransportLineId(last) == key then [last] else [])
  }

  /** The bounding box turf computes for a collection. */
  function CollectionBBox(features: seq<Feature>): Extent {
    BBox(CollectionPositions(features))
  }

  /** The engine calls made while highlighting lines `ms`: after each match,
      the selected source gets the matches so far and the viewport is fitted
      to their box. */
  function SelectCalls(ms: seq<TransportLine>): seq<Call> {
    if ms == [] then [] else SelectCalls(ms[..|ms| - 1]) + SelectStep(LineFeatures(ms))
  }

  /** The two calls made for one match, given the matches so far. */
  function SelectStep(features: seq<Feature>): seq<Call> {
    [DataReplaced(SELECTED, FeatureCollection(features)), ViewportFitted(CollectionBBox(features), SELECT_PADDING)]
  }

  predicate SelectedIsGeoJson(sources: map<string, Source>) {
    SELECTED in sources && sources[SELECTED].GeoJsonSource?
  }

  /** `setSelectedLine` throws when a line matches but the selected source is
      missing or not a GeoJSON source, or when the first match has no
      coordinate, so that turf's box of it is empty and `fitBounds` rejects
      it. */
  predicate SelectThrows(sources: map<string, Source>, key: string, lines: seq<TransportLine>) {
    var ms := Matching(lines, key);
    ms != [] && (!SelectedIsGeoJson(sources) || GeometryPositions(ms[0].geometry) == [])
  }

  /** The calls a throwing `setSelectedLine` made: with a usable selected
      source, the throw is `fitBounds` on the first match, after its
      `setData`. */
  function ThrownCalls(sources: map<string, Source>, key: string, lines: seq<TransportLine>): seq<Call> {
    var ms := Matching(lines, key);
    if ms != [] && SelectedIsGeoJson(sources) then [DataReplaced(SELECTED, FeatureCollection([LineFeature(ms[0])]))] else []
  }

  /** The sources a throwing `setSelectedLine` leaves: the first match's
      `setData` stays when the throw came from `fitBounds`. */
  function ThrownSources(sources: map<string, Source>, key: string, lines: seq<TransportLine>): map<string, Source> {
    var ms := Matching(lines, key);
    if ms != [] && SelectedIsGeoJson(sources) then sources[SELECTED := GeoJsonSource(FeatureCollection([LineFeature(ms[0])]))]
    else sources
  }

  /** The sources after `setSelectedLine` returns: the selected source holds
      exactly the matching lines, or is left alone when nothing matches. */
  function SelectedSources(sources: map<string, Source>, key: string, lines: seq<TransportLine>): map<string, Source> {
    var ms := Matching(lines, key);
    if ms == [] then sources else sources[SELECTED := GeoJsonSource(FeatureCollection(LineFeatures(ms)))]
  }

  /** The matches are exactly the lines whose key is `key`. */
  lemma {:induction false} MatchingMembers(lines: seq<TransportLine>, key: string)
    ensures |Matching(lines, key)| <= |lines|
    ensures forall l :: l in Matching(lines, key) <==> l in lines && TransportLineId(l) == key
  {
    if lines != [] {
      var init := lines[..|lines| - 1];
      MatchingMembers(init, key);
      assert lines == init + [lines[|lines| - 1]];
    }
  }

  /** One more line examined by the highlight loop. */
  lemma MatchingStep(lines: seq<TransportLine>, i: nat, key: string)
    requires i < |lines|
    ensures Matching(lines[..i + 1], key) ==
      Matching(lines[..i], key) + (if TransportLineId(lines[i]) == key then [lines[i]] else [])
  {
    assert lines[..i + 1][..i] == lines[..i];
  }

  lemma SelectCallsStep(ms: seq<TransportLine>, line: TransportLine)
    ensures SelectCalls(ms + [line]) == SelectCalls(ms) + SelectStep(LineFeatures(ms + [line]))
  {
    assert (ms + [line])[..|ms|] == ms;
  }

  lemma LineFeaturesStep(ms: seq<TransportLine>, line: TransportLine)
    ensures LineFeatures(ms + [line]) == LineFeatures(ms) + [LineFeature(line)]
  {
    assert (ms + [line])[..|ms|] == ms;
  }

  /** The state of the highlight loop after the first `i` lines, started from
      `sources0` and `calls0`: `features` are the matches so far, the
      selected source holds them once there is one, and each match has made
      its two calls. */
  ghost predicate Highlighted(sources0: map<string, Source>, calls0: seq<Call>, key: string, lines: seq<TransportLine>, i: nat,
                              features: seq<Feature>, sources: map<string, Source>, calls: seq<Call>)
    requires i <= |lines|
  {
    var ms := Matching(lines[..i], key);
    features == LineFeatures(ms) &&
    (ms != [] ==> SelectedIsGeoJson(sources0)) &&
    sources == (if ms == [] then sources0 else sources0[SELECTED := GeoJsonSource(FeatureCollection(features))]) &&
    calls == calls0 + SelectCalls(ms)
  }

  /** A line that does not match changes nothing. */
  lemma HighlightSkip(sources0: map<string, Source>, calls0: seq<Call>, key: string, lines: seq<TransportLine>, i: nat,
                      features: seq<Feature>, sources: map<string, Source>, calls: seq<Call>)
    requires i < |lines| && TransportLineId(lines[i]) != key
    requires Scanned(sources0, calls0, key, lines, i, features, sources, calls)
    ensures Scanned(sources0, calls0, key, lines, i + 1, features, sources, calls)
  {
    MatchingStep(lines, i, key);
    assert Matching(lines[..i], key) + [] == Matching(lines[..i], key);
  }

  /** A matching line, shown: the features grow by it, the selected source is
      replaced by them and the two calls are made. */
  lemma HighlightMatch(sources0: map<string, Source>, calls0: seq<Call>, key: string, lines: seq<TransportLine>, i: nat,
                       features: seq<Feature>, sources: map<string, Source>, calls: seq<Call>)
    requires i < |lines| && TransportLineId(lines[i]) == key
    requires Highlighted(sources0, calls0, key, lines, i, features, sources, calls)
    requires SelectedIsGeoJson(sources)
    ensures var shown := features + [LineFeature(lines[i])];
      Highlighted(sources0, calls0, key, lines, i + 1, shown,
                  sources[SELECTED := GeoJsonSource(FeatureCollection(shown))], calls + SelectStep(shown))
  {
    var ms := Matching(lines[..i], key);
    var shown := features + [LineFeature(lines[i])];
    MatchingStep(lines, i, key);
    LineFeaturesStep(ms, lines[i]);
    SelectCallsStep(ms, lines[i]);
    SelectedOverwritten(sources0, sources, ms == [], GeoJsonSource(FeatureCollection(features)), GeoJsonSource(FeatureCollection(shown)));
  }

  /** Setting the selected source twice keeps only the second value. */
  lemma SelectedOverwritten(sources0: map<string, Source>, sources: map<string, Source>, first: bool, before: Source, after: Source)
    requires sources == if first then sources0 else sources0[SELECTED := before]
    ensures sources[SELECTED := after] == sources0[SELECTED := after]
  {
  }

  /** The first match so far has a coordinate (or there is none yet): every
      `fitBounds` so far got a non-empty box. */
  predicate FirstHasCoordinates(ms: seq<TransportLine>) {
    ms != [] ==> GeometryPositions(ms[0].geometry) != []
  }

  /** The loop state after the first `i` lines when none of them threw. */
  ghost predicate Scanned(sources0: map<string, Source>, calls0: seq<Call>, key: string, lines: seq<TransportLine>, i: nat,
                          features: seq<Feature>, sources: map<string, Source>, calls: seq<Call>)
    requires i <= |lines|
  {
    Highlighted(sources0, calls0, key, lines, i, features, sources, calls) && FirstHasCoordinates(Matching(lines[..i], key))
  }

  /** One more line examined without a throw keeps the first match's
      coordinate. */
  lemma FirstMatchKept(key: string, lines: seq<TransportLine>, i: nat, features: seq<Feature>)
    requires i < |lines| && FirstHasCoordinates(Matching(lines[..i], key))
    requires features == LineFeatures(Matching(lines[..i], key))
    requires TransportLineId(lines[i]) == key ==> CollectionBBox(features + [LineFeature(lines[i])]).Box?
    ensures FirstHasCoordinates(Matching(lines[..i + 1], key))
  {
    var ms := Matching(lines[..i], key);
    MatchingStep(lines, i, key);
    if TransportLineId(lines[i]) == key {
      if ms == [] {
        SingleFeaturePositions(LineFeature(lines[i]));
        assert (ms + [lines[i]])[0] == lines[i];
      } else {
        assert (ms + [lines[i]])[0] == ms[0];
      }
    } else {
      assert ms + [] == ms;
    }
  }

  /** A matching line when the selected source is unusable: the whole call
      throws, and it did so before changing anything. */
  lemma HighlightThrow(sources0: map<string, Source>, calls0: seq<Call>, key: string, lines: seq<TransportLine>, i: nat,
                       features: seq<Feature>, sources: map<string, Source>, calls: seq<Call>)
    requires i < |lines| && TransportLineId(lines[i]) == key
    requires Highlighted(sources0, calls0, key, lines, i, features, sources, calls)
    requires !SelectedIsGeoJson(sources)
    ensures SelectThrows(sources0, key, lines)
    ensures sources == sources0 && calls == calls0
    ensures sources == ThrownSources(sources0, key, lines) && calls == calls0 + ThrownCalls(sources0, key, lines)
  {
    MatchingMembers(lines, key);
    assert lines[i] in lines;
  }

  /** A matching line whose box is empty once its data is set: `fitBounds`
      throws. Earlier matches would have made the box non-empty, so this is
      the first match, and the call throws right after its `setData`. */
  lemma HighlightRejected(sources0: map<string, Source>, calls0: seq<Call>, key: string, lines: seq<TransportLine>, i: nat,
                          features: seq<Feature>, sources: map<string, Source>, calls: seq<Call>)
    requires i < |lines| && TransportLineId(lines[i]) == key
    requires Highlighted(sources0, calls0, key, lines, i, features, sources, calls)
    requires FirstHasCoordinates(Matching(lines[..i], key))
    requires SelectedIsGeoJson(sources) && CollectionBBox(features + [LineFeature(lines[i])]).NoExtent?
    ensures SelectThrows(sources0, key, lines)
    ensures sources[SELECTED := GeoJsonSource(FeatureCollection(features + [LineFeature(lines[i])]))] ==
      ThrownSources(sources0, key, lines)
    ensures calls + [DataReplaced(SELECTED, FeatureCollection(features + [LineFeature(lines[i])]))] ==
      calls0 + ThrownCalls(sources0, key, lines)
  {
    RejectedIsFirst(key, lines, i, features);
    assert features == [] && sources == sources0 && calls == calls0;
    SingleFeaturePositions(LineFeature(lines[i]));
  }

  /** An empty box at a match means no earlier match: the line is the first
      match of all the lines, and it has no coordinate. */
  lemma RejectedIsFirst(key: string, lines: seq<TransportLine>, i: nat, features: seq<Feature>)
    requires i < |lines| && TransportLineId(lines[i]) == key
    requires FirstHasCoordinates(Matching(lines[..i], key))
    requires features == LineFeatures(Matching(lines[..i], key))
    requires CollectionBBox(features + [LineFeature(lines[i])]).NoExtent?
    ensures Matching(lines[..i], key) == [] && features == []
    ensures Matching(lines, key) != [] && Matching(lines, key)[0] == lines[i]
  {
    NoEarlierMatch(Matching(lines[..i], key), features, LineFeature(lines[i]));
    FirstOfAll(key, lines, i);
  }

  /** An empty box for the matches so far plus one more feature leaves no
      room for an earlier match with a coordinate. */
  lemma NoEarlierMatch(ms: seq<TransportLine>, features: seq<Feature>, f: Feature)
    requires FirstHasCoordinates(ms) && features == LineFeatures(ms)
    requires CollectionBBox(features + [f]).NoExtent?
    ensures ms == []
  {
    var shown := features + [f];
    assert shown[..|shown| - 1] == features;
    assert ms[..|ms|] == ms;
    if ms != [] {
      FirstFitDecides(ms, |ms|);
      assert false;
    }
  }

  /** A match after no earlier match is the first match of all the lines. */
  lemma FirstOfAll(key: string, lines: seq<TransportLine>, i: nat)
    requires i < |lines| && TransportLineId(lines[i]) == key && Matching(lines[..i], key) == []
    ensures Matching(lines, key) != [] && Matching(lines, key)[0] == lines[i]
  {
    MatchingStep(lines, i, key);
    MatchingAppend(lines[..i + 1], lines[i + 1..], key);
    assert lines[..i + 1] + lines[i + 1..] == lines;
  }

  /** The collection of one feature has that feature's coordinates. */
  lemma SingleFeaturePositions(f: Feature)
    ensures CollectionPositions([f]) == GeometryPositions(f.geometry)
  {
    assert [f][..0] == [];
  }

  /** Once the first match has a coordinate, so does every collection of
      the matches so far. */
  lemma {:induction false} FirstFitDecides(ms: seq<TransportLine>, k: nat)
    requires 0 < k <= |ms| && GeometryPositions(ms[0].geometry) != []
    ensures CollectionPositions(LineFeatures(ms[..k])) != []
  {
    var fs := LineFeatures(ms[..k]);
    assert fs[..|fs| - 1] == LineFeatures(ms[..k - 1]) by {
      assert ms[..k][..k - 1] == ms[..k - 1];
    }
    if k == 1 {
      assert fs[..|fs| - 1] == [];
      assert fs[0] == LineFeature(ms[0]);
    } else {
      FirstFitDecides(ms, k - 1);
    }
  }

  /** `fitBounds` can reject the box of the matches so far only at the first
      match: once that has a coordinate, every later box has one too. */
  lemma FitRejectsOnlyFirst(ms: seq<TransportLine>, j: nat)
    requires j < |ms|
    ensures CollectionBBox(LineFeatures(ms[..j + 1])).NoExtent? ==> CollectionBBox(LineFeatures(ms[..1])).NoExtent?
  {
    BBoxBounds(CollectionPositions(LineFeatures(ms[..j + 1])));
    BBoxBounds(CollectionPositions(LineFeatures(ms[..1])));
    if GeometryPositions(ms[0].geometry) != [] {
      FirstFitDecides(ms, j + 1);
    } else {
      assert LineFeatures(ms[..1]) == [LineFeature(ms[0])];
      SingleFeaturePositions(LineFeature(ms[0]));
    }
  }

  /** Matching distributes over concatenation. */
  lemma {:induction false} MatchingAppend(a: seq<TransportLine>, b: seq<TransportLine>, key: string)
    ensures Matching(a + b, key) == Matching(a, key) + Matching(b, key)
  {
    if b == [] {
      assert a + b == a;
    } else {
      var init := b[..|b| - 1];
      assert (a + b)[..|a + b| - 1] == a + init;
      MatchingAppend(a, init, key);
    }
  }

  /** A matching line, after the selected source was looked up, its data
      set and the viewport fitted as far as each went (`ok` says whether
      nothing threw): either the loop goes on from the new state, or the
      whole call throws with the state a throw leaves. */
  lemma MatchExamined(sources0: map<string, Source>, calls0: seq<Call>, key: string, lines: seq<TransportLine>, i: nat,
                      features: seq<Feature>, sources: map<string, Source>, calls: seq<Call>,
                      ok: bool, sources': map<string, Source>, calls': seq<Call>)
    requires i < |lines| && TransportLineId(lines[i]) == key
    requires Scanned(sources0, calls0, key, lines, i, features, sources, calls)
    requires var shown := features + [LineFeature(lines[i])];
      && ok == (SelectedIsGeoJson(sources) && CollectionBBox(shown).Box?)
      && (SelectedIsGeoJson(sources) ==> sources' == sources[SELECTED := GeoJsonSource(FeatureCollection(shown))])
      && (ok ==> calls' == calls + SelectStep(shown))
      && (SelectedIsGeoJson(sources) && !ok ==> calls' == calls + [DataReplaced(SELECTED, FeatureCollection(shown))])
      && (!SelectedIsGeoJson(sources) ==> sources' == sources && calls' == calls)
    ensures ok ==> Scanned(sources0, calls0, key, lines, i + 1, features + [LineFeature(lines[i])], sources', calls')
    ensures !ok ==> SelectThrows(sources0, key, lines)
    ensures !ok ==> sources' == ThrownSources(sources0, key, lines) && calls' == calls0 + ThrownCalls(sources0, key, lines)
  {
    if !ok {
      if SelectedIsGeoJson(sources) {
        HighlightRejected(sources0, calls0, key, lines, i, features, sources, calls);
      } else {
        HighlightThrow(sources0, calls0, key, lines, i, features, sources, calls);
      }
    } else {
      FirstMatchKept(key, lines, i, features);
      HighlightMatch(sources0, calls0, key, lines, i, features, sources, calls);
    }
  }

  /** Having looked at every line, the loop's state is the one
      `setSelectedLine` promises. */
  lemma HighlightDone(sources0: map<string, Source>, calls0: seq<Call>, key: string, lines: seq<TransportLine>,
                      features: seq<Feature>, sources: map<string, Source>, calls: seq<Call>)
    requires Scanned(sources0, calls0, key, lines, |lines|, features, sources, calls)
    ensures !SelectThrows(sources0, key, lines)
    ensures sources == SelectedSources(sources0, key, lines)
    ensures calls == calls0 + SelectCalls(Matching(lines, key))
  {
    assert lines[..|lines|] == lines;
  }

  /** On a loaded engine that has none of the four names yet, all four
      sources are added, each with its collection, and nothing else changes. */
  lemma ProvisionFresh(sources: map<string, Source>, data: TransportData)
    requires TRANSPORT !in sources && SELECTED !in sources && STATIONS !in sources && CENTROIDS !in sources
    ensures var (after, ok) := ProvisionSources(true, sources, TransportSources(data));
      && ok
      && after.Keys == sources.Keys + {TRANSPORT, SELECTED, STATIONS, CENTROIDS}
      && (forall n :: n in sources ==> after[n] == sources[n])
      && after[TRANSPORT] == GeoJsonSource(FeatureCollection(LineFeatures(data.lines)))
      && after[SELECTED] == GeoJsonSource(FeatureCollection([]))
      && after[STATIONS] == GeoJsonSource(FeatureCollection(StationFeatures(StationValues(data.stations))))
      && (GroupsNonEmpty(StationValues(data.stations));
          after[CENTROIDS] == GeoJsonSource(FeatureCollection(
            CentroidFeatures(StationValues(data.stations), GroupNames(StationValues(data.stations))))))
  {
    var adds := TransportSources(data);
    var s1 := sources[TRANSPORT := adds[0].1];
    var s2 := s1[SELECTED := adds[1].1];
    var s3 := s2[STATIONS := adds[2].1];
    var s4 := s3[CENTROIDS := adds[3].1];
    assert ProvisionSources(true, sources, adds) == ProvisionSources(true, s1, adds[1..]);
    assert ProvisionSources(true, s1, adds[1..]) == ProvisionSources(true, s2, adds[2..]) by {
      assert adds[1..][1..] == adds[2..];
    }
    assert ProvisionSources(true, s2, adds[2..]) == ProvisionSources(true, s3, adds[3..]) by {
      assert adds[2..][1..] == adds[3..];
    }
    assert ProvisionSources(true, s3, adds[3..]) == ProvisionSources(true, s4, adds[3..][1..]);
    assert adds[3..][1..] == [];
  }

  /** Before the style has loaded, or once the engine already has a
      "transport" source (a second run on the same engine), the first
      `addSource` throws and nothing is added. */
  lemma ProvisionRefused(loaded: bool, sources: map<string, Source>, data: TransportData)
    requires !loaded || TRANSPORT in sources
    ensures ProvisionSources(loaded, sources, TransportSources(data)) == (sources, false)
  {
  }

  /** On an engine with no layers and all the sources, the three layers are
      added in order, each drawing a source that exists. */
  lemma LayersInOrder(sources: map<string, Source>)
    requires TRANSPORT in sources && SELECTED in sources && CENTROIDS in sources
    ensures ProvisionLayers([], sources, TransportLayers()) == TransportLayers()
    ensures forall l :: l in TransportLayers() ==> l.source in sources
  {
    var ls := TransportLayers();
    assert ls[1..][1..][1..] == [];
    assert LayerIds([ls[0]]) == {TRANSPORT};
    assert LayerIds([ls[0], ls[1]]) == {TRANSPORT, SELECTED};
    assert WithLayer([], sources, ls[0]) == [ls[0]];
    assert WithLayer([ls[0]], sources, ls[1]) == [ls[0], ls[1]];
    assert WithLayer([ls[0], ls[1]], sources, ls[2]) == ls;
  }

  lemma PrefixOfPrefix<T>(s: seq<T>, n: nat, k: nat)
    requires k <= n <= |s|
    ensures s[..n][..k] == s[..k]
    ensures s[..|s|] == s
  {
  }

  lemma {:induction false} SelectCallsLength(ms: seq<TransportLine>)
    ensures |SelectCalls(ms)| == 2 * |ms|
  {
    if ms != [] {
      SelectCallsLength(ms[..|ms| - 1]);
    }
  }

  /** The two calls made for the `j`-th match are the ones made for the first
      `j + 1` matches. */
  lemma {:induction false} SelectCallsPrefix(ms: seq<TransportLine>, j: nat)
    requires j < |ms|
    ensures |SelectCalls(ms)| == 2 * |ms|
    ensures SelectCalls(ms)[2 * j] == SelectStep(LineFeatures(ms[..j + 1]))[0]
    ensures SelectCalls(ms)[2 * j + 1] == SelectStep(LineFeatures(ms[..j + 1]))[1]
    decreases |ms|, 1
  {
    if j + 1 < |ms| {
      SelectCallsEarlier(ms, j);
    } else {
      SelectCallsLast(ms);
      assert ms[..j + 1] == ms;
    }
  }

  lemma {:induction false} SelectCallsEarlier(ms: seq<TransportLine>, j: nat)
    requires j + 1 < |ms|
    ensures |SelectCalls(ms)| == 2 * |ms|
    ensures SelectCalls(ms)[2 * j] == SelectStep(LineFeatures(ms[..j + 1]))[0]
    ensures SelectCalls(ms)[2 * j + 1] == SelectStep(LineFeatures(ms[..j + 1]))[1]
    decreases |ms|, 0
  {
    var init := ms[..|ms| - 1];
    PrefixOfPrefix(ms, |ms| - 1, j + 1);
    SelectCallsKept(ms, j);
    SelectCallsPrefix(init, j);
  }

  /** A further match leaves the calls made for the earlier ones. */
  lemma SelectCallsKept(ms: seq<TransportLine>, j: nat)
    requires j + 1 < |ms|
    ensures |SelectCalls(ms)| == 2 * |ms|
    ensures SelectCalls(ms)[2 * j] == SelectCalls(ms[..|ms| - 1])[2 * j]
    ensures SelectCalls(ms)[2 * j + 1] == SelectCalls(ms[..|ms| - 1])[2 * j + 1]
  {
    SelectCallsLength(ms);
    SelectCallsLength(ms[..|ms| - 1]);
  }

  lemma SelectCallsLast(ms: seq<TransportLine>)
    requires ms != []
    ensures |SelectCalls(ms)| == 2 * |ms|
    ensures SelectCalls(ms)[2 * (|ms| - 1)] == SelectStep(LineFeatures(ms))[0]
    ensures SelectCalls(ms)[2 * (|ms| - 1) + 1] == SelectStep(LineFeatures(ms))[1]
  {
    SelectCallsLength(ms);
    SelectCallsLength(ms[..|ms| - 1]);
  }

  /** The two calls made for the `j`-th match, which see the first `j + 1`
      matches: the selected source gets their features, then the viewport is
      fitted to their box with the selection padding. */
  lemma SelectCallsAt(ms: seq<TransportLine>, j: nat)
    requires j < |ms|
    ensures |SelectCalls(ms)| == 2 * |ms|
    ensures SelectCalls(ms)[2 * j] == DataReplaced(SELECTED, FeatureCollection(LineFeatures(ms[..j + 1])))
    ensures SelectCalls(ms)[2 * j + 1] == ViewportFitted(CollectionBBox(LineFeatures(ms[..j + 1])), SELECT_PADDING)
  {
    SelectCallsPrefix(ms, j);
  }

  /** The calls made for `k` matches: two per match, in match order. */
  lemma SelectCallsShape(ms: seq<TransportLine>)
    ensures |SelectCalls(ms)| == 2 * |ms|
    ensures forall j :: 0 <= j < |ms| ==>
      && SelectCalls(ms)[2 * j] == DataReplaced(SELECTED, FeatureCollection(LineFeatures(ms[..j + 1])))
      && SelectCalls(ms)[2 * j + 1] == ViewportFitted(CollectionBBox(LineFeatures(ms[..j + 1])), SELECT_PADDING)
  {
    SelectCallsLength(ms);
    forall j | 0 <= j < |ms|
      ensures SelectCalls(ms)[2 * j] == DataReplaced(SELECTED, FeatureCollection(LineFeatures(ms[..j + 1])))
      ensures SelectCalls(ms)[2 * j + 1] == ViewportFitted(CollectionBBox(LineFeatures(ms[..j + 1])), SELECT_PADDING)
    {
      SelectCallsAt(ms, j);
    }
  }

  /** `fitBounds` runs once per match, always with the selection padding,
      each time right after the selected source got the matches so far. */
  lemma FitPerMatch(ms: seq<TransportLine>)
    ensures |SelectCalls(ms)| == 2 * |ms|
    ensures forall j :: 0 <= j < |ms| ==>
      SelectCalls(ms)[2 * j].DataReplaced? && SelectCalls(ms)[2 * j].source == SELECTED &&
      SelectCalls(ms)[2 * j + 1].ViewportFitted? && SelectCalls(ms)[2 * j + 1].padding == SELECT_PADDING
  {
    SelectCallsShape(ms);
  }

  /** The last call made when something matches fits the viewport to the box
      of all the matching lines. */
  lemma LastFitCoversAll(lines: seq<TransportLine>, key: string)
    requires Matching(lines, key) != []
    ensures var ms := Matching(lines, key);
      SelectCalls(ms)[|SelectCalls(ms)| - 1] == ViewportFitted(CollectionBBox(LineFeatures(ms)), SELECT_PADDING)
  {
    var ms := Matching(lines, key);
    SelectCallsAt(ms, |ms| - 1);
    assert ms[..|ms| - 1 + 1] == ms;
  }

  /** After a successful call the selected source holds exactly the
      geometries of the matching lines, in line order, with no properties. */
  lemma SelectedHoldsMatches(sources: map<string, Source>, key: string, lines: seq<TransportLine>)
    requires Matching(lines, key) != []
    ensures var fs := SelectedSources(sources, key, lines)[SELECTED].data.features;
      var ms := Matching(lines, key);
      && |fs| == |ms|
      && (forall i :: 0 <= i < |ms| ==> fs[i] == Feature(ms[i].geometry, map[]) && TransportLineId(ms[i]) == key)
  {
    MatchingMembers(lines, key);
  }

  /** With no match nothing is looked up, replaced or fitted, nothing throws,
      and the previous highlight stays. */
  lemma NoMatchKeepsHighlight(sources: map<string, Source>, key: string, lines: seq<TransportLine>)
    requires forall i :: 0 <= i < |lines| ==> TransportLineId(lines[i]) != key
    ensures !SelectThrows(sources, key, lines)
    ensures SelectedSources(sources, key, lines) == sources
    ensures SelectCalls(Matching(lines, key)) == []
  {
    MatchingMembers(lines, key);
    if Matching(lines, key) != [] {
      // A match would be a line whose key is `key`, which the requires rules out.
      assert false;
    }
  }

  /** Calling `setSelectedLine` twice with the same key and data leaves the
      same sources as calling it once, and the second call does not throw if
      the first did not. */
  lemma SelectTwice(sources: map<string, Source>, key: string, lines: seq<TransportLine>)
    requires !SelectThrows(sources, key, lines)
    ensures !SelectThrows(SelectedSources(sources, key, lines), key, lines)
    ensures SelectedSources(SelectedSources(sources, key, lines), key, lines) == SelectedSources(sources, key, lines)
  {
  }

  /** With lines 1 A→B and 2 C→D, the key "1AB" picks the first line only. */
  lemma SelectExample()
    ensures var a, b := TransportLine(1, "A", "B", MultiLineString([]), []), TransportLine(2, "C", "D", MultiLineString([]), []);
      Matching([a, b], "1AB") == [a]
  {
    var a, b := TransportLine(1, "A", "B", MultiLineString([]), []), TransportLine(2, "C", "D", MultiLineString([]), []);
    assert Decimal(1) == "1" && Decimal(2) == "2";
    assert TransportLineId(a) == "1AB";
    assert TransportLineId(b) == "2CD";
    assert Matching([a, b], "1AB") == Matching([a], "1AB");
    assert [a, b][..1] == [a] && [a][..0] == [];
  }

  /** Lines 1 A→B and 2 C→D carry no coordinate: selecting "1AB" puts line 1
      in the selected source, then `fitBounds` rejects the empty box and the
      call throws without moving the viewport. */
  lemma EmptyRouteExample()
    ensures var a, b := TransportLine(1, "A", "B", MultiLineString([]), []), TransportLine(2, "C", "D", MultiLineString([]), []);
      var sources := map[SELECTED := GeoJsonSource(FeatureCollection([]))];
      var shown := FeatureCollection([Feature(MultiLineString([]), map[])]);
      && SelectThrows(sources, "1AB", [a, b])
      && ThrownSources(sources, "1AB", [a, b]) == map[SELECTED := GeoJsonSource(shown)]
      && ThrownCalls(sources, "1AB", [a, b]) == [DataReplaced(SELECTED, shown)]
  {
    SelectExample();
    assert GeometryPositions(MultiLineString([])) == [];
  }

  class TransportMap {
    const engine: MapEngine
    const protocols: Protocols

    /** Creates the engine, then registers the "pmtiles" protocol; the load
        handler is `Load`. */
    constructor (protocols: Protocols, styleSources: map<string, Source>)
      modifies protocols
      ensures this.protocols == protocols && fresh(engine)
      ensures !engine.loaded && engine.sources == styleSources && engine.layers == [] && engine.calls == [] && engine.controls == 0
      ensures protocols.registered == old(protocols.registered) + {PMTILES}
    {
      engine := new MapEngine(styleSources);
      this.protocols := protocols;
      new;
      protocols.Add(PMTILES);
    }

    /** The engine's "load" event and the handler installed for it: the
        navigation control is added. The `onLoad` callback it then makes is
        the caller's business (see `MapHook`). */
    method Load()
      requires !engine.loaded
      modifies engine
      ensures engine.loaded && engine.controls == old(engine.controls) + 1
      ensures engine.sources == old(engine.sources) && engine.layers == old(engine.layers) && engine.calls == old(engine.calls)
    {
      engine.FireLoad();
      engine.AddControl();
    }

    /** `setSelectedLine`; `ok` is false when it throws. */
    method SetSelectedLine(key: string, data: TransportData) returns (ok: bool)
      modifies engine
      ensures ok == !SelectThrows(old(engine.sources), key, data.lines)
      ensures ok ==> engine.sources == SelectedSources(old(engine.sources), key, data.lines)
      ensures ok ==> engine.calls == old(engine.calls) + SelectCalls(Matching(data.lines, key))
      ensures !ok ==> engine.sources == ThrownSources(old(engine.sources), key, data.lines)
      ensures !ok ==> engine.calls == old(engine.calls) + ThrownCalls(old(engine.sources), key, data.lines)
      ensures engine.loaded == old(engine.loaded) && engine.layers == old(engine.layers) && engine.controls == old(engine.controls)
    {
      var lines := data.lines;
      ghost var sources0 := engine.sources;
      ghost var calls0 := engine.calls;
      var features: seq<Feature> := [];
      var i := 0;
      while i < |lines|
        invariant 0 <= i <= |lines|
        invariant Scanned(sources0, calls0, key, lines, i, features, engine.sources, engine.calls)
        invariant engine.loaded == old(engine.loaded) && engine.layers == old(engine.layers) && engine.controls == old(engine.controls)
      {
        var line := lines[i];
        if TransportLineId(line) == key {
          var shown := features + [LineFeature(line)];
          ghost var sources, calls := engine.sources, engine.calls;
          var ok := ShowMatches(shown);
          MatchExamined(sources0, calls0, key, lines, i, features, sources, calls, ok, engine.sources, engine.calls);
          if !ok {
            return false;
          }
          features := shown;
        } else {
          HighlightSkip(sources0, calls0, key, lines, i, features, engine.sources, engine.calls);
        }
        i := i + 1;
      }
      HighlightDone(sources0, calls0, key, lines, features, engine.sources, engine.calls);
      return true;
    }

    /** The body of the highlight loop for a matching line: look the selected
        source up, throw if it is missing or not GeoJSON, else replace its
        data with the matches so far and fit the viewport to their box, which
        throws when the box is empty. */
    method ShowMatches(features: seq<Feature>) returns (ok: bool)
      modifies engine
      ensures ok == (SelectedIsGeoJson(old(engine.sources)) && CollectionBBox(features).Box?)
      ensures SelectedIsGeoJson(old(engine.sources)) ==>
        engine.sources == old(engine.sources)[SELECTED := GeoJsonSource(FeatureCollection(features))]
      ensures ok ==> engine.calls == old(engine.calls) + SelectStep(features)
      ensures SelectedIsGeoJson(old(engine.sources)) && !ok ==>
        engine.calls == old(engine.calls) + [DataReplaced(SELECTED, FeatureCollection(features))]
      ensures !SelectedIsGeoJson(old(engine.sources)) ==> engine.sources == old(engine.sources) && engine.calls == old(engine.calls)
      ensures engine.loaded == old(engine.loaded) && engine.layers == old(engine.layers) && engine.controls == old(engine.controls)
    {
      var source := engine.GetSource(SELECTED);
      if !(source.Some? && source.value.GeoJsonSource?) {
        return false;
      }
      engine.SetData(SELECTED, FeatureCollection(features));
      ok := engine.FitBounds(CollectionBBox(features), SELECT_PADDING);
    }

    /** `addTransportLayers`: builds the line, station and centroid
        collections, then adds the four sources and the three layers. `ok` is
        false when an `addSource` throws. */
    method AddTransportLayers(data: TransportData) returns (ok: bool)
      modifies engine
      ensures (engine.sources, ok) == ProvisionSources(old(engine.loaded), old(engine.sources), TransportSources(data))
      ensures engine.layers == if ok then ProvisionLayers(old(engine.layers), engine.sources, TransportLayers()) else old(engine.layers)
      ensures engine.loaded == old(engine.loaded) && engine.calls == old(engine.calls) && engine.controls == old(engine.controls)
    {
      var linesCollection := CollectLines(data.lines);
      var values := StationValues(data.stations);
      var stationsCollection, names, stationPositions := CollectStations(values);
      GroupsNonEmpty(values);
      var centroidsCollection := CollectCentroids(values, names, stationPositions);

      ok := AddSources(linesCollection, stationsCollection, centroidsCollection);
      if ok {
        AddLayers();
      }
    }

    /** The four `addSource` calls; the first that throws ends the method. */
    method AddSources(lines: seq<Feature>, stations: seq<Feature>, centroids: seq<Feature>) returns (ok: bool)
      modifies engine
      ensures (engine.sources, ok) == ProvisionSources(old(engine.loaded), old(engine.sources), SourceList(lines, stations, centroids))
      ensures engine.layers == old(engine.layers)
      ensures engine.loaded == old(engine.loaded) && engine.calls == old(engine.calls) && engine.controls == old(engine.controls)
    {
      ghost var loaded := engine.loaded;
      ghost var adds := SourceList(lines, stations, centroids);
      ghost var goal := ProvisionSources(loaded, engine.sources, adds);
      ok := engine.AddSource(TRANSPORT, GeoJsonSource(FeatureCollection(lines)));
      if !ok {
        return;
      }
      assert goal == ProvisionSources(loaded, engine.sources, adds[1..]);
      ghost var before := engine.sources;
      ok := engine.AddSource(SELECTED, GeoJsonSource(FeatureCollection([])));
      if !ok {
        assert goal == (before, false);
        return;
      }
      assert goal == ProvisionSources(loaded, engine.sources, adds[2..]) by {
        assert adds[1..][1..] == adds[2..];
      }
      before := engine.sources;
      ok := engine.AddSource(STATIONS, GeoJsonSource(FeatureCollection(stations)));
      if !ok {
        assert goal == (before, false);
        return;
      }
      assert goal == ProvisionSources(loaded, engine.sources, adds[3..]) by {
        assert adds[2..][1..] == adds[3..];
      }
      before := engine.sources;
      ok := engine.AddSource(CENTROIDS, GeoJsonSource(FeatureCollection(centroids)));
      if !ok {
        assert goal == (before, false);
        return;
      }
      assert goal == ProvisionSources(loaded, engine.sources, adds[3..][1..]);
      assert adds[3..][1..] == [];
    }

    /** The three `addLayer` calls. */
    method AddLayers()
      requires engine.loaded
      modifies engine
      ensures engine.layers == ProvisionLayers(old(engine.layers), engine.sources, TransportLayers())
      ensures engine.sources == old(engine.sources)
      ensures engine.loaded == old(engine.loaded) && engine.calls == old(engine.calls) && engine.controls == old(engine.controls)
    {
      engine.AddLayer(Layer(TRANSPORT, LineLayer, TRANSPORT));
      engine.AddLayer(Layer(SELECTED, LineLayer, SELECTED));
      engine.AddLayer(Layer(LABELS, SymbolLayer, CENTROIDS));
      assert TransportLayers()[1..][1..][1..] == [];
    }

    /** The loop that fills the lines collection. */
    static method CollectLines(lines: seq<TransportLine>) returns (fs: seq<Feature>)
      ensures fs == LineFeatures(lines)
    {
      fs := [];
      for i := 0 to |lines|
        invariant fs == LineFeatures(lines[..i])
      {
        assert lines[..i + 1][..i] == lines[..i];
        fs := fs + [Feature(lines[i].geometry, map[])];
      }
      assert lines[..|lines|] == lines;
    }

    /** The loop over the stations: it fills the stations collection and the
        `Map<string, Position[]>` from name to positions, given here as its
        keys in insertion order and its entries. */
    static method CollectStations(values: seq<Station>) returns (fs: seq<Feature>, names: seq<string>, positions: map<string, seq<Position>>)
      ensures fs == StationFeatures(values)
      ensures names == GroupNames(values)
      ensures forall n :: n in positions <==> n in names
      ensures forall n :: n in positions ==> positions[n] == GroupPositions(values, n)
    {
      fs, names, positions := [], [], map[];
      for i := 0 to |values|
        invariant fs == StationFeatures(values[..i])
        invariant names == GroupNames(values[..i])
        invariant forall n :: n in positions <==> n in names
        invariant forall n :: n in positions ==> positions[n] == GroupPositions(values[..i], n)
      {
        var station := values[i];
        assert values[..i + 1][..i] == values[..i];
        fs := fs + [Feature(Point(station.position), map["name" := station.name])];
        var group := if station.name in positions then positions[station.name] else [];
        if station.name !in positions {
          GroupNonEmpty(values[..i], station.name);
        }
        group := group + [station.position];
        if station.name !in positions {
          names := names + [station.name];
        }
        positions := positions[station.name := group];
      }
      assert values[..|values|] == values;
    }

    /** The loop over the map's entries: one centroid feature per name. */
    static method CollectCentroids(values: seq<Station>, names: seq<string>, positions: map<string, seq<Position>>) returns (fs: seq<Feature>)
      requires forall n :: n in names ==> n in positions && positions[n] == GroupPositions(values, n)
      requires forall n :: n in names ==> positions[n] != []
      ensures fs == CentroidFeatures(values, names)
    {
      fs := [];
      for k := 0 to |names|
        invariant fs == CentroidFeatures(values, names[..k])
      {
        var name := names[k];
        assert names[..k + 1][..k] == names[..k];
        fs := fs + [Feature(Point(Centroid(positions[name])), map["name" := name])];
      }
      assert names[..|names|] == names;
    }

    /** `destruct`: removes the "pmtiles" protocol. */
    method Destruct()
      modifies protocols
      ensures protocols.registered == old(protocols.registered) - {PMTILES}
    {
      protocols.Remove(PMTILES);
    }
  }
}
