/** The capability surface of the map engine (a maplibre-gl `Map`) and of
    maplibre-gl's process-wide protocol table, reduced to the state the core
    reads and changes: named sources, the ordered layer list, the calls that
    replace source data or move the viewport, and the registered protocols. */
module Engine {
  import opened Wrappers
  import opened Geo

  /** A source of the engine's style: GeoJSON data the core can replace, or
      any other kind (the base map's vector tiles, say). */
  datatype Source = GeoJsonSource(data: FeatureCollection) | OtherSource(kind: string)

  datatype LayerKind = LineLayer | SymbolLayer

  /** A styled layer drawing one source; paint and layout are not modelled. */
  datatype Layer = Layer(id: string, kind: LayerKind, source: string)

  datatype Padding = Padding(top: int, bottom: int, left: int, right: int)

  /** The calls that change what the user sees after setup: a source's data
      replaced, the viewport fitted to an extent. */
  datatype Call = DataReplaced(source: string, data: FeatureCollection) | ViewportFitted(extent: Extent, padding: Padding)

  function LayerIds(layers: seq<Layer>): set<string> {
    set l | l in layers :: l.id
  }

  /** `addLayer`: a layer whose id is taken or whose source does not exist is
      reported as an error event and not added. */
  function WithLayer(layers: seq<Layer>, sources: map<string, Source>, layer: Layer): (r: seq<Layer>)
    ensures r == layers || r == layers + [layer]
    ensures r == layers + [layer] <==> layer.id !in LayerIds(layers) && layer.source in sources
  {
    if layer.id in LayerIds(layers) || layer.source !in sources then layers
    else
      assert layer in layers + [layer] && layer.id !in LayerIds(layers);
      layers + [layer]
  }

  /** maplibre-gl's table of URL protocols (`addProtocol`/`removeProtocol`),
      shared by every map of the process. */
  class Protocols {
    var registered: set<string>

    constructor (registered: set<string>)
      ensures this.registered == registered
    {
      this.registered := registered;
    }

    method Add(name: string)
      modifies this
      ensures registered == old(registered) + {name}
    {
      registered := registered + {name};
    }

    method Remove(name: string)
      modifies this
      ensures registered == old(registered) - {name}
    {
      registered := registered - {name};
    }
  }

  /** A map engine instance. */
  class MapEngine {
    /** Whether the "load" event has fired (the style is loaded). */
    var loaded: bool
    var sources: map<string, Source>
    var layers: seq<Layer>
    /** Number of controls added (the navigation control). */
    var controls: nat
    /** Every `setData` and `fitBounds` call, in order; the last
        `ViewportFitted` is the current viewport. */
    var calls: seq<Call>

    /** A new engine showing a style whose own sources are `styleSources`. */
    constructor (styleSources: map<string, Source>)
      ensures !loaded && sources == styleSources && layers == [] && controls == 0 && calls == []
    {
      loaded := false;
      sources := styleSources;
      layers := [];
      controls := 0;
      calls := [];
    }

    /** The "load" event: fired once, when the style is loaded. */
    method FireLoad()
      requires !loaded
      modifies this
      ensures loaded
      ensures sources == old(sources) && layers == old(layers) && controls == old(controls) && calls == old(calls)
    {
      loaded := true;
    }

    method AddControl()
      modifies this
      ensures controls == old(controls) + 1
      ensures loaded == old(loaded) && sources == old(sources) && layers == old(layers) && calls == old(calls)
    {
      controls := controls + 1;
    }

    /** `addSource`: throws (`ok` false) before the style is loaded or when the
      name is taken. */
    method AddSource(name: string, source: Source) returns (ok: bool)
      modifies this
      ensures ok == (old(loaded) && name !in old(sources))
      ensures sources == if ok then old(sources)[name := source] else old(sources)
      ensures loaded == old(loaded) && layers == old(layers) && controls == old(controls) && calls == old(calls)
    {
      ok := loaded && name !in sources;
      if ok {
        sources := sources[name := source];
      }
    }

    /** `addLayer` on a loaded style (before loading it throws; the core never
        calls it then). */
    method AddLayer(layer: Layer)
      requires loaded
      modifies this
      ensures layers == WithLayer(old(layers), old(sources), layer)
      ensures loaded == old(loaded) && sources == old(sources) && controls == old(controls) && calls == old(calls)
    {
      layers := WithLayer(layers, sources, layer);
    }

    /** `getSource`. */
    function GetSource(name: string): (r: Option<Source>)
      reads this
      ensures r.Some? <==> name in sources
      ensures r.Some? ==> r.value == sources[name]
    {
      if name in sources then Some(sources[name]) else None
    }

    /** `GeoJSONSource.setData` on the named source. */
    method SetData(name: string, data: FeatureCollection)
      requires name in sources && sources[name].GeoJsonSource?
      modifies this
      ensures sources == old(sources)[name := GeoJsonSource(data)]
      ensures calls == old(calls) + [DataReplaced(name, data)]
      ensures loaded == old(loaded) && layers == old(layers) && controls == old(controls)
    {
      sources := sources[name := GeoJsonSource(data)];
      calls := calls + [DataReplaced(name, data)];
    }

    /** `fitBounds`: throws (`ok` false) on turf's empty box, whose corners
        `[Infinity, Infinity]` and `[-Infinity, -Infinity]` are not valid
        coordinates; the viewport is then left where it was. */
    method FitBounds(extent: Extent, padding: Padding) returns (ok: bool)
      modifies this
      ensures ok == extent.Box?
      ensures calls == if ok then old(calls) + [ViewportFitted(extent, padding)] else old(calls)
      ensures loaded == old(loaded) && sources == old(sources) && layers == old(layers) && controls == old(controls)
    {
      ok := extent.Box?;
      if ok {
        calls := calls + [ViewportFitted(extent, padding)];
      }
    }
  }
}
