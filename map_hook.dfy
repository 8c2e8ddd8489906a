/** The hook `useTransportMap` as an event-driven state machine. Its state is
    the two `useState` cells (`map`, `layersAdded`), the props it was last
    rendered with, and the `TransportMap` whose cleanup the init effect still
    owes. Each event is one change of a prop (or the engine's load callback)
    followed by the commit, in which the effects whose dependencies changed run
    in declaration order; the extra render that `setLayersAdded(true)` causes
    is folded into the same event. */
module MapHook {
  import opened Wrappers
  import opened TransportData
  import opened Engine
  import opened TransportMapSurface

  /** What the effects did to a `TransportMap`, and whether the call returned
      (`ok`) or threw. */
  datatype Action =
    | Provided(target: TransportMap, data: TransportData, ok: bool)
    | Highlighted(target: TransportMap, key: string, data: TransportData, ok: bool)

  /** JavaScript truthiness of `null | string`: the empty string is falsy. */
  predicate Truthy(selection: Option<string>) {
    selection.Some? && selection.value != ""
  }

  function Engines(maps: set<TransportMap>): set<MapEngine> {
    set t | t in maps :: t.engine
  }

  /** The part of an engine the data effects change: its sources, its layers
      and its log of `setData`/`fitBounds` calls. */
  datatype View = View(sources: map<string, Source>, layers: seq<Layer>, calls: seq<Call>)

  function Snapshot(e: MapEngine): View
    reads e
  {
    View(e.sources, e.layers, e.calls)
  }

  /** What the layer effect's `addTransportLayers` leaves in an engine that
      showed `v`, and whether it returned. */
  function AfterLayerEffect(loaded: bool, v: View, data: TransportData): (View, bool) {
    var (sources, ok) := ProvisionSources(loaded, v.sources, TransportSources(data));
    (View(sources, if ok then ProvisionLayers(v.layers, sources, TransportLayers()) else v.layers, v.calls), ok)
  }

  /** What the highlight effect's `setSelectedLine(key)` leaves in an engine
      that showed `v`, and whether it returned; a throw leaves what the calls
      before it did. */
  function AfterHighlightEffect(v: View, key: string, lines: seq<TransportLine>): (View, bool) {
    if SelectThrows(v.sources, key, lines) then
      (View(ThrownSources(v.sources, key, lines), v.layers, v.calls + ThrownCalls(v.sources, key, lines)), false)
    else (View(SelectedSources(v.sources, key, lines), v.layers, v.calls + SelectCalls(Matching(lines, key))), true)
  }

  class TransportMapHook {
    /** The props: the container element (by identity), the data, the
        selection. */
    var container: Option<nat>
    var transportData: Option<TransportData>
    var selectedLine: Option<string>
    /** `useState<null | TransportMap>` and `useState<boolean>`. */
    var loadedMap: TransportMap?
    var layersAdded: bool
    /** The map made by the init effect whose cleanup has not run yet. */
    var live: TransportMap?
    /** An effect threw: the error reached the root, which unmounted the tree
        and ran the pending cleanups. */
    var failed: bool
    const protocols: Protocols
    /** The sources of the base style every new engine starts with. */
    const styleSources: map<string, Source>
    /** Every map the hook has made. */
    ghost var created: set<TransportMap>
    /** The effects' calls into the maps, in order. */
    ghost var trace: seq<Action>

    ghost predicate Valid()
      reads this, protocols, Engines(created)
    {
      && (forall t :: t in created ==> t.protocols == protocols)
      && (forall t1, t2 :: t1 in created && t2 in created && t1 != t2 ==> t1.engine != t2.engine)
      && (live != null ==> live in created)
      && (loadedMap != null ==> loadedMap in created && loadedMap.engine.loaded)
      && (PMTILES in protocols.registered <==> live != null)
      && (!failed ==> (live != null <==> container.Some?))
      && (failed ==> live == null)
    }

    /** The first render: all props null, so no effect does anything. The
        "pmtiles" protocol must not be registered yet. */
    constructor (protocols: Protocols, styleSources: map<string, Source>)
      requires PMTILES !in protocols.registered
      ensures Valid() && fresh(this)
      ensures container.None? && transportData.None? && selectedLine.None?
      ensures loadedMap == null && !layersAdded && live == null && !failed && trace == [] && created == {}
      ensures this.protocols == protocols && this.styleSources == styleSources
    {
      container, transportData, selectedLine := None, None, None;
      loadedMap, layersAdded, live, failed := null, false, null, false;
      this.protocols := protocols;
      this.styleSources := styleSources;
      created, trace := {}, [];
    }

    /** The container prop changes: the init effect's cleanup destructs the
        previous map, then a new map is made if there is a container. The
        `map` state is left alone; the old map stays there until a new one
        loads. */
    method SetContainer(c: Option<nat>)
      requires Valid() && !failed && c != container
      modifies this, protocols
      ensures Valid()
      ensures container == c && !failed
      ensures c.None? ==> live == null && created == old(created)
      ensures c.Some? ==> live != null && fresh(live) && created == old(created) + {live}
      ensures c.Some? ==> !live.engine.loaded && live.engine.sources == styleSources && live.engine.layers == []
      ensures PMTILES in protocols.registered <==> c.Some?
      ensures loadedMap == old(loadedMap) && layersAdded == old(layersAdded) && trace == old(trace)
      ensures transportData == old(transportData) && selectedLine == old(selectedLine)
    {
      container := c;
      if live != null {
        live.Destruct();
        live := null;
      }
      if c.Some? {
        var t := new TransportMap(protocols, styleSources);
        live := t;
        created := created + {t};
      }
    }

    /** The engine of `t` fires "load": the navigation control is added and
        `setMap(t)` runs. `map` changed, so the layer effect and then the
        highlight effect run. */
    method EngineLoad(t: TransportMap)
      requires Valid() && !failed && t in created && !t.engine.loaded
      modifies this, protocols, t.engine
      ensures Valid()
      ensures loadedMap == t && t.engine.loaded && t.engine.controls == old(t.engine.controls) + 1
      ensures container == old(container) && transportData == old(transportData) && selectedLine == old(selectedLine)
      ensures created == old(created)
      ensures transportData.None? ==> trace == old(trace) && layersAdded == old(layersAdded) && !failed
      ensures transportData.None? ==> Snapshot(t.engine) == old(Snapshot(t.engine))
      ensures transportData.Some? ==> Provides(old(trace), old(layersAdded), t, old(Snapshot(t.engine)))
    {
      t.Load();
      loadedMap := t;
      CommitAll();
    }

    /** The transport data prop changes (a new object every time): the layer
        effect and then the highlight effect run. */
    method DataArrived(d: Option<TransportData>)
      requires Valid() && !failed
      modifies this, protocols, if loadedMap != null then {loadedMap.engine} else {}
      ensures Valid()
      ensures transportData == d && loadedMap == old(loadedMap) && created == old(created)
      ensures container == old(container) && selectedLine == old(selectedLine)
      ensures loadedMap == null || d.None? ==> trace == old(trace) && layersAdded == old(layersAdded) && !failed
      ensures loadedMap != null && d.None? ==> Snapshot(loadedMap.engine) == old(Snapshot(loadedMap.engine))
      ensures loadedMap != null && d.Some? ==> Provides(old(trace), old(layersAdded), loadedMap, old(Snapshot(loadedMap.engine)))
    {
      transportData := d;
      CommitAll();
    }

    /** The selection prop changes: only the highlight effect runs. React
        compares the new value with the old one, so an unchanged selection is
        no event. */
    method Select(s: Option<string>)
      requires Valid() && !failed && s != selectedLine
      modifies this, protocols, if loadedMap != null then {loadedMap.engine} else {}
      ensures Valid()
      ensures selectedLine == s && loadedMap == old(loadedMap) && layersAdded == old(layersAdded) && created == old(created)
      ensures container == old(container) && transportData == old(transportData)
      ensures !(loadedMap != null && transportData.Some? && layersAdded && Truthy(s)) ==> trace == old(trace) && !failed
      ensures !(loadedMap != null && transportData.Some? && layersAdded && Truthy(s)) && loadedMap != null ==>
        Snapshot(loadedMap.engine) == old(Snapshot(loadedMap.engine))
      ensures loadedMap != null && transportData.Some? && layersAdded && Truthy(s) ==>
        && trace == old(trace) + [Highlighted(loadedMap, s.value, transportData.value, !failed)]
        && failed == SelectThrows(old(loadedMap.engine.sources), s.value, transportData.value.lines)
        && Snapshot(loadedMap.engine) == AfterHighlightEffect(old(Snapshot(loadedMap.engine)), s.value, transportData.value.lines).0
    {
      selectedLine := s;
      CommitHighlight();
    }

    /** The component unmounts: the init effect's cleanup destructs the live
        map. */
    method Unmount()
      requires Valid()
      modifies this, protocols
      ensures live == null && PMTILES !in protocols.registered
      ensures loadedMap == old(loadedMap) && trace == old(trace) && created == old(created)
      ensures container == old(container) && layersAdded == old(layersAdded) && failed == old(failed)
      ensures transportData == old(transportData) && selectedLine == old(selectedLine)
    {
      if live != null {
        live.Destruct();
        live := null;
      }
    }

    /** After the layer effect ran on `t`, from the hook state (`trace0`,
        `layersAdded0`) and the engine view `before`: one `addTransportLayers`
        call on `t` with the current data; if it returned, `layersAdded` is
        set. The highlight effect follows when there is a truthy selection and
        the layer call returned (a throw skips the rest of the component's
        effects). The engine shows what those calls leave, and the hook fails
        exactly when one of them threw. */
    ghost predicate Provides(trace0: seq<Action>, layersAdded0: bool, t: TransportMap, before: View)
      reads this, t.engine
      requires transportData.Some?
    {
      var data := transportData.value;
      var (provisioned, provided) := AfterLayerEffect(t.engine.loaded, before, data);
      var highlight := Truthy(selectedLine) && provided;
      var (shownView, shown) := if highlight then AfterHighlightEffect(provisioned, selectedLine.value, data.lines) else (provisioned, true);
      && layersAdded == (layersAdded0 || provided)
      && trace == trace0 + [Provided(t, data, provided)] + (if highlight then [Highlighted(t, selectedLine.value, data, shown)] else [])
      && Snapshot(t.engine) == shownView
      && failed == !(provided && shown)
    }

    /** The commit after `map` or `transportData` changed: the layer effect,
        then the highlight effect. Both belong to one component, whose effects
        run one after the other until one throws: a throw in the layer effect
        skips the highlight effect, and the error then unmounts the tree.
        When the layers were added before, the highlight effect runs in this
        commit; when they are added now, it runs in the commit of the render
        that `setLayersAdded(true)` causes. Either way it runs once. */
    method CommitAll()
      requires !failed
      requires (forall t :: t in created ==> t.protocols == protocols)
      requires (forall t1, t2 :: t1 in created && t2 in created && t1 != t2 ==> t1.engine != t2.engine)
      requires live != null ==> live in created
      requires loadedMap != null ==> loadedMap in created && loadedMap.engine.loaded
      requires PMTILES in protocols.registered <==> live != null
      requires live != null <==> container.Some?
      modifies this, protocols, if loadedMap != null then {loadedMap.engine} else {}
      ensures Valid()
      ensures loadedMap == old(loadedMap) && created == old(created) && container == old(container)
      ensures transportData == old(transportData) && selectedLine == old(selectedLine)
      ensures loadedMap != null ==> loadedMap.engine.controls == old(loadedMap.engine.controls)
      ensures loadedMap != null && transportData.Some? ==> Provides(old(trace), old(layersAdded), loadedMap, old(Snapshot(loadedMap.engine)))
      ensures !(loadedMap != null && transportData.Some?) ==> layersAdded == old(layersAdded) && trace == old(trace) && !failed
      ensures !(loadedMap != null && transportData.Some?) && loadedMap != null ==>
        Snapshot(loadedMap.engine) == old(Snapshot(loadedMap.engine))
    {
      if loadedMap != null && transportData.Some? {
        var provided := LayerEffect();
        var shown := true;
        if provided && Truthy(selectedLine) {
          shown := HighlightEffect();
        }
        if !provided || !shown {
          TearDown();
        }
      }
    }

    /** The commit after `selectedLine` changed: the highlight effect alone. */
    method CommitHighlight()
      requires !failed
      requires (forall t :: t in created ==> t.protocols == protocols)
      requires (forall t1, t2 :: t1 in created && t2 in created && t1 != t2 ==> t1.engine != t2.engine)
      requires live != null ==> live in created
      requires loadedMap != null ==> loadedMap in created && loadedMap.engine.loaded
      requires PMTILES in protocols.registered <==> live != null
      requires live != null <==> container.Some?
      modifies this, protocols, if loadedMap != null then {loadedMap.engine} else {}
      ensures Valid()
      ensures loadedMap == old(loadedMap) && created == old(created) && container == old(container)
      ensures transportData == old(transportData) && selectedLine == old(selectedLine) && layersAdded == old(layersAdded)
      ensures !(loadedMap != null && transportData.Some? && layersAdded && Truthy(selectedLine)) ==> trace == old(trace) && !failed
      ensures !(loadedMap != null && transportData.Some? && layersAdded && Truthy(selectedLine)) && loadedMap != null ==>
        Snapshot(loadedMap.engine) == old(Snapshot(loadedMap.engine))
      ensures loadedMap != null && transportData.Some? && layersAdded && Truthy(selectedLine) ==>
        && trace == old(trace) + [Highlighted(loadedMap, selectedLine.value, transportData.value, !failed)]
        && failed == SelectThrows(old(loadedMap.engine.sources), selectedLine.value, transportData.value.lines)
        && Snapshot(loadedMap.engine) == AfterHighlightEffect(old(Snapshot(loadedMap.engine)), selectedLine.value, transportData.value.lines).0
    {
      if loadedMap != null && transportData.Some? && layersAdded && Truthy(selectedLine) {
        var shown := HighlightEffect();
        if !shown {
          TearDown();
        }
      }
    }

    /** An effect threw: the tree unmounts, and the init effect's cleanup
        destructs the live map. */
    method TearDown()
      requires live != null ==> live.protocols == protocols
      requires PMTILES in protocols.registered <==> live != null
      modifies this, protocols
      ensures failed && live == null && PMTILES !in protocols.registered
      ensures loadedMap == old(loadedMap) && created == old(created) && container == old(container) && layersAdded == old(layersAdded)
      ensures transportData == old(transportData) && selectedLine == old(selectedLine) && trace == old(trace)
    {
      failed := true;
      if live != null {
        live.Destruct();
        live := null;
      }
    }

    /** The layer effect's body: `addTransportLayers`, then
        `setLayersAdded(true)` unless it threw. */
    method LayerEffect() returns (provided: bool)
      requires loadedMap != null && transportData.Some?
      modifies this, loadedMap.engine
      ensures loadedMap == old(loadedMap) && live == old(live) && failed == old(failed) && created == old(created)
      ensures container == old(container) && transportData == old(transportData) && selectedLine == old(selectedLine)
      ensures trace == old(trace) + [Provided(loadedMap, transportData.value, provided)]
      ensures layersAdded == (old(layersAdded) || provided)
      ensures (loadedMap.engine.sources, provided) ==
        ProvisionSources(old(loadedMap.engine.loaded), old(loadedMap.engine.sources), TransportSources(transportData.value))
      ensures loadedMap.engine.layers ==
        if provided then ProvisionLayers(old(loadedMap.engine.layers), loadedMap.engine.sources, TransportLayers())
        else old(loadedMap.engine.layers)
      ensures loadedMap.engine.calls == old(loadedMap.engine.calls)
      ensures (Snapshot(loadedMap.engine), provided) == AfterLayerEffect(old(loadedMap.engine.loaded), old(Snapshot(loadedMap.engine)), transportData.value)
      ensures loadedMap.engine.loaded == old(loadedMap.engine.loaded) && loadedMap.engine.controls == old(loadedMap.engine.controls)
    {
      provided := loadedMap.AddTransportLayers(transportData.value);
      trace := trace + [Provided(loadedMap, transportData.value, provided)];
      if provided {
        layersAdded := true;
      }
    }

    /** The highlight effect's body: `setSelectedLine`. */
    method HighlightEffect() returns (shown: bool)
      requires loadedMap != null && transportData.Some? && selectedLine.Some?
      modifies this, loadedMap.engine
      ensures loadedMap == old(loadedMap) && live == old(live) && failed == old(failed) && created == old(created)
      ensures container == old(container) && transportData == old(transportData) && selectedLine == old(selectedLine)
      ensures trace == old(trace) + [Highlighted(loadedMap, selectedLine.value, transportData.value, shown)]
      ensures shown == !SelectThrows(old(loadedMap.engine.sources), selectedLine.value, transportData.value.lines)
      ensures shown ==> loadedMap.engine.sources == SelectedSources(old(loadedMap.engine.sources), selectedLine.value, transportData.value.lines)
      ensures shown ==> loadedMap.engine.calls == old(loadedMap.engine.calls) + SelectCalls(Matching(transportData.value.lines, selectedLine.value))
      ensures !shown ==> loadedMap.engine.sources == ThrownSources(old(loadedMap.engine.sources), selectedLine.value, transportData.value.lines)
      ensures !shown ==>
        loadedMap.engine.calls == old(loadedMap.engine.calls) + ThrownCalls(old(loadedMap.engine.sources), selectedLine.value, transportData.value.lines)
      ensures loadedMap.engine.layers == old(loadedMap.engine.layers)
      ensures (Snapshot(loadedMap.engine), shown) ==
        AfterHighlightEffect(old(Snapshot(loadedMap.engine)), selectedLine.value, transportData.value.lines)
      ensures loadedMap.engine.loaded == old(loadedMap.engine.loaded) && loadedMap.engine.controls == old(loadedMap.engine.controls)
      ensures layersAdded == old(layersAdded)
    {
      shown := loadedMap.SetSelectedLine(selectedLine.value, transportData.value);
      trace := trace + [Highlighted(loadedMap, selectedLine.value, transportData.value, shown)];
    }
  }
}
