/** The map instance the hooks drive: the MapLibre wrapper and the map inside it,
    seen only through the state the hooks read (layers, sources, handlers, the
    bearing) and a log of the mutating calls they issue. */
module Engine {
  import opened Values

  /** The `source` entry of a layer's options: absent, the id of a source that
      must already exist, or a source object added together with the layer. */
  datatype Source =
    | NoSource
    | Named(name: string)
    | Inline(kind: Option<string>, data: Option<GeoJson>, attribution: Option<string>)

  /** JavaScript truthiness of `options.source`. */
  predicate SourceTruthy(s: Source)
  {
    match s
    case NoSource => false
    case Named(n) => n != ""
    case Inline(_, _, _) => true
  }

  /** The first argument of `addLayer`. */
  datatype LayerSpec = LayerSpec(
    id: string,
    layerType: Option<string>,
    source: Source,
    paint: Option<Props>,
    layout: Option<Props>)

  datatype LayerInfo = LayerInfo(layerType: string, owner: string)

  /** A source; only GeoJSON sources accept `setData`. */
  datatype SourceInfo = SourceInfo(geojson: bool, data: Option<GeoJson>)

  /** The functions handed to `on`, told apart by who registered them. */
  datatype Callback =
    | UserFn(name: string)
    | RestoreLayer(layerId: string)
    | AwaitSource(layerId: string)
    | SyncBearing(componentId: string)

  /** One registration `on(event, layerId?, callback, owner?)`. */
  datatype Handler = Handler(event: string, layerId: Option<string>, callback: Callback, owner: Option<string>)

  /** The mutating calls the hooks issue, in the order issued. */
  datatype Call =
    | AddLayerCall(spec: LayerSpec, beforeId: Option<string>, owner: string)
    | RemoveSourceCall(id: string)
    | SetDataCall(id: string, data: Option<GeoJson>)
    | SetPaintCall(id: string, key: string, value: Value)
    | SetLayoutCall(id: string, key: string, value: Value)
    | MoveLayerCall(id: string, target: string)
    | CleanupCall(owner: string)
    | SetBearingCall(bearing: int)
    | SetCenterCall
    | SetZoomCall(zoom: int)

  /** The registrations in `s` that `keep` accepts, in their order. */
  function Filter(s: seq<Handler>, keep: Handler -> bool): (r: seq<Handler>)
    ensures forall x :: x in r <==> x in s && keep(x)
    ensures |r| <= |s|
  {
    if s == [] then []
    else (if keep(s[0]) then [s[0]] else []) + Filter(s[1..], keep)
  }

  /** The registrations that do not carry the owner tag `owner`. */
  function WithoutOwner(hs: seq<Handler>, owner: string): (r: seq<Handler>)
    ensures forall h :: h in r <==> h in hs && h.owner != Some(owner)
  {
    Filter(hs, (h: Handler) => h.owner != Some(owner))
  }

  /** The registrations left after `off(event, callback)`. */
  function WithoutListener(hs: seq<Handler>, event: string, callback: Callback): (r: seq<Handler>)
    ensures forall h :: h in r <==> h in hs && !(h.event == event && h.callback == callback)
  {
    Filter(hs, (h: Handler) => !(h.event == event && h.callback == callback))
  }

  /** The layers whose owner is not `owner`. */
  function Unowned(layers: map<string, LayerInfo>, owner: string): (r: map<string, LayerInfo>)
    ensures forall id :: id in r <==> id in layers && layers[id].owner != owner
    ensures forall id :: id in r ==> r[id] == layers[id]
  {
    map id | id in layers && layers[id].owner != owner :: layers[id]
  }

  /** Whether the map takes an `addLayer(spec, beforeId)`: it refuses a taken layer
      id, a source object whose id is taken, a named source it does not have, a
      `beforeId` it does not have, and a layer without a type. */
  predicate Accepts(layers: map<string, LayerInfo>, sources: map<string, SourceInfo>, spec: LayerSpec, beforeId: Option<string>)
  {
    && spec.layerType.Some?
    && spec.id !in layers
    && (match spec.source
        case NoSource => true
        case Named(n) => n in sources
        case Inline(_, _, _) => spec.id !in sources)
    && (beforeId.Some? ==> beforeId.value in layers)
  }

  /** The sources after an accepted `addLayer`: a source object is added under the layer's id. */
  function WithLayerSource(sources: map<string, SourceInfo>, spec: LayerSpec): map<string, SourceInfo>
  {
    match spec.source
    case Inline(kind, data, _) => sources[spec.id := SourceInfo(kind == Some("geojson"), data)]
    case _ => sources
  }

  class Engine {
    var cancelled: bool
    var layers: map<string, LayerInfo>
    var sources: map<string, SourceInfo>
    var handlers: seq<Handler>
    var calls: seq<Call>
    /** The wrapper's `firstSymbolLayer`, taken as given. */
    var firstSymbolLayer: Option<string>
    var bearing: int
    /** Whether the inner map offers `getBearing`. */
    var bearingReadable: bool

    constructor (layers: map<string, LayerInfo>, sources: map<string, SourceInfo>, firstSymbolLayer: Option<string>)
      ensures this.layers == layers && this.sources == sources && this.firstSymbolLayer == firstSymbolLayer
      ensures !cancelled && handlers == [] && calls == [] && bearing == 0 && bearingReadable
    {
      this.cancelled := false;
      this.layers := layers;
      this.sources := sources;
      this.handlers := [];
      this.calls := [];
      this.firstSymbolLayer := firstSymbolLayer;
      this.bearing := 0;
      this.bearingReadable := true;
    }

    /** Nothing but the call log changed. */
    twostate predicate OnlyLogged()
      reads this
    {
      && cancelled == old(cancelled)
      && layers == old(layers)
      && sources == old(sources)
      && handlers == old(handlers)
      && firstSymbolLayer == old(firstSymbolLayer)
      && bearing == old(bearing)
      && bearingReadable == old(bearingReadable)
    }

    /** Nothing but the handler table changed. */
    twostate predicate OnlyHandlers()
      reads this
    {
      && cancelled == old(cancelled)
      && layers == old(layers)
      && sources == old(sources)
      && calls == old(calls)
      && firstSymbolLayer == old(firstSymbolLayer)
      && bearing == old(bearing)
      && bearingReadable == old(bearingReadable)
    }

    /** The state a `cleanup(owner)` call leaves: the owner's layers and
        registrations are gone, everything else stays. */
    twostate predicate CleanedUp(owner: string)
      reads this
    {
      && layers == Unowned(old(layers), owner)
      && handlers == WithoutOwner(old(handlers), owner)
      && calls == old(calls) + [CleanupCall(owner)]
      && sources == old(sources) && cancelled == old(cancelled)
      && firstSymbolLayer == old(firstSymbolLayer) && bearing == old(bearing) && bearingReadable == old(bearingReadable)
    }

    method AddLayer(spec: LayerSpec, beforeId: Option<string>, owner: string) returns (added: bool)
      modifies this
      ensures added == Accepts(old(layers), old(sources), spec, beforeId)
      ensures calls == old(calls) + [AddLayerCall(spec, beforeId, owner)]
      ensures layers == if added then old(layers)[spec.id := LayerInfo(spec.layerType.value, owner)] else old(layers)
      ensures sources == if added then WithLayerSource(old(sources), spec) else old(sources)
      ensures handlers == old(handlers) && cancelled == old(cancelled) && firstSymbolLayer == old(firstSymbolLayer)
      ensures bearing == old(bearing) && bearingReadable == old(bearingReadable)
    {
      added := Accepts(layers, sources, spec, beforeId);
      calls := calls + [AddLayerCall(spec, beforeId, owner)];
      if added {
        layers := layers[spec.id := LayerInfo(spec.layerType.value, owner)];
        sources := WithLayerSource(sources, spec);
      }
    }

    method RemoveSource(id: string)
      modifies this
      ensures sources == old(sources) - {id}
      ensures calls == old(calls) + [RemoveSourceCall(id)]
      ensures layers == old(layers) && handlers == old(handlers) && cancelled == old(cancelled)
      ensures firstSymbolLayer == old(firstSymbolLayer) && bearing == old(bearing) && bearingReadable == old(bearingReadable)
    {
      sources := sources - {id};
      calls := calls + [RemoveSourceCall(id)];
    }

    /** `getSource(id)?.setData?.(data)`: only a GeoJSON source takes new data. */
    method SetData(id: string, data: Option<GeoJson>)
      modifies this
      ensures var takes := id in old(sources) && old(sources)[id].geojson;
        && sources == (if takes then old(sources)[id := SourceInfo(true, data)] else old(sources))
        && calls == old(calls) + (if takes then [SetDataCall(id, data)] else [])
      ensures layers == old(layers) && handlers == old(handlers) && cancelled == old(cancelled)
      ensures firstSymbolLayer == old(firstSymbolLayer) && bearing == old(bearing) && bearingReadable == old(bearingReadable)
    {
      if id in sources && sources[id].geojson {
        sources := sources[id := SourceInfo(true, data)];
        calls := calls + [SetDataCall(id, data)];
      }
    }

    method SetPaintProperty(id: string, key: string, value: Value)
      modifies this
      ensures calls == old(calls) + [SetPaintCall(id, key, value)]
      ensures OnlyLogged()
    {
      calls := calls + [SetPaintCall(id, key, value)];
    }

    method SetLayoutProperty(id: string, key: string, value: Value)
      modifies this
      ensures calls == old(calls) + [SetLayoutCall(id, key, value)]
      ensures OnlyLogged()
    {
      calls := calls + [SetLayoutCall(id, key, value)];
    }

    /** Reordering is logged; the drawing order itself is not part of this model. */
    method MoveLayer(id: string, beforeId: string)
      modifies this
      ensures calls == old(calls) + [MoveLayerCall(id, beforeId)]
      ensures OnlyLogged()
    {
      calls := calls + [MoveLayerCall(id, beforeId)];
    }

    method On(event: string, layerId: Option<string>, callback: Callback, owner: Option<string>)
      modifies this
      ensures handlers == old(handlers) + [Handler(event, layerId, callback, owner)]
      ensures OnlyHandlers()
    {
      handlers := handlers + [Handler(event, layerId, callback, owner)];
    }

    /** `off(event, callback)` removes every registration of that function for that event. */
    method Off(event: string, callback: Callback)
      modifies this
      ensures handlers == WithoutListener(old(handlers), event, callback)
      ensures OnlyHandlers()
    {
      handlers := WithoutListener(handlers, event, callback);
    }

    /** The wrapper's `cleanup(owner)`, with the least the hooks rely on: it drops
        the layers and the registrations that carry that owner tag. */
    method Cleanup(owner: string)
      modifies this
      ensures CleanedUp(owner)
    {
      layers := Unowned(layers, owner);
      handlers := WithoutOwner(handlers, owner);
      calls := calls + [CleanupCall(owner)];
    }

    method SetBearing(b: int)
      modifies this
      ensures bearing == b
      ensures calls == old(calls) + [SetBearingCall(b)]
      ensures layers == old(layers) && sources == old(sources) && handlers == old(handlers) && cancelled == old(cancelled)
      ensures firstSymbolLayer == old(firstSymbolLayer) && bearingReadable == old(bearingReadable)
    {
      bearing := b;
      calls := calls + [SetBearingCall(b)];
    }

    /** Centre and zoom are logged; the view itself is not part of this model. */
    method SetCenter()
      modifies this
      ensures calls == old(calls) + [SetCenterCall]
      ensures OnlyLogged()
    {
      calls := calls + [SetCenterCall];
    }

    method SetZoom(zoom: int)
      modifies this
      ensures calls == old(calls) + [SetZoomCall(zoom)]
      ensures OnlyLogged()
    {
      calls := calls + [SetZoomCall(zoom)];
    }
  }
}
