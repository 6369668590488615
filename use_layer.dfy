/** The layer reconciler `useLayer`: it turns a declared layer (type, paint,
    layout, source, ordering, handlers) into `addLayer`, `removeSource`, `setData`,
    `setPaintProperty`, `setLayoutProperty`, `moveLayer` and `on` calls on the map
    its map binding resolved to, keeping what it last applied in a few refs. */
module UseLayer {
  import opened Values
  import opened Engine
  import opened UseMap

  const LegalLayerTypes: seq<string> :=
    ["fill", "line", "symbol", "circle", "heatmap", "fill-extrusion", "raster", "hillshade", "background"]

  /** `legalLayerTypes.indexOf(type) !== -1`. */
  predicate IsLegal(t: Option<string>)
  {
    t.Some? && t.value in LegalLayerTypes
  }

  /** Exactly the nine MapLibre layer types are legal; an undefined type is not. */
  lemma LegalTypesAreTheNine(t: Option<string>)
    ensures IsLegal(t) <==>
      t == Some("fill") || t == Some("line") || t == Some("symbol") || t == Some("circle") ||
      t == Some("heatmap") || t == Some("fill-extrusion") || t == Some("raster") ||
      t == Some("hillshade") || t == Some("background")
  {
  }

  /** The `options` prop: what is spread into the layer specification. */
  datatype Options = Options(
    layerType: Option<string>,
    source: Source,
    paint: Option<Props>,
    layout: Option<Props>,
    id: Option<string>)

  datatype LayerProps = LayerProps(
    mapId: Option<string>,
    layerId: Option<string>,
    idPrefix: Option<string>,
    insertBeforeLayer: Option<string>,
    insertBeforeFirstSymbolLayer: bool,
    geojson: Option<GeoJson>,
    options: Options,
    onHover: Option<Callback>,
    onClick: Option<Callback>,
    onLeave: Option<Callback>)

  // ---------------------------------------------------------------------------
  // The layer id

  /** The id the hook gives its layer, computed once: the `layerId` prop, else
      the `idPrefix` prop or `"Layer-"` followed by the hook's component id. */
  function ChooseLayerId(layerId: Option<string>, idPrefix: Option<string>, componentId: string): (r: string)
    ensures Present(layerId) ==> r == layerId.value
    ensures !Present(layerId) ==>
      (Present(idPrefix) ==> r == idPrefix.value + componentId) &&
      (!Present(idPrefix) ==> r == "Layer-" + componentId)
  {
    if Present(layerId) then layerId.value
    else (if Present(idPrefix) then idPrefix.value else "Layer-") + componentId
  }

  /** Without a `layerId` prop, hooks with distinct component ids get distinct layer ids. */
  lemma GeneratedIdsDiffer(idPrefix: Option<string>, c1: string, c2: string)
    requires c1 != c2
    ensures ChooseLayerId(None, idPrefix, c1) != ChooseLayerId(None, idPrefix, c2)
  {
    var p := if Present(idPrefix) then idPrefix.value else "Layer-";
    assert (p + c1)[|p|..] == c1;
    assert (p + c2)[|p|..] == c2;
  }

  // ---------------------------------------------------------------------------
  // What `createLayer` adds

  datatype DeferReason = SourceMissing | NoData | NoType

  /** `options.source?.data` is truthy: given, and not the empty URL `''`. */
  predicate HasData(s: Source)
  {
    s.Inline? && s.data.Some? && s.data.value.document != ""
  }

  /** Why `createLayer` returns before `addLayer`, judged against the sources the
      map has at that point: a string source that is empty or not on the map; no
      string source, no `geojson`, no `source.data` and a type other than
      `background`; an undefined type. */
  function Deferral(props: LayerProps, sources: set<string>): (r: Option<DeferReason>)
    ensures r == Some(SourceMissing) <==>
      props.options.source.Named? && (props.options.source.name == "" || props.options.source.name !in sources)
    ensures r == Some(NoData) <==>
      && !props.options.source.Named?
      && props.geojson.None? && !HasData(props.options.source) && props.options.layerType != Some("background")
    ensures r.None? <==>
      && (props.options.source.Named? ==> props.options.source.name != "" && props.options.source.name in sources)
      && (!props.options.source.Named? ==>
            props.geojson.Some? || HasData(props.options.source) || props.options.layerType == Some("background"))
      && props.options.layerType.Some?
  {
    var o := props.options;
    if o.source.Named? && (o.source.name == "" || o.source.name !in sources) then Some(SourceMissing)
    else if !o.source.Named? && props.geojson.None? && !HasData(o.source) && o.layerType != Some("background") then Some(NoData)
    else if o.layerType.None? then Some(NoType)
    else None
  }

  /** A `geojson` prop replaces a missing source, or a source object that sets an
      attribution and no type. */
  predicate Synthesizes(props: LayerProps)
  {
    && props.geojson.Some?
    && (!SourceTruthy(props.options.source) ||
        (props.options.source.Inline? && Present(props.options.source.attribution) && !Present(props.options.source.kind)))
  }

  /** The attribution copied into a synthesised source. */
  function AttributionOf(s: Source): string
  {
    if s.Inline? && Present(s.attribution) then s.attribution.value else ""
  }

  /** The specification handed to `addLayer`: the options with their source
      resolved three ways and the hook's own id. */
  function BuildSpec(props: LayerProps, layerId: string): (r: LayerSpec)
    ensures r.id == layerId
    ensures r.layerType == props.options.layerType
    ensures r.paint == props.options.paint && r.layout == props.options.layout
    ensures props.options.source.Named? ==> r.source == props.options.source
    ensures !props.options.source.Named? && Synthesizes(props) ==>
      r.source == Inline(Some("geojson"), props.geojson, Some(AttributionOf(props.options.source)))
    ensures !props.options.source.Named? && !Synthesizes(props) ==> r.source == props.options.source
  {
    var o := props.options;
    var source :=
      if o.source.Named? then o.source
      else if Synthesizes(props) then Inline(Some("geojson"), props.geojson, Some(AttributionOf(o.source)))
      else o.source;
    LayerSpec(layerId, o.layerType, source, o.paint, o.layout)
  }

  /** The `beforeId` of `addLayer`. */
  function BeforeId(props: LayerProps, firstSymbolLayer: Option<string>): (r: Option<string>)
    ensures Present(props.insertBeforeLayer) ==> r == props.insertBeforeLayer
    ensures !Present(props.insertBeforeLayer) && props.insertBeforeFirstSymbolLayer ==> r == firstSymbolLayer
    ensures !Present(props.insertBeforeLayer) && !props.insertBeforeFirstSymbolLayer ==> r == None
  {
    if Present(props.insertBeforeLayer) then props.insertBeforeLayer
    else if props.insertBeforeFirstSymbolLayer then firstSymbolLayer
    else None
  }

  /** When creation is not deferred, the id is free, the inline source id is free
      and the insertion point exists, the map takes the specification. */
  lemma ReadySpecIsAccepted(props: LayerProps, layerId: string, layers: map<string, LayerInfo>,
                            sources: map<string, SourceInfo>, beforeId: Option<string>)
    requires Deferral(props, sources.Keys).None?
    requires layerId !in layers && layerId !in sources
    requires beforeId.Some? ==> beforeId.value in layers
    ensures Accepts(layers, sources, BuildSpec(props, layerId), beforeId)
  {
  }

  /** A handler prop that is given becomes one registration scoped to the layer. */
  function OptionalReg(event: string, layerId: string, cb: Option<Callback>, componentId: string): seq<Handler>
  {
    match cb
    case Some(f) => [Handler(event, Some(layerId), f, Some(componentId))]
    case None => []
  }

  /** The registrations `createLayer` makes, in order: the given hover, click and
      leave handlers, then the style-reload handler. */
  function HandlerRegs(props: LayerProps, layerId: string, componentId: string): (r: seq<Handler>)
    ensures |r| > 0 && r[|r| - 1] == Handler("styledata", None, RestoreLayer(layerId), Some(componentId))
  {
    OptionalReg("mousemove", layerId, props.onHover, componentId) +
    OptionalReg("click", layerId, props.onClick, componentId) +
    OptionalReg("mouseleave", layerId, props.onLeave, componentId) +
    [Handler("styledata", None, RestoreLayer(layerId), Some(componentId))]
  }

  /** Every registration carries the hook's owner tag; there is a hover, click or
      leave registration exactly when that handler is given; all but the last,
      style-change one are scoped to the layer. */
  lemma HandlerRegsShape(props: LayerProps, layerId: string, componentId: string)
    ensures var r := HandlerRegs(props, layerId, componentId);
      && (forall h :: h in r ==> h.owner == Some(componentId))
      && (forall cb :: Handler("mousemove", Some(layerId), cb, Some(componentId)) in r <==> props.onHover == Some(cb))
      && (forall cb :: Handler("click", Some(layerId), cb, Some(componentId)) in r <==> props.onClick == Some(cb))
      && (forall cb :: Handler("mouseleave", Some(layerId), cb, Some(componentId)) in r <==> props.onLeave == Some(cb))
      && (forall i :: 0 <= i < |r| - 1 ==> r[i].layerId == Some(layerId) && r[i].event != "styledata")
  {
  }

  function LayerAt(layers: map<string, LayerInfo>, id: string): Option<LayerInfo>
  {
    if id in layers then Some(layers[id]) else None
  }

  // ---------------------------------------------------------------------------
  // The create effect's recreate rule

  /** The create effect leaves an existing layer alone when the map is live, the
      hook is initialised, the layer exists and its declared type is not a legal
      one or is the recorded one. */
  function KeepsLayer(cancelled: bool, initialized: bool, present: bool, declared: Option<string>, recorded: string): (r: bool)
    ensures r ==> !cancelled && initialized && present
    ensures IsLegal(declared) && declared != Some(recorded) ==> !r
    ensures !cancelled && initialized && present && (!IsLegal(declared) || declared == Some(recorded)) ==> r
  {
    && !cancelled
    && initialized
    && present
    && (!IsLegal(declared) || (IsLegal(declared) && declared == Some(recorded)))
  }

  // ---------------------------------------------------------------------------
  // The paint and layout diff

  datatype PropKind = Paint | Layout

  function SetCall(kind: PropKind, id: string, key: string, v: Value): Call
  {
    match kind
    case Paint => SetPaintCall(id, key, v)
    case Layout => SetLayoutCall(id, key, v)
  }

  /** A key is pushed when its new value is truthy and differs from the old one. */
  predicate Pushes(v: Value, prev: Props, key: string)
  {
    Truthy(v) && Lookup(prev, key) != Some(v)
  }

  /** The property-set calls of the `for (key in next)` loop against the parsed old object. */
  function PushCalls(kind: PropKind, id: string, next: Props, prev: Props): (r: seq<Call>)
    ensures |r| <= |next|
    decreases |next|
  {
    if next == [] then []
    else
      var (key, v) := next[|next| - 1];
      PushCalls(kind, id, next[..|next| - 1], prev) + (if Pushes(v, prev, key) then [SetCall(kind, id, key, v)] else [])
  }

  /** Every call of one loop sets a property of the given kind on the given layer. */
  lemma {:induction false} PushCallsShape(kind: PropKind, id: string, next: Props, prev: Props)
    ensures forall c :: c in PushCalls(kind, id, next, prev) ==>
      if kind == Paint then c.SetPaintCall? && c.id == id else c.SetLayoutCall? && c.id == id
    decreases |next|
  {
    if next != [] {
      PushCallsShape(kind, id, next[..|next| - 1], prev);
    }
  }

  /** A call is issued exactly for an entry of the new object whose value is
      truthy and differs from the old object's value for that key. */
  lemma {:induction false} PushCallsExactly(kind: PropKind, id: string, next: Props, prev: Props, c: Call)
    ensures c in PushCalls(kind, id, next, prev) <==>
      exists i :: 0 <= i < |next| && Pushes(next[i].1, prev, next[i].0) && c == SetCall(kind, id, next[i].0, next[i].1)
    decreases |next|
  {
    if next != [] {
      var front := next[..|next| - 1];
      PushCallsExactly(kind, id, front, prev, c);
      forall i | 0 <= i < |front| ensures front[i] == next[i] { }
      var last := |next| - 1;
      if c in PushCalls(kind, id, next, prev) && c !in PushCalls(kind, id, front, prev) {
        assert Pushes(next[last].1, prev, next[last].0) && c == SetCall(kind, id, next[last].0, next[last].1);
      }
      if exists i :: 0 <= i < |next| && Pushes(next[i].1, prev, next[i].0) && c == SetCall(kind, id, next[i].0, next[i].1) {
        var i :| 0 <= i < |next| && Pushes(next[i].1, prev, next[i].0) && c == SetCall(kind, id, next[i].0, next[i].1);
        if i < last {
          assert front[i] == next[i];
        }
      }
    }
  }

  /** Keys whose values all match the old object produce no call, whatever their order. */
  lemma {:induction false} PushCallsUnchanged(kind: PropKind, id: string, next: Props, prev: Props)
    requires forall i :: 0 <= i < |next| ==> Lookup(prev, next[i].0) == Some(next[i].1)
    ensures PushCalls(kind, id, next, prev) == []
    decreases |next|
  {
    if next != [] {
      var front := next[..|next| - 1];
      forall i | 0 <= i < |front| ensures Lookup(prev, front[i].0) == Some(front[i].1) {
        assert front[i] == next[i];
      }
      PushCallsUnchanged(kind, id, front, prev);
    }
  }

  /** Diffing an object against itself issues no call. */
  lemma PushCallsOnSelf(kind: PropKind, id: string, p: Props)
    requires DistinctKeys(p)
    ensures PushCalls(kind, id, p, p) == []
  {
    forall i | 0 <= i < |p| ensures Lookup(p, p[i].0) == Some(p[i].1) {
      LookupEntry(p, i);
    }
    PushCallsUnchanged(kind, id, p, p);
  }

  /** A key missing from the new object is never set, and neither is a falsy value. */
  lemma OnlyTruthyDeclaredKeysPushed(kind: PropKind, id: string, next: Props, prev: Props, key: string, v: Value)
    requires !HasKey(next, key) || !Truthy(v)
    ensures SetCall(kind, id, key, v) !in PushCalls(kind, id, next, prev)
  {
    PushCallsExactly(kind, id, next, prev, SetCall(kind, id, key, v));
  }

  /** Adding `opacity: 0.5` beside an unchanged `color` sets `opacity` alone. */
  lemma AddedKeyScenario(id: string)
    ensures PushCalls(Paint, id, [("color", Str("#fff")), ("opacity", Num(0.5))], [("color", Str("#fff"))])
         == [SetPaintCall(id, "opacity", Num(0.5))]
  {
    var next: Props := [("color", Str("#fff")), ("opacity", Num(0.5))];
    var prev: Props := [("color", Str("#fff"))];
    assert next[..1] == [("color", Str("#fff"))];
    assert next[..1][..0] == [];
    assert Lookup(prev, "opacity") == None;
  }

  /** The entries a `for ... in` loop visits: none for `undefined`. */
  function Entries(p: Option<Props>): Props
  {
    match p
    case None => []
    case Some(q) => q
  }

  lemma AppendAssoc<T>(a: seq<T>, b: seq<T>, c: seq<T>)
    ensures (a + b) + c == a + (b + c)
  {
  }

  /** The outcome of one half of the diff effect. */
  datatype Step = NoChange | Pushed(calls: seq<Call>, snapshot: Snapshot) | ParseFailure

  /** One half of the diff effect against the recorded snapshot: nothing when the
      serialised object equals the snapshot, a throw when the snapshot does not
      parse, else the loop's calls and the new snapshot. */
  function SyncStep(kind: PropKind, id: string, next: Option<Props>, snapshot: Snapshot): (r: Step)
    ensures r.NoChange? <==> Serialize(next) == snapshot
    ensures r.ParseFailure? <==> Serialize(next) != snapshot && !snapshot.Json?
    ensures r.Pushed? ==> r.snapshot == Serialize(next) && r.calls == PushCalls(kind, id, Entries(next), snapshot.props)
  {
    if Serialize(next) == snapshot then NoChange
    else match Parse(snapshot)
      case None => ParseFailure
      case Some(prev) => Pushed(PushCalls(kind, id, Entries(next), prev), Serialize(next))
  }

  /** The layout half runs only for a defined layout. */
  function LayoutStep(id: string, layout: Option<Props>, snapshot: Snapshot): (r: Step)
    ensures layout.None? ==> r == NoChange
    ensures layout.Some? ==> r == SyncStep(Layout, id, layout, snapshot)
  {
    if layout.Some? then SyncStep(Layout, id, layout, snapshot) else NoChange
  }

  function StepCalls(s: Step): seq<Call>
  {
    if s.Pushed? then s.calls else []
  }

  function StepSnapshot(s: Step, snapshot: Snapshot): Snapshot
  {
    if s.Pushed? then s.snapshot else snapshot
  }

  /** Declaring the same object again after a pushed step issues no call. */
  lemma {:induction false} ReapplyIsQuiet(kind: PropKind, id: string, next: Option<Props>, snapshot: Snapshot)
    ensures var s := SyncStep(kind, id, next, snapshot);
      SyncStep(kind, id, next, StepSnapshot(s, snapshot)) == NoChange || s.ParseFailure?
  {
  }

  /** What the diff effect does to a live layer: the calls it issues, the snapshots
      it leaves and whether it throws. A layout parse failure stops the effect
      before the paint half. */
  datatype DiffOutcome = DiffOutcome(calls: seq<Call>, layoutConf: Snapshot, paintConf: Snapshot, threw: bool)

  function Diff(id: string, options: Options, layoutConf: Snapshot, paintConf: Snapshot): (r: DiffOutcome)
    ensures r.threw <==>
      || (options.layout.Some? && Serialize(options.layout) != layoutConf && !layoutConf.Json?)
      || (Serialize(options.paint) != paintConf && !paintConf.Json?)
    ensures !r.threw ==>
      && r.layoutConf == (if options.layout.Some? then Serialize(options.layout) else layoutConf)
      && r.paintConf == Serialize(options.paint)
    ensures (options.layout.None? || Serialize(options.layout) == layoutConf) && Serialize(options.paint) == paintConf ==>
      r == DiffOutcome([], layoutConf, paintConf, false)
  {
    var ls := LayoutStep(id, options.layout, layoutConf);
    if ls.ParseFailure? then DiffOutcome([], layoutConf, paintConf, true)
    else
      var ps := SyncStep(Paint, id, options.paint, paintConf);
      DiffOutcome(StepCalls(ls) + StepCalls(ps), StepSnapshot(ls, layoutConf), StepSnapshot(ps, paintConf), ps.ParseFailure?)
  }

  /** The diff issues only paint and layout sets on the hook's layer. */
  lemma DiffCallsShape(id: string, options: Options, layoutConf: Snapshot, paintConf: Snapshot)
    ensures forall c :: c in Diff(id, options, layoutConf, paintConf).calls ==>
      (c.SetPaintCall? || c.SetLayoutCall?) && c.id == id
  {
    if layoutConf.Json? {
      PushCallsShape(Layout, id, Entries(options.layout), layoutConf.props);
    }
    if paintConf.Json? {
      PushCallsShape(Paint, id, Entries(options.paint), paintConf.props);
    }
  }

  /** Right after creation the snapshots are the declared objects, so diffing the
      same options issues nothing and does not throw. */
  lemma FreshLayerDiffIsQuiet(id: string, options: Options)
    ensures Diff(id, options, Serialize(options.layout), Serialize(options.paint))
         == DiffOutcome([], Serialize(options.layout), Serialize(options.paint), false)
  {
  }

  /** After a diff that did not throw, diffing the same options again issues no
      call and keeps the snapshots. */
  lemma {:induction false} DiffReapplyIsQuiet(id: string, options: Options, layoutConf: Snapshot, paintConf: Snapshot)
    requires !Diff(id, options, layoutConf, paintConf).threw
    ensures var d := Diff(id, options, layoutConf, paintConf);
      Diff(id, options, d.layoutConf, d.paintConf) == DiffOutcome([], d.layoutConf, d.paintConf, false)
  {
    var ls := LayoutStep(id, options.layout, layoutConf);
    var ps := SyncStep(Paint, id, options.paint, paintConf);
    ReapplyIsQuiet(Paint, id, options.paint, paintConf);
    if options.layout.Some? {
      ReapplyIsQuiet(Layout, id, options.layout, layoutConf);
    }
  }

  /** A layer created without a paint object throws on the first paint object
      declared later (`JSON.parse` of the stored `undefined`), and issues no call. */
  lemma LatePaintThrows(id: string, options: Options)
    requires options.layout.None? && options.paint.Some?
    ensures Diff(id, options, Undefined, Undefined) == DiffOutcome([], Undefined, Undefined, true)
  {
  }

  // ---------------------------------------------------------------------------
  // The hook

  class LayerHook {
    const mapHook: MapHook
    const layerId: string
    var initialized: bool
    /** `layerTypeRef`, `layerPaintConfRef`, `layerLayoutConfRef`. */
    var layerType: string
    var paintConf: Snapshot
    var layoutConf: Snapshot
    /** The `layer` state: what `getLayer(layerId)` gave after the last `addLayer`. */
    var layer: Option<LayerInfo>
    /** The map a pending `sourcedata` waiter is attached to. */
    var sourceWaiter: Engine?

    ghost predicate Valid()
      reads this, mapHook
    {
      && mapHook.Valid()
      && (initialized ==> paintConf != Unset && layoutConf != Unset)
    }

    constructor (componentId: string, props: LayerProps)
      ensures Valid() && fresh(mapHook)
      ensures mapHook.componentId == componentId
      ensures layerId == ChooseLayerId(props.layerId, props.idPrefix, componentId)
      ensures !initialized && layerType == "" && paintConf == Unset && layoutConf == Unset
      ensures layer == None && sourceWaiter == null
      ensures !mapHook.initialized && mapHook.boundMap == null && mapHook.mapRef == null && !mapHook.mapIsReady
    {
      mapHook := new MapHook(componentId);
      layerId := ChooseLayerId(props.layerId, props.idPrefix, componentId);
      initialized := false;
      layerType := "";
      paintConf := Unset;
      layoutConf := Unset;
      layer := None;
      sourceWaiter := null;
    }

    /** The hook's own map binding, waiting for `insertBeforeLayer` when one is given. */
    method BindMap(context: MapContext, props: LayerProps, layers: seq<LayerState>) returns (resolved: bool)
      requires Valid()
      modifies mapHook
      ensures Valid()
      ensures resolved <==>
        && !old(mapHook.initialized)
        && props.mapId in context.maps
        && (Present(props.insertBeforeLayer) ==> Listed(layers, props.insertBeforeLayer.value))
      ensures resolved ==> mapHook.boundMap == context.maps[props.mapId] && mapHook.mapIsReady
      ensures resolved ==> mapHook.initialized && mapHook.mapRef == context.maps[props.mapId]
      ensures !resolved ==> unchanged(mapHook)
    {
      resolved := mapHook.Resolve(context, props.mapId, props.insertBeforeLayer, layers);
    }

    twostate predicate RefsUnchanged()
      reads this
    {
      && initialized == old(initialized)
      && layerType == old(layerType)
      && paintConf == old(paintConf)
      && layoutConf == old(layoutConf)
      && layer == old(layer)
      && sourceWaiter == old(sourceWaiter)
    }

    /** What `createLayer` leaves on a live map `e`: the hook's earlier layer
        cleaned up if it exists, a stale layer-owned source removed, and then,
        unless creation is deferred, one `addLayer`, the handler registrations
        and the recorded type and snapshots. */
    twostate predicate AttemptedOn(props: LayerProps, e: Engine)
      reads this, mapHook, e
    {
      var cid := mapHook.componentId;
      var existed := layerId in old(e.layers);
      var cleaned := existed && old(mapHook.mapRef) != null;
      var layers1 := if cleaned then Unowned(old(e.layers), cid) else old(e.layers);
      var handlers1 := if cleaned then WithoutOwner(old(e.handlers), cid) else old(e.handlers);
      var dropSource := !props.options.source.Named? && layerId in old(e.sources);
      var sources1 := if dropSource then old(e.sources) - {layerId} else old(e.sources);
      var calls1 := old(e.calls) + (if cleaned then [CleanupCall(cid)] else [])
                                 + (if dropSource then [RemoveSourceCall(layerId)] else []);
      && mapHook.initialized == (if existed then false else old(mapHook.initialized))
      && e.cancelled == old(e.cancelled) && e.firstSymbolLayer == old(e.firstSymbolLayer)
      && e.bearing == old(e.bearing) && e.bearingReadable == old(e.bearingReadable)
      && match Deferral(props, sources1.Keys)
         case Some(_) =>
           && e.layers == layers1 && e.sources == sources1 && e.handlers == handlers1 && e.calls == calls1
           && RefsUnchanged()
         case None =>
           var spec := BuildSpec(props, layerId);
           var beforeId := BeforeId(props, old(e.firstSymbolLayer));
           var added := Accepts(layers1, sources1, spec, beforeId);
           && e.calls == calls1 + [AddLayerCall(spec, beforeId, cid)]
           && e.layers == (if added then layers1[layerId := LayerInfo(props.options.layerType.value, cid)] else layers1)
           && e.sources == (if added then WithLayerSource(sources1, spec) else sources1)
           && e.handlers == handlers1 + HandlerRegs(props, layerId, cid)
           && initialized
           && layerType == props.options.layerType.value
           && paintConf == Serialize(props.options.paint)
           && layoutConf == Serialize(props.options.layout)
           && layer == LayerAt(e.layers, layerId)
           && sourceWaiter == old(sourceWaiter)
    }

    /** The whole effect of `createLayer`: nothing without a live map, else `AttemptedOn`. */
    twostate predicate CreateLayerDone(props: LayerProps)
      reads this, mapHook, mapHook.boundMap
    {
      && mapHook.boundMap == old(mapHook.boundMap)
      && mapHook.mapRef == old(mapHook.mapRef)
      && mapHook.mapIsReady == old(mapHook.mapIsReady)
      && (mapHook.boundMap == null || old(mapHook.boundMap.cancelled) ==>
            && RefsUnchanged()
            && mapHook.initialized == old(mapHook.initialized)
            && (mapHook.boundMap != null ==> unchanged(mapHook.boundMap)))
      && (mapHook.boundMap != null && !old(mapHook.boundMap.cancelled) ==> AttemptedOn(props, mapHook.boundMap))
    }

    /** The first steps of `createLayer` on a live map: the wrapper's cleanup
        when the layer already exists, and removal of a same-id source unless the
        source is given by name. */
    twostate predicate StaleCleared(props: LayerProps, e: Engine)
      reads this, mapHook, e
    {
      var cid := mapHook.componentId;
      var existed := layerId in old(e.layers);
      var cleaned := existed && old(mapHook.mapRef) != null;
      var dropSource := !props.options.source.Named? && layerId in old(e.sources);
      && mapHook.initialized == (if existed then false else old(mapHook.initialized))
      && mapHook.boundMap == old(mapHook.boundMap) && mapHook.mapRef == old(mapHook.mapRef)
      && mapHook.mapIsReady == old(mapHook.mapIsReady)
      && e.layers == (if cleaned then Unowned(old(e.layers), cid) else old(e.layers))
      && e.handlers == (if cleaned then WithoutOwner(old(e.handlers), cid) else old(e.handlers))
      && e.sources == (if dropSource then old(e.sources) - {layerId} else old(e.sources))
      && e.calls == old(e.calls) + (if cleaned then [CleanupCall(cid)] else [])
                                 + (if dropSource then [RemoveSourceCall(layerId)] else [])
      && e.cancelled == old(e.cancelled) && e.firstSymbolLayer == old(e.firstSymbolLayer)
      && e.bearing == old(e.bearing) && e.bearingReadable == old(e.bearingReadable)
    }

    method ClearStale(props: LayerProps, e: Engine)
      requires Valid() && e == mapHook.boundMap
      modifies mapHook, e
      ensures Valid()
      ensures StaleCleared(props, e)
    {
      if layerId in e.layers {
        mapHook.Cleanup();
      }
      if !props.options.source.Named? && layerId in e.sources {
        e.RemoveSource(layerId);
      }
    }

    /** What a creation that passed its guards leaves: one `addLayer`, the
        handler registrations, and the recorded type and snapshots. */
    twostate predicate Installed(props: LayerProps, e: Engine)
      reads this, e
      requires props.options.layerType.Some?
    {
      var cid := mapHook.componentId;
      var spec := BuildSpec(props, layerId);
      var beforeId := BeforeId(props, old(e.firstSymbolLayer));
      var added := Accepts(old(e.layers), old(e.sources), spec, beforeId);
      && e.calls == old(e.calls) + [AddLayerCall(spec, beforeId, cid)]
      && e.layers == (if added then old(e.layers)[layerId := LayerInfo(props.options.layerType.value, cid)] else old(e.layers))
      && e.sources == (if added then WithLayerSource(old(e.sources), spec) else old(e.sources))
      && e.handlers == old(e.handlers) + HandlerRegs(props, layerId, cid)
      && e.cancelled == old(e.cancelled) && e.firstSymbolLayer == old(e.firstSymbolLayer)
      && e.bearing == old(e.bearing) && e.bearingReadable == old(e.bearingReadable)
      && initialized
      && layerType == props.options.layerType.value
      && paintConf == Serialize(props.options.paint)
      && layoutConf == Serialize(props.options.layout)
      && layer == LayerAt(e.layers, layerId)
      && sourceWaiter == old(sourceWaiter)
    }

    method Install(props: LayerProps, e: Engine)
      requires Valid() && props.options.layerType.Some?
      modifies this, e
      ensures Valid()
      ensures Installed(props, e)
    {
      var cid := mapHook.componentId;
      initialized := true;
      // the hook only logs a refused addLayer; the flag stays set
      var added := e.AddLayer(BuildSpec(props, layerId), BeforeId(props, e.firstSymbolLayer), cid);
      layer := LayerAt(e.layers, layerId);
      RegisterHandlers(props, e);
      paintConf := Serialize(props.options.paint);
      layoutConf := Serialize(props.options.layout);
      layerType := props.options.layerType.value;
    }

    /** The `on` calls of `setLayer`'s handlers and of the style-change restore. */
    method RegisterHandlers(props: LayerProps, e: Engine)
      modifies e
      ensures e.handlers == old(e.handlers) + HandlerRegs(props, layerId, mapHook.componentId)
      ensures e.layers == old(e.layers) && e.sources == old(e.sources) && e.calls == old(e.calls)
      ensures e.cancelled == old(e.cancelled) && e.firstSymbolLayer == old(e.firstSymbolLayer)
      ensures e.bearing == old(e.bearing) && e.bearingReadable == old(e.bearingReadable)
    {
      var cid := mapHook.componentId;
      if props.onHover.Some? {
        e.On("mousemove", Some(layerId), props.onHover.value, Some(cid));
      }
      if props.onClick.Some? {
        e.On("click", Some(layerId), props.onClick.value, Some(cid));
      }
      if props.onLeave.Some? {
        e.On("mouseleave", Some(layerId), props.onLeave.value, Some(cid));
      }
      e.On("styledata", None, RestoreLayer(layerId), Some(cid));
    }

    method CreateLayer(props: LayerProps)
      requires Valid()
      modifies this, mapHook, mapHook.boundMap
      ensures Valid()
      ensures CreateLayerDone(props)
    {
      var e := mapHook.boundMap;
      if e == null || e.cancelled {
        return;
      }
      ClearStale(props, e);
      ghost var deferral := Deferral(props, e.sources.Keys);
      if props.options.source.Named? {
        if props.options.source.name == "" || props.options.source.name !in e.sources {
          assert deferral == Some(SourceMissing);
          return;
        }
      }
      if !props.options.source.Named? && props.geojson.None? && !HasData(props.options.source)
         && props.options.layerType != Some("background") {
        assert deferral == Some(NoData);
        return;
      }
      if props.options.layerType.None? {
        assert deferral == Some(NoType);
        return;
      }
      assert deferral.None?;
      Install(props, e);
    }

    /** The `for (key in next)` loop of one half of the diff effect. */
    method PushChanged(e: Engine, kind: PropKind, next: Props, prev: Props)
      modifies e
      ensures e.calls == old(e.calls) + PushCalls(kind, layerId, next, prev)
      ensures e.OnlyLogged()
    {
      var i := 0;
      while i < |next|
        invariant 0 <= i <= |next|
        invariant e.calls == old(e.calls) + PushCalls(kind, layerId, next[..i], prev)
        invariant e.OnlyLogged()
      {
        var (key, v) := next[i];
        assert next[..i + 1][..i] == next[..i];
        if Truthy(v) && Lookup(prev, key) != Some(v) {
          match kind {
            case Paint => e.SetPaintProperty(layerId, key, v);
            case Layout => e.SetLayoutProperty(layerId, key, v);
          }
        }
        i := i + 1;
      }
      assert next[..|next|] == next;
    }

    /** The create effect: with a map and something to draw, it recreates the
        layer unless `KeepsLayer` says the existing one stands. */
    method CreateEffect(props: LayerProps) returns (attempted: bool)
      requires Valid()
      modifies this, mapHook, mapHook.boundMap
      ensures Valid()
      ensures var e := old(mapHook.boundMap);
        attempted <==>
          && e != null
          && (props.geojson.Some? || SourceTruthy(props.options.source) || props.options.layerType == Some("background"))
          && !KeepsLayer(old(e.cancelled), old(initialized), layerId in old(e.layers), props.options.layerType, old(layerType))
      ensures attempted ==> CreateLayerDone(props)
      ensures !attempted ==> unchanged(this, mapHook) && (old(mapHook.boundMap) != null ==> unchanged(old(mapHook.boundMap)))
    {
      attempted := false;
      var e := mapHook.boundMap;
      if e == null {
        return;
      }
      if props.geojson.None? && !SourceTruthy(props.options.source) && props.options.layerType != Some("background") {
        return;
      }
      if KeepsLayer(e.cancelled, initialized, layerId in e.layers, props.options.layerType, layerType) {
        return;
      }
      attempted := true;
      CreateLayer(props);
    }

    /** The data effect: new `geojson` goes to the source of the layer's id. */
    method DataEffect(props: LayerProps) returns (applied: bool)
      modifies mapHook.boundMap
      ensures var e := old(mapHook.boundMap);
        applied <==> e != null && !old(e.cancelled) && initialized && layerId in old(e.sources)
      ensures applied ==> var e := mapHook.boundMap;
        && e.sources == (if old(e.sources)[layerId].geojson then old(e.sources)[layerId := SourceInfo(true, props.geojson)] else old(e.sources))
        && e.calls == old(e.calls) + (if old(e.sources)[layerId].geojson then [SetDataCall(layerId, props.geojson)] else [])
        && e.layers == old(e.layers) && e.handlers == old(e.handlers)
        && e.cancelled == old(e.cancelled) && e.firstSymbolLayer == old(e.firstSymbolLayer)
        && e.bearing == old(e.bearing) && e.bearingReadable == old(e.bearingReadable)
      ensures !applied && old(mapHook.boundMap) != null ==> unchanged(old(mapHook.boundMap))
    {
      applied := false;
      var e := mapHook.boundMap;
      if e == null || e.cancelled || !initialized || layerId !in e.sources {
        return;
      }
      applied := true;
      e.SetData(layerId, props.geojson);
    }

    /** The diff effect: on the hook's own live layer of unchanged type, what
        `Diff` says; elsewhere nothing. */
    method DiffEffect(props: LayerProps) returns (threw: bool)
      requires Valid()
      modifies this, mapHook.boundMap
      ensures Valid()
      ensures var e := old(mapHook.boundMap);
        var live := e != null && !old(e.cancelled) && layerId in old(e.layers) && old(initialized)
                    && props.options.layerType == Some(old(layerType));
        && (!live ==> !threw && unchanged(this) && (e != null ==> unchanged(e)))
        && (live ==>
              var d := Diff(layerId, props.options, old(layoutConf), old(paintConf));
              && e.calls == old(e.calls) + d.calls && e.OnlyLogged()
              && layoutConf == d.layoutConf && paintConf == d.paintConf && threw == d.threw
              && initialized == old(initialized) && layerType == old(layerType)
              && layer == old(layer) && sourceWaiter == old(sourceWaiter))
      ensures threw ==> old(layoutConf) == Undefined || old(paintConf) == Undefined
    {
      threw := false;
      var e := mapHook.boundMap;
      if e == null || e.cancelled || layerId !in e.layers || !initialized || props.options.layerType != Some(layerType) {
        return;
      }
      threw := ApplyDiff(e, props.options);
    }

    /** Both halves of the diff on the hook's live layer, layout then paint; a
        layout throw stops the effect before the paint half. */
    method ApplyDiff(e: Engine, options: Options) returns (threw: bool)
      requires Valid() && initialized
      modifies this, e
      ensures Valid()
      ensures var d := Diff(layerId, options, old(layoutConf), old(paintConf));
        && e.calls == old(e.calls) + d.calls && e.OnlyLogged()
        && layoutConf == d.layoutConf && paintConf == d.paintConf && threw == d.threw
      ensures initialized == old(initialized) && layerType == old(layerType)
      ensures layer == old(layer) && sourceWaiter == old(sourceWaiter)
      ensures threw ==> old(layoutConf) == Undefined || old(paintConf) == Undefined
    {
      ghost var calls0 := e.calls;
      var layoutStep := NoChange;
      if options.layout.Some? {
        layoutStep := SyncHalf(e, Layout, options.layout, layoutConf);
      }
      assert layoutStep == LayoutStep(layerId, options.layout, layoutConf);
      assert e.calls == calls0 + StepCalls(layoutStep);
      if layoutStep.ParseFailure? {
        assert e.calls == calls0;
        threw := true;
        return;
      }
      layoutConf := StepSnapshot(layoutStep, layoutConf);
      var paintStep := SyncHalf(e, Paint, options.paint, paintConf);
      assert Diff(layerId, options, old(layoutConf), paintConf)
          == DiffOutcome(StepCalls(layoutStep) + StepCalls(paintStep), layoutConf,
                         StepSnapshot(paintStep, paintConf), paintStep.ParseFailure?);
      AppendAssoc(calls0, StepCalls(layoutStep), StepCalls(paintStep));
      paintConf := StepSnapshot(paintStep, paintConf);
      threw := paintStep.ParseFailure?;
    }

    /** One half of the diff effect: compare the serialised object with the
        snapshot, parse the snapshot (the step is a throw when that fails) and
        push the changed keys. */
    method SyncHalf(e: Engine, kind: PropKind, next: Option<Props>, snapshot: Snapshot) returns (s: Step)
      modifies e
      ensures s == SyncStep(kind, layerId, next, snapshot)
      ensures e.calls == old(e.calls) + StepCalls(s) && e.OnlyLogged()
    {
      if Serialize(next) == snapshot {
        return NoChange;
      }
      var prev := Parse(snapshot);
      if prev.None? {
        return ParseFailure;
      }
      PushChanged(e, kind, Entries(next), prev.value);
      s := Pushed(PushCalls(kind, layerId, Entries(next), prev.value), Serialize(next));
    }

    /** The order effect: move the layer before `insertBeforeLayer` once both exist. */
    method MoveEffect(props: LayerProps) returns (moved: bool)
      modifies mapHook.boundMap
      ensures var e := old(mapHook.boundMap);
        moved <==>
          && Present(props.insertBeforeLayer) && e != null
          && props.insertBeforeLayer.value in old(e.layers) && layerId in old(e.layers)
      ensures moved ==>
        && mapHook.boundMap.calls == old(mapHook.boundMap.calls) + [MoveLayerCall(layerId, props.insertBeforeLayer.value)]
        && mapHook.boundMap.OnlyLogged()
      ensures !moved && old(mapHook.boundMap) != null ==> unchanged(old(mapHook.boundMap))
    {
      moved := false;
      var e := mapHook.boundMap;
      if !Present(props.insertBeforeLayer) || e == null || props.insertBeforeLayer.value !in e.layers || layerId !in e.layers {
        return;
      }
      moved := true;
      e.MoveLayer(layerId, props.insertBeforeLayer.value);
    }

    /** The style-change handler: recreate the layer once it is gone. */
    method OnStyleData(props: LayerProps) returns (recreated: bool)
      requires Valid()
      modifies this, mapHook, mapHook.boundMap
      ensures Valid()
      ensures recreated <==> old(initialized) && (old(mapHook.boundMap) == null || layerId !in old(mapHook.boundMap.layers))
      ensures recreated ==> CreateLayerDone(props)
      ensures !recreated ==> unchanged(this, mapHook) && (old(mapHook.boundMap) != null ==> unchanged(old(mapHook.boundMap)))
    {
      recreated := false;
      var e := mapHook.boundMap;
      if initialized && (e == null || layerId !in e.layers) {
        recreated := true;
        CreateLayer(props);
      }
    }

    /** The source-wait effect: with a named source and a map on which the layer
        or that source is still missing, wait for `sourcedata`. The registration
        carries no owner tag. */
    method AttachSourceWaiter(props: LayerProps) returns (attached: bool)
      requires sourceWaiter == null
      modifies this, mapHook.boundMap
      ensures var e := old(mapHook.boundMap);
        attached <==>
          && props.options.source.Named? && e != null
          && !(layerId in old(e.layers) && props.options.source.name in old(e.sources))
      ensures attached ==> var e := mapHook.boundMap;
        && sourceWaiter == e
        && e.handlers == old(e.handlers) + [Handler("sourcedata", None, AwaitSource(layerId), None)]
        && e.OnlyHandlers()
      ensures !attached && old(mapHook.boundMap) != null ==> unchanged(old(mapHook.boundMap))
      ensures !attached ==> sourceWaiter == null
      ensures initialized == old(initialized) && layerType == old(layerType) && layer == old(layer)
      ensures paintConf == old(paintConf) && layoutConf == old(layoutConf)
    {
      attached := false;
      var e := mapHook.boundMap;
      if !props.options.source.Named? || e == null || (layerId in e.layers && props.options.source.name in e.sources) {
        return;
      }
      attached := true;
      e.On("sourcedata", None, AwaitSource(layerId), None);
      sourceWaiter := e;
    }

    /** The waiter's cleanup: `off` on the map it was attached to. */
    method DetachSourceWaiter()
      modifies this, sourceWaiter
      ensures sourceWaiter == null
      ensures old(sourceWaiter) != null ==>
        && old(sourceWaiter).handlers == WithoutListener(old(sourceWaiter.handlers), "sourcedata", AwaitSource(layerId))
        && old(sourceWaiter).OnlyHandlers()
      ensures initialized == old(initialized) && layerType == old(layerType) && layer == old(layer)
      ensures paintConf == old(paintConf) && layoutConf == old(layoutConf)
    {
      if sourceWaiter != null {
        sourceWaiter.Off("sourcedata", AwaitSource(layerId));
      }
      sourceWaiter := null;
    }

    /** The `sourcedata` handler: create the layer once the named source exists. */
    method OnSourceData(props: LayerProps) returns (created: bool)
      requires Valid()
      modifies this, mapHook, mapHook.boundMap
      ensures Valid()
      ensures var e := old(mapHook.boundMap);
        created <==> props.options.source.Named? && e != null && props.options.source.name in old(e.sources)
      ensures created ==> CreateLayerDone(props)
      ensures !created ==> unchanged(this, mapHook) && (old(mapHook.boundMap) != null ==> unchanged(old(mapHook.boundMap)))
    {
      created := false;
      var e := mapHook.boundMap;
      if props.options.source.Named? && e != null && props.options.source.name in e.sources {
        created := true;
        CreateLayer(props);
      }
    }

    /** The unmount effect of the layer hook. */
    method Unmount()
      requires Valid()
      modifies this, mapHook, mapHook.mapRef
      ensures Valid() && !initialized && !mapHook.initialized
      ensures mapHook.boundMap == old(mapHook.boundMap) && mapHook.mapRef == old(mapHook.mapRef)
      ensures mapHook.mapIsReady == old(mapHook.mapIsReady)
      ensures old(mapHook.mapRef) != null ==> old(mapHook.mapRef).CleanedUp(mapHook.componentId)
      ensures sourceWaiter == old(sourceWaiter) && layer == old(layer)
      ensures layerType == old(layerType) && paintConf == old(paintConf) && layoutConf == old(layoutConf)
    {
      initialized := false;
      mapHook.Cleanup();
    }

    /** Unmounting the component: the map binding's unmount effect, then the layer
        hook's, then the waiter's cleanup. No layer or registration of the hook
        stays on the map it held, and no waiter on the map it waited on. */
    method Teardown()
      requires Valid()
      modifies this, mapHook, mapHook.mapRef, sourceWaiter
      ensures Valid() && !initialized && !mapHook.initialized && !mapHook.mapIsReady
      ensures mapHook.mapRef == null && sourceWaiter == null
      ensures mapHook.boundMap == old(mapHook.boundMap) && layer == old(layer) && layerType == old(layerType)
      ensures paintConf == old(paintConf) && layoutConf == old(layoutConf)
      ensures var e := old(mapHook.mapRef); var cid := mapHook.componentId;
        e != null ==>
          && e.layers == Unowned(old(e.layers), cid)
          && e.handlers == (if old(sourceWaiter) == e
                            then WithoutListener(WithoutOwner(old(e.handlers), cid), "sourcedata", AwaitSource(layerId))
                            else WithoutOwner(old(e.handlers), cid))
          && e.calls == old(e.calls) + [CleanupCall(cid)]
          && e.sources == old(e.sources) && e.cancelled == old(e.cancelled) && e.firstSymbolLayer == old(e.firstSymbolLayer)
          && e.bearing == old(e.bearing) && e.bearingReadable == old(e.bearingReadable)
      ensures var e := old(mapHook.mapRef); var w := old(sourceWaiter);
        w != null && w != e ==>
          && w.handlers == WithoutListener(old(w.handlers), "sourcedata", AwaitSource(layerId))
          && w.OnlyHandlers()
      ensures var e := old(mapHook.mapRef);
        e != null ==>
          && (forall h :: h in e.handlers ==> h.owner != Some(mapHook.componentId))
          && (forall id :: id in e.layers ==> e.layers[id].owner != mapHook.componentId)
      ensures var w := old(sourceWaiter);
        w != null ==> forall h :: h in w.handlers ==> !(h.event == "sourcedata" && h.callback == AwaitSource(layerId))
    {
      mapHook.Unmount();
      Unmount();
      DetachSourceWaiter();
    }
  }
}
