/** The GeoJSON layer component: it composes the argument of the layer hook from
    its own props (type, paint, layout, overrides, id) and, on a map it binds to,
    sets the view once. */
module GeoJsonLayer {
  import opened Values
  import opened Engine
  import opened UseMap
  import opened UseLayer

  /** Per-type paint overrides handed to the default paint helper. */
  datatype DefaultPaintOverrides = DefaultPaintOverrides(circle: Option<Props>, fill: Option<Props>, line: Option<Props>)

  /** The keys the `options` prop sets; each one given wins over the composed value. */
  datatype Overrides = Overrides(
    layerType: Option<string>,
    source: Source,
    paint: Option<Props>,
    layout: Option<Props>,
    id: Option<string>)

  datatype GeoJsonLayerProps = GeoJsonLayerProps(
    mapId: Option<string>,
    insertBeforeLayer: Option<string>,
    layerId: Option<string>,
    geojson: Option<GeoJson>,
    layerType: Option<string>,
    paint: Option<Props>,
    layout: Option<Props>,
    options: Option<Overrides>,
    defaultPaintOverrides: Option<DefaultPaintOverrides>,
    onHover: Option<Callback>,
    onClick: Option<Callback>,
    onLeave: Option<Callback>)

  /** The helper that picks a layer type from the geometry. */
  type DefaultType = Option<GeoJson> -> string
  /** The helper that gives the default paint object of a layer type. */
  type DefaultPaint = (string, Option<DefaultPaintOverrides>) -> Option<Props>

  /** The `type` prop when given, else the geometry's default. */
  function LayerType(p: GeoJsonLayerProps, defaultType: DefaultType): (r: string)
    ensures Present(p.layerType) ==> r == p.layerType.value
    ensures !Present(p.layerType) ==> r == defaultType(p.geojson)
  {
    if Present(p.layerType) then p.layerType.value else defaultType(p.geojson)
  }

  /** The `options` object: `paint` and `layout` first, then the spread overrides,
      then the type. */
  function ComposeOptions(p: GeoJsonLayerProps, defaultType: DefaultType, defaultPaint: DefaultPaint): (r: Options)
    ensures r.layerType == Some(LayerType(p, defaultType))
    ensures p.options.Some? && p.options.value.paint.Some? ==> r.paint == p.options.value.paint
    ensures (p.options.None? || p.options.value.paint.None?) && p.paint.Some? ==> r.paint == p.paint
    ensures (p.options.None? || p.options.value.paint.None?) && p.paint.None? ==>
      r.paint == defaultPaint(LayerType(p, defaultType), p.defaultPaintOverrides)
    ensures p.options.Some? && p.options.value.layout.Some? ==> r.layout == p.options.value.layout
    ensures (p.options.None? || p.options.value.layout.None?) ==> r.layout == (if p.layout.Some? then p.layout else Some([]))
    ensures r.source == (if p.options.Some? then p.options.value.source else NoSource)
    ensures r.id == (if p.options.Some? then p.options.value.id else None)
  {
    var t := LayerType(p, defaultType);
    var paint := if p.paint.Some? then p.paint else defaultPaint(t, p.defaultPaintOverrides);
    var layout := if p.layout.Some? then p.layout else Some([]);
    match p.options
    case None => Options(Some(t), NoSource, paint, layout, None)
    case Some(o) =>
      Options(
        Some(t),
        o.source,
        if o.paint.Some? then o.paint else paint,
        if o.layout.Some? then o.layout else layout,
        o.id)
  }

  /** The argument handed to the layer hook; `uuid` is the id minted at this render. */
  function UseLayerArgs(p: GeoJsonLayerProps, uuid: string, defaultType: DefaultType, defaultPaint: DefaultPaint): (r: LayerProps)
    ensures r.options == ComposeOptions(p, defaultType, defaultPaint)
    ensures r.layerId == Some(if Present(p.layerId) then p.layerId.value else "MlGeoJsonLayer-" + uuid)
    ensures r.mapId == p.mapId && r.geojson == p.geojson && r.insertBeforeLayer == p.insertBeforeLayer
    ensures r.onHover == p.onHover && r.onClick == p.onClick && r.onLeave == p.onLeave
    ensures r.idPrefix.None? && !r.insertBeforeFirstSymbolLayer
  {
    LayerProps(
      p.mapId,
      Some(if Present(p.layerId) then p.layerId.value else "MlGeoJsonLayer-" + uuid),
      None,
      p.insertBeforeLayer,
      false,
      p.geojson,
      ComposeOptions(p, defaultType, defaultPaint),
      p.onHover,
      p.onClick,
      p.onLeave)
  }

  /** The type always comes from the component, so the hook never defers
      creation for a missing type, and the added layer carries that type even
      when the overrides set another one. */
  lemma ComposedTypeWins(p: GeoJsonLayerProps, uuid: string, defaultType: DefaultType, defaultPaint: DefaultPaint,
                         sources: set<string>, layerId: string)
    ensures var r := UseLayerArgs(p, uuid, defaultType, defaultPaint);
      && Deferral(r, sources) != Some(NoType)
      && BuildSpec(r, layerId).layerType == Some(LayerType(p, defaultType))
  {
  }

  /** The composed layout is always an object, so the layout half of the diff
      effect always takes part. */
  lemma ComposedLayoutIsDefined(p: GeoJsonLayerProps, uuid: string, defaultType: DefaultType, defaultPaint: DefaultPaint)
    ensures UseLayerArgs(p, uuid, defaultType, defaultPaint).options.layout.Some?
  {
  }

  /** The hook keeps the composed id as its layer id; without a `layerId` prop it
      is the component prefix followed by the minted id. */
  lemma {:induction false} ComposedLayerIdIsKept(p: GeoJsonLayerProps, uuid: string, defaultType: DefaultType,
                                                 defaultPaint: DefaultPaint, componentId: string)
    ensures var id := ChooseLayerId(UseLayerArgs(p, uuid, defaultType, defaultPaint).layerId, None, componentId);
      && (Present(p.layerId) ==> id == p.layerId.value)
      && (!Present(p.layerId) ==> id[..15] == "MlGeoJsonLayer-" && id[15..] == uuid)
  {
    var r := UseLayerArgs(p, uuid, defaultType, defaultPaint);
    var id := ChooseLayerId(r.layerId, None, componentId);
    if !Present(p.layerId) {
      assert Present(r.layerId) by {
        assert |"MlGeoJsonLayer-" + uuid| >= 15;
      }
      assert id == "MlGeoJsonLayer-" + uuid;
    }
  }

  /** With data and no source override, the added layer gets a GeoJSON source
      built from the data with an empty attribution. */
  lemma DataWithoutSourceIsSynthesized(p: GeoJsonLayerProps, uuid: string, defaultType: DefaultType,
                                       defaultPaint: DefaultPaint, layerId: string)
    requires p.geojson.Some? && (p.options.None? || p.options.value.source == NoSource)
    ensures BuildSpec(UseLayerArgs(p, uuid, defaultType, defaultPaint), layerId).source
         == Inline(Some("geojson"), p.geojson, Some(""))
  {
  }

  /** The component's own map binding and its one-shot view flag. */
  class GeoJsonLayerView {
    const mapHook: MapHook
    var initialized: bool

    constructor (mapHook: MapHook)
      ensures this.mapHook == mapHook && !initialized
    {
      this.mapHook := mapHook;
      initialized := false;
    }

    /** The view effect: on the first run with a map, centre it and zoom to 15. */
    method ViewEffect() returns (ran: bool)
      modifies this, mapHook.boundMap
      ensures ran <==> old(mapHook.boundMap) != null && !old(initialized)
      ensures ran ==> initialized && mapHook.boundMap.calls == old(mapHook.boundMap.calls) + [SetCenterCall, SetZoomCall(15)]
      ensures ran ==> mapHook.boundMap.OnlyLogged()
      ensures !ran ==> unchanged(this) && (old(mapHook.boundMap) != null ==> unchanged(old(mapHook.boundMap)))
    {
      ran := false;
      var e := mapHook.boundMap;
      if e == null || initialized {
        return;
      }
      initialized := true;
      ran := true;
      e.SetCenter();
      e.SetZoom(15);
    }
  }

  /** Two runs of the view effect set the view at most once. */
  method ViewEffectRunsOnce(v: GeoJsonLayerView)
    modifies v, v.mapHook.boundMap
    ensures var e := v.mapHook.boundMap;
      e != null ==> e.calls == old(e.calls) + (if old(v.initialized) then [] else [SetCenterCall, SetZoomCall(15)])
  {
    var first := v.ViewEffect();
    var second := v.ViewEffect();
    assert !second;
  }
}
