/** The map binding `useMap`: a one-shot subscription that resolves to the map of
    `mapId` once the registry has it and, when asked to wait for a layer, once
    that layer is listed; it stays resolved until `cleanup` resets it. */
module UseMap {
  import opened Values
  import opened Engine

  /** An entry of the watched layer list of the map state. */
  datatype LayerState = LayerState(id: string)

  /** The registry of maps by id (`mapExists`, `getMap`); an absent `mapId` is a key of its own. */
  datatype MapContext = MapContext(maps: map<Option<string>, Engine>)

  /** The layer list is watched only when there is a layer to wait for. */
  predicate WatchesLayers(waitForLayer: Option<string>)
  {
    Present(waitForLayer)
  }

  ghost predicate Listed(layers: seq<LayerState>, id: string)
  {
    exists i :: 0 <= i < |layers| && layers[i].id == id
  }

  /** The `forEach` over the watched layers that raises `layerFound`. */
  method FindLayer(layers: seq<LayerState>, id: string) returns (found: bool)
    ensures found <==> Listed(layers, id)
  {
    found := false;
    var i := 0;
    while i < |layers|
      invariant 0 <= i <= |layers|
      invariant found <==> exists j :: 0 <= j < i && layers[j].id == id
    {
      if layers[i].id == id {
        found := true;
      }
      i := i + 1;
    }
  }

  class MapHook {
    /** Minted once per hook instance. */
    const componentId: string
    var initialized: bool
    var mapRef: Engine?
    /** The `map` state handed to the caller. */
    var boundMap: Engine?
    var mapIsReady: bool

    ghost predicate Valid()
      reads this
    {
      mapRef != null ==> mapRef == boundMap
    }

    constructor (componentId: string)
      ensures Valid() && this.componentId == componentId
      ensures !initialized && mapRef == null && boundMap == null && !mapIsReady
    {
      this.componentId := componentId;
      initialized := false;
      mapRef := null;
      boundMap := null;
      mapIsReady := false;
    }

    /** The resolve effect: nothing happens once initialised, nor before the map
        exists, nor, when waiting for a layer, before that layer is listed. */
    method Resolve(context: MapContext, mapId: Option<string>, waitForLayer: Option<string>, layers: seq<LayerState>)
      returns (resolved: bool)
      requires Valid()
      modifies this
      ensures Valid()
      ensures resolved <==>
        && !old(initialized)
        && mapId in context.maps
        && (WatchesLayers(waitForLayer) ==> Listed(layers, waitForLayer.value))
      ensures resolved ==> initialized && mapIsReady && mapRef == context.maps[mapId] && boundMap == mapRef
      ensures !resolved ==> unchanged(this)
    {
      resolved := false;
      if mapId !in context.maps || initialized {
        return;
      }
      if Present(waitForLayer) {
        var layerFound := FindLayer(layers, waitForLayer.value);
        if !layerFound {
          return;
        }
      }
      initialized := true;
      mapRef := context.maps[mapId];
      boundMap := mapRef;
      mapIsReady := true;
      resolved := true;
    }

    /** `cleanup`: the wrapper's cleanup for this hook's id when a map is held,
        and in every case a reset of the one-shot flag. */
    method Cleanup()
      requires Valid()
      modifies this, mapRef
      ensures Valid() && !initialized
      ensures boundMap == old(boundMap) && mapRef == old(mapRef) && mapIsReady == old(mapIsReady)
      ensures old(mapRef) != null ==> old(mapRef).CleanedUp(componentId)
    {
      if mapRef != null {
        mapRef.Cleanup(componentId);
      }
      initialized := false;
    }

    /** The unmount effect. */
    method Unmount()
      requires Valid()
      modifies this, mapRef
      ensures Valid() && !initialized && !mapIsReady && mapRef == null && boundMap == old(boundMap)
      ensures old(mapRef) != null ==> old(mapRef).CleanedUp(componentId)
    {
      Cleanup();
      mapIsReady := false;
      mapRef := null;
    }
  }

  /** After resolving, a further evaluation with any inputs changes nothing until `cleanup`. */
  method ResolveIsOneShot(hook: MapHook, context: MapContext, mapId: Option<string>, waitForLayer: Option<string>,
                          layers: seq<LayerState>, laterContext: MapContext, laterMapId: Option<string>,
                          laterWait: Option<string>, laterLayers: seq<LayerState>)
    requires hook.Valid() && !hook.initialized
    requires mapId in context.maps && (WatchesLayers(waitForLayer) ==> Listed(layers, waitForLayer.value))
    modifies hook
    ensures hook.initialized && hook.mapIsReady
    ensures hook.mapRef == context.maps[mapId] && hook.boundMap == context.maps[mapId]
  {
    var first := hook.Resolve(context, mapId, waitForLayer, layers);
    var second := hook.Resolve(laterContext, laterMapId, laterWait, laterLayers);
    assert !second;
  }
}
