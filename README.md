# A verified model of the layer hooks of react-map-components-maplibre

The library wraps MapLibre GL maps in React components. Its core is two hooks:
- `useMap` binds a component to a map from the map registry. It resolves once, when that map exists and, if asked, once a given layer is listed. It stays resolved until its `cleanup` runs.
- `useLayer` reconciles one declared layer against that map. It decides when a layer may be created and builds the `addLayer` specification: the source is resolved three ways, and the insertion point follows a fixed order of precedence. It registers the event handlers and records the type and the serialised paint and layout. Later it pushes only the paint and layout keys that changed. It recreates the layer when its type changes or when a style reload drops it, and it waits for a named source that is not there yet.

Two components sit on top of the hooks:
- `MlGeoJsonLayer` composes the `useLayer` argument by a precedence rule and sets the view once.
- `MlNavigationCompass` turns the map through four headings and draws its needle against the bearing.

The map itself (the MapLibre wrapper and the map inside it) is modelled as the class `Engine.Engine`. It holds:
- the layers, each with its type and owner tag;
- the sources;
- a table of handler registrations;
- a log of the mutating calls the hooks issue;
- the bearing.

Each React effect is a method of a hook class. A ref is a field of that class, and the props a closure captured are a parameter. The caller decides when an effect runs.

Files:
- `values.dfy`: property values and their truthiness, paint and layout objects, and the serialised snapshot standing for `JSON.stringify`.
- `engine.dfy`: the map.
- `use_map.dfy`: `useMap`.
- `use_layer.dfy`: `useLayer`.
- `geojson_layer.dfy`: `MlGeoJsonLayer`.
- `navigation_compass.dfy`: `MlNavigationCompass`.

## Model

| member | source | states |
|---|---|---|
| `Values.Lookup` | src/hooks/useLayer.ts:229 | `obj[key]` is defined exactly when the object has that key, and it then gives a value stored under it |
| `Values.LookupEntry` | src/hooks/useLayer.ts:240 | in an object with distinct keys, looking up an entry's key gives that entry's value |
| `Values.Serialize` | src/hooks/useLayer.ts:176-177 | a stored snapshot is never the refs' initial `''`; it is object text exactly when the object is defined |
| `Values.Parse` | src/hooks/useLayer.ts:226 | parsing a snapshot succeeds exactly when it is object text (it throws on `''` and on `undefined`) |
| `Engine.Engine.Cleanup` | src/hooks/useMap.ts:42 | the model's chosen behaviour for the wrapper's cleanup of an owner (the wrapper is not part of this model): it drops that owner's layers and registrations and keeps every source and every other field |
| `UseMap.FindLayer` | src/hooks/useMap.ts:60-71 | the `forEach` raises the flag exactly when some watched layer has the awaited id |
| `UseMap.MapHook.constructor` | src/hooks/useMap.ts:32-38 | the component id is fixed for the life of the hook; the binding starts unresolved, without a map, not ready |
| `UseMap.MapHook.Resolve` | src/hooks/useMap.ts:55-78 | it resolves exactly when it is not yet initialised, the map exists and, if it waits for a layer, that layer is listed; resolving sets the flag, the ref, the map and readiness; otherwise nothing changes |
| `UseMap.MapHook.Cleanup` | src/hooks/useMap.ts:40-45 | the wrapper's cleanup runs for the component id only when a map ref is held, and the flag is always reset |
| `UseMap.MapHook.Unmount` | src/hooks/useMap.ts:47-53 | cleanup, then not ready and no map ref |
| `UseMap.ResolveIsOneShot` | src/hooks/useMap.ts:55-78 | a first evaluation whose map exists (and whose awaited layer, if any, is listed) resolves to that map, ref and binding both, and ready; a later evaluation with any inputs changes nothing |
| `UseLayer.LegalTypesAreTheNine` | src/hooks/useLayer.ts:54-64 | a type is legal exactly when it is one of the nine MapLibre layer types; an undefined type is not |
| `UseLayer.ChooseLayerId` | src/hooks/useLayer.ts:79-81 | the `layerId` prop when given, else the `idPrefix` or `Layer-` followed by the component id |
| `UseLayer.GeneratedIdsDiffer` | src/hooks/useLayer.ts:79-81 | without a `layerId` prop, distinct component ids give distinct layer ids |
| `UseLayer.Deferral` | src/hooks/useLayer.ts:93-109 | creation stops for an empty or missing named source; for a non-named source with no data and a type other than `background`; and for a missing type; otherwise it goes ahead (each case in both directions) |
| `UseLayer.BuildSpec` | src/hooks/useLayer.ts:114-140 | the spec has the hook's id whatever `options.id` says, the declared type, paint and layout; a named source is kept as is; a GeoJSON source is synthesised from `geojson` when there is no source or only an attribution; anything else is kept |
| `UseLayer.BeforeId` | src/hooks/useLayer.ts:141-145 | `insertBeforeLayer` when given, else the first symbol layer when asked for, else none |
| `UseLayer.ReadySpecIsAccepted` | src/hooks/useLayer.ts:113-147 | an undeferred spec on a free id, with an existing insertion point, is taken by the map |
| `UseLayer.HandlerRegs` | src/hooks/useLayer.ts:166-174 | the last registration is the style-change restore of this layer |
| `UseLayer.HandlerRegsShape` | src/hooks/useLayer.ts:153-163 | every registration carries the owner tag; a hover, click or leave registration exists exactly for a given handler; all but the last are scoped to the layer |
| `UseLayer.KeepsLayer` | src/hooks/useLayer.ts:185-194 | an existing layer is kept only on a live map, once initialised; a change to another legal type always recreates; an illegal or unchanged type keeps it |
| `UseLayer.PushCalls` | src/hooks/useLayer.ts:228-232 | the reference definition of one `for (key in …)` loop: at most one call per entry; `PushChanged` is proved to issue exactly these calls, and `PushCallsExactly`, `PushCallsShape` and `PushCallsUnchanged` state what they are |
| `UseLayer.PushCallsShape` | src/hooks/useLayer.ts:228-232 | every call of one loop is a paint set (or a layout set) on the hook's layer id |
| `UseLayer.PushCallsExactly` | src/hooks/useLayer.ts:239-243 | a property-set call is issued exactly for a new entry whose value is truthy and differs from the old value of that key |
| `UseLayer.PushCallsUnchanged` | src/hooks/useLayer.ts:239-243 | entries that all hold their old values issue no call |
| `UseLayer.PushCallsOnSelf` | src/hooks/useLayer.ts:236-245 | diffing an object against itself issues no call |
| `UseLayer.OnlyTruthyDeclaredKeysPushed` | src/hooks/useLayer.ts:240 | a key absent from the new object, or a falsy value, is never set |
| `UseLayer.AddedKeyScenario` | src/hooks/useLayer.ts:239-243 | adding `opacity: 0.5` beside an unchanged `color` sets `opacity` alone |
| `UseLayer.SyncStep` | src/hooks/useLayer.ts:236-245 | no change exactly when the text equals the snapshot; a throw exactly when it differs and the snapshot does not parse; otherwise the loop's calls and the new snapshot |
| `UseLayer.LayoutStep` | src/hooks/useLayer.ts:224-234 | the layout half runs only for a defined layout |
| `UseLayer.ReapplyIsQuiet` | src/hooks/useLayer.ts:233 | after a half that did not throw, the same object again gives no change |
| `UseLayer.Diff` | src/hooks/useLayer.ts:222-245 | the reference definition `DiffEffect` is proved to follow: it throws exactly when a half whose text changed has a stored snapshot that is not object text; without a throw the snapshots become the declared objects' text (the layout only when defined); unchanged text gives no call and keeps the snapshots |
| `UseLayer.DiffCallsShape` | src/hooks/useLayer.ts:222-245 | every call of the diff is a paint or layout set on the hook's layer id |
| `UseLayer.FreshLayerDiffIsQuiet` | src/hooks/useLayer.ts:176-177 | right after creation the diff of the same options issues nothing and does not throw |
| `UseLayer.DiffReapplyIsQuiet` | src/hooks/useLayer.ts:212-246 | after a diff that did not throw, diffing the same options again issues no call and keeps the snapshots |
| `UseLayer.LatePaintThrows` | src/hooks/useLayer.ts:237-238 | a layer created without paint throws, issuing no call, when paint is first declared |
| `UseLayer.LayerHook.constructor` | src/hooks/useLayer.ts:66-81 | the refs start empty and not initialised, and the layer id is chosen once from the props and the component id |
| `UseLayer.LayerHook.BindMap` | src/hooks/useLayer.ts:67-70 | the hook's map binding waits for `insertBeforeLayer`; when it resolves, the binding is initialised and holds the registry's map for `mapId` |
| `UseLayer.LayerHook.ClearStale` | src/hooks/useLayer.ts:86-91 | an existing layer is cleaned up through the binding, and a same-id source is removed unless the source is named |
| `UseLayer.LayerHook.Install` | src/hooks/useLayer.ts:111-178 | one `addLayer` with the built spec, `beforeId` and owner tag, taken or refused; the flag is set either way; then the registrations, the type and both snapshots are recorded |
| `UseLayer.LayerHook.RegisterHandlers` | src/hooks/useLayer.ts:153-174 | the handler registrations are appended in order and nothing else changes |
| `UseLayer.LayerHook.CreateLayer` | src/hooks/useLayer.ts:83-179 | on a missing or cancelled map nothing changes; otherwise the stale layer and source are cleared, and a deferred creation changes no ref; an undeferred one adds the layer and records the state |
| `UseLayer.LayerHook.PushChanged` | src/hooks/useLayer.ts:228-232 | the loop issues exactly the calls of the diff against the old object and changes nothing else |
| `UseLayer.LayerHook.CreateEffect` | src/hooks/useLayer.ts:181-197 | creation is attempted exactly with a map, something to draw, and no existing layer to keep; otherwise nothing changes |
| `UseLayer.LayerHook.DataEffect` | src/hooks/useLayer.ts:199-210 | `setData` reaches the same-id source exactly on a live map, once initialised, with that source present; only a GeoJSON source takes the data; only that source's data and the call log change |
| `UseLayer.LayerHook.DiffEffect` | src/hooks/useLayer.ts:212-246 | on a live, initialised layer of the recorded type the calls and snapshots follow the layout-then-paint diff; a throw comes only from a stored `undefined` snapshot; otherwise nothing changes |
| `UseLayer.LayerHook.ApplyDiff` | src/hooks/useLayer.ts:222-245 | on a live layer, the layout half and then the paint half leave exactly the calls, snapshots and throw of `Diff`; a throw comes only from a stored `undefined`; the other refs and the rest of the map are kept |
| `UseLayer.LayerHook.SyncHalf` | src/hooks/useLayer.ts:224-245 | one half of the diff is exactly `SyncStep`: it appends that step's calls and changes nothing else on the map |
| `UseLayer.LayerHook.MoveEffect` | src/hooks/useLayer.ts:248-258 | `moveLayer` is issued exactly when `insertBeforeLayer` is set and both layers exist |
| `UseLayer.LayerHook.OnStyleData` | src/hooks/useLayer.ts:166-172 | the layer is recreated exactly when initialised and the layer (or the map) is missing |
| `UseLayer.LayerHook.AttachSourceWaiter` | src/hooks/useLayer.ts:267-287 | the waiter is attached exactly for a named source on a map where the layer or that source is missing; attaching appends one `sourcedata` registration and changes nothing else on the map |
| `UseLayer.LayerHook.DetachSourceWaiter` | src/hooks/useLayer.ts:289-293 | the waiter's registration is removed from the map it was attached to, nothing else on that map changes, and the ref is cleared |
| `UseLayer.LayerHook.OnSourceData` | src/hooks/useLayer.ts:278-285 | creation runs exactly when the named source exists at the event; otherwise nothing changes |
| `UseLayer.LayerHook.Unmount` | src/hooks/useLayer.ts:260-265 | the flag is reset and the binding's cleanup runs; the layer id, the recorded type and both snapshots are kept |
| `UseLayer.LayerHook.Teardown` | src/hooks/useLayer.ts:260-294 | on the bound map: the layers are those of other owners, the registrations those of other owners less the waiter (when attached there), one cleanup call is logged, and cancellation, first symbol layer and bearing are kept; the sources are kept because of the choice made for the wrapper's cleanup, since the hooks issue no `removeSource` on unmount; a waiter on another map is removed from it alone; the hook's refs other than the flag and waiter are kept |
| `GeoJsonLayer.LayerType` | src/components/MlGeoJsonLayer/MlGeoJsonLayer.tsx:106 | the `type` prop when given, else the geometry default |
| `GeoJsonLayer.ComposeOptions` | src/components/MlGeoJsonLayer/MlGeoJsonLayer.tsx:112-117 | the type is always the component's; override paint and layout win over `paint` (else the default paint) and `layout` (else `{}`); source and id come from the overrides alone |
| `GeoJsonLayer.UseLayerArgs` | src/components/MlGeoJsonLayer/MlGeoJsonLayer.tsx:108-122 | the options are the composed ones; the id is `layerId` or `MlGeoJsonLayer-` with the minted id; the remaining props pass through |
| `GeoJsonLayer.ComposedTypeWins` | src/components/MlGeoJsonLayer/MlGeoJsonLayer.tsx:112-116 | creation is never deferred for a missing type, and the added layer carries the component's type |
| `GeoJsonLayer.ComposedLayoutIsDefined` | src/components/MlGeoJsonLayer/MlGeoJsonLayer.tsx:114 | the composed layout is always defined, so the layout diff always takes part |
| `GeoJsonLayer.ComposedLayerIdIsKept` | src/components/MlGeoJsonLayer/MlGeoJsonLayer.tsx:110 | the hook's layer id is the `layerId` prop, or the component prefix followed by the minted id |
| `GeoJsonLayer.DataWithoutSourceIsSynthesized` | src/components/MlGeoJsonLayer/MlGeoJsonLayer.tsx:111-117 | with data and no source override, the layer gets a GeoJSON source of that data with an empty attribution |
| `GeoJsonLayer.GeoJsonLayerView.ViewEffect` | src/components/MlGeoJsonLayer/MlGeoJsonLayer.tsx:131-139 | it centres the map and zooms to 15 exactly on the first run with a map; otherwise nothing changes |
| `GeoJsonLayer.ViewEffectRunsOnce` | src/components/MlGeoJsonLayer/MlGeoJsonLayer.tsx:129-135 | two runs set the view at most once |
| `NavigationCompass.NextBearing` | src/components/MlNavigationCompass/MlNavigationCompass.tsx:96-106 | 0 goes to -90, -90 to 180, 180 to 90, and any other bearing to 0; the result is always one of the four headings |
| `NavigationCompass.FourClicksCycle` | src/components/MlNavigationCompass/MlNavigationCompass.tsx:96-106 | four clicks bring each heading back to itself |
| `NavigationCompass.ClicksArePeriodic` | src/components/MlNavigationCompass/MlNavigationCompass.tsx:96-106 | from any bearing, after one click the compass is on the cycle, with period four |
| `NavigationCompass.IntToString` | src/components/MlNavigationCompass/MlNavigationCompass.tsx:116 | for a whole number below 10^21 in magnitude: the text starts with a minus sign exactly for a negative number, followed by the digits of its magnitude; `ParseIntToString` reads it back |
| `NavigationCompass.NeedleTransform` | src/components/MlNavigationCompass/MlNavigationCompass.tsx:116 | both branches write the negated bearing |
| `NavigationCompass.ParseNatToString` | src/components/MlNavigationCompass/MlNavigationCompass.tsx:116 | the decimal text of a whole number reads back as that number |
| `NavigationCompass.ParseIntToString` | src/components/MlNavigationCompass/MlNavigationCompass.tsx:116 | the text of an integer, sign included, reads back as that integer |
| `NavigationCompass.NeedleAngle` | src/components/MlNavigationCompass/MlNavigationCompass.tsx:116 | the angle inside `rotate(...deg)` reads back as the negated bearing |
| `NavigationCompass.Compass.UpdateBearing` | src/components/MlNavigationCompass/MlNavigationCompass.tsx:83-86 | without a map or without `getBearing` nothing changes; otherwise the state is the map's bearing |
| `NavigationCompass.Compass.MountEffect` | src/components/MlNavigationCompass/MlNavigationCompass.tsx:87-90 | with a map, one `rotate` registration with the owner tag and nothing else on the map changes, then the bearing is read; without one, nothing changes |
| `NavigationCompass.Compass.UnmountEffect` | src/components/MlNavigationCompass/MlNavigationCompass.tsx:91-93 | the `rotate` registration is removed from the map it was made on and nothing else on that map changes; the bearing state is kept |
| `NavigationCompass.Compass.Rotate` | src/components/MlNavigationCompass/MlNavigationCompass.tsx:96-106 | with a map, one `setBearing` to the next heading of the state's bearing; layers, sources, registrations, cancellation and first symbol layer are kept; without one, no call |
| `NavigationCompass.FourClicksReturnNorth` | src/components/MlNavigationCompass/MlNavigationCompass.tsx:82-106 | four clicks, each followed by the `rotate` event, bring a compass pointing north back to north |

## Left out

- React scheduling is not modelled. Dependency arrays, re-renders, `useState`/`useCallback` and hook ordering are not part of this model. Each effect is a method that the caller invokes, with the props its closure captured. The source-wait effect is split into its attach and its cleanup.
- The MapLibre wrapper and the map inside it are not part of this model. They are the class `Engine.Engine`. It refuses an `addLayer` with a taken id, a taken inline-source id, a missing named source, a missing `beforeId` or no type. It takes every other `addLayer`, `removeSource` and style call. The wrapper's `getLayer` and the inner map's `getLayer` read the same layer table, and `firstSymbolLayer` is an opaque field.
- Engine.Engine.Cleanup: the wrapper's cleanup is not part of this model, so the model chooses its behaviour: it drops the owner's layers and registrations and keeps every source. Whether the real wrapper also removes the owner's sources is not known here.
- UseLayer.LayerHook.Teardown: the hooks issue no `removeSource` on unmount. The sources Teardown keeps, and so an inline source left behind under the layer's id, follow from the choice made for the wrapper's cleanup and not from the hooks. Whether teardown leaves no orphaned source is therefore not decided by this model.
- UseLayer.LayerHook.CreateLayer: over an existing layer with an inline source, the `removeSource` logged after the cleanup follows from the same choice; a wrapper cleanup that dropped the source would make `getSource` false at that point and skip the removal.
- NavigationCompass.IntToString: JavaScript writes magnitudes of 10^21 and above in exponent form; that form is not modelled, since a map's bearing is far below it.
- Cancellation is only read: a cancelled map refuses no call.
- The `try`/`catch` around `addLayer` and its `console.log` are not modelled. A refused `addLayer` is only logged, and the flag is already set.
- Removing a source that another layer still uses, which MapLibre refuses, is not modelled: `removeSource` always removes.
- `JSON.stringify`/`JSON.parse` are modelled as snapshots of ordered entries of primitive values. Nested objects and arrays in paint or layout are not modelled: after a parse they compare by reference, so they would always count as changed. Keys whose value is `undefined` and the enumeration order of integer-like keys are not modelled either.
- Of the `options` keys spread into the spec, only `type`, `source`, `paint`, `layout` and `id` are modelled. Others, such as `filter` and zoom bounds, pass through untouched and play no part in any guard. A key set to `undefined` in `MlGeoJsonLayer`'s `options` prop is treated as absent.
- `getDefaultPaintPropsByType` and `getDefaultLayerTypeByGeometry` are not part of this model. They are function-valued parameters.
- The watched layer list of `useMapState` is a parameter of the resolve effect, and its filter options are not modelled. Entries that are `undefined` are not modelled.
- Floating-point views and bearings are not modelled: the bearing is an integer, so `Math.round` is the identity. The `setCenter` coordinates are not part of the model; only the call is logged, and the zoom value 15 is kept.
- NavigationCompass.Compass.UnmountEffect: the source calls `off` on the inner map, for a handler registered through the wrapper. The model takes it as removing that registration and says nothing about the wrapper's own records.
- Every `sourcedata` event while the named source exists runs creation again, so the live layer is cleaned up and re-added each time. The model keeps this behaviour and does not add a guard against it.
- The drawing order of layers is not modelled: `moveLayer` is logged but reorders nothing.
- The MUI theme, the Storybook polygon styler, the styled components, the SVG assets and the CSS have no logic of the kind modelled here, and are left out.
