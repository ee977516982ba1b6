# PlanetSphericalProjection: texture caches and LOD render-target pool

A model of the core of the Unreal Engine plugin's `Cubemapping01` module.
The plugin renders planetary cubemaps. This model covers two parts of it:

- `UFiveFunctionLibrary` keeps two process-wide caches.
  - A texture key maps to a render-target pointer.
  - A render-target pointer maps to the float texture made from one colour channel of that target.

  The library creates cube render targets under a key. It converts one channel of a 2D render target into a
  row-major float grid and memoizes the result. It looks cached targets up and clears either cache or both.
- `UPlanetManagerSubsystem` is a world subsystem. It fills a pool of 2D render targets once, from a list of
  (width, LOD level, count) entries, keyed by (slot index, LOD level, 0). It releases every pooled target on teardown.

Modules: `Unreal` and `Voxel` stand for the engine and the voxel plugin the code calls into, and the other
three follow the module's own source files.

- `Unreal` (`unreal.dfy`): what the code relies on from the engine.
  - Nullable pointers (`Ptr`) and `int32`.
  - C's truncating `/ 2` (`Half`).
  - Render-target objects as opaque handles.
  - `TMap`'s `FindOrAdd`, `FindRef` and `GenerateValueArray`.
  - An `Engine` object. It hands out fresh object ids and records which GPU resources were released.
- `Voxel` (`voxel.dfy`): the voxel plugin's colour and float textures, the channel selector and `UINT8ToFloat`.
- `FiveFunctionLibrary` (`five_function_library.dfy`): the library, with its two caches as the fields of one
  `TextureCache` object.
- `PlanetManagerTypes` (`planet_manager_types.dfy`): the records `FRenderTargetLOD`, `FRenderTargetConfig`,
  `FRenderTargetSlot` and the `FIntVector` key.
- `PlanetManager` (`planet_manager_subsystem.dfy`): the subsystem as a class with `initialized` and
  `renderTargetStorage`.
  - The pool-filling loops are specified by the pure functions `FillIds`, `FillLOD` and `FillLODs`.
  - The properties of the filled pool are proved about those functions.

### Behaviour the model follows as the code is written

- `CreateRenderTargetCube` works like this:
  1. `FindOrAdd` adds the key with a null pointer.
  2. The entry is copied into a local `Data`.
  3. The new cube is assigned to that copy only.

  So the cube is never stored. `TextureCache.Valid()` states that every entry of the render-target map is null,
  and every method keeps `Valid()`. As a result, `GetCachedRT` always fails, each request calls `NewObject` again
  (`RepeatedCubeRequest`), and `ClearCache` releases nothing through that map. The function's name and its
  `FindOrAdd` suggest memoization by key, but the code does not memoize.
- The float-texture cache is keyed by the render-target pointer, and an entry is never refreshed.
  A second conversion of the same target returns the first grid even after the pixels changed
  (`StaleConversion`).
- The cube is created when `Width > 0 && Width / 2 > 0` and a world exists, so a width of at least 2 is needed.
  A width of 1 fails.
- `ClearCache(true, true)` clears both caches, just like `ClearCache(false, false)` (`ClearCacheSelection`).
- `FRenderTargetSlot(InTexture)` sets `bValid` even when the texture is null.
  - `CreateRenderTarget2D` returns null for an entry narrower than 2 pixels or with no world.
  - Such a slot is valid with a null texture (`NarrowEntryMakesNullValidSlot`).
  - `Deinitialize` would then dereference null. Its `requires` excludes that state, and `TeardownSafeFill`
    gives conditions under which a filled pool meets it.
- `Deinitialize` does not reset `bInitialized`. After teardown, `SetupTexturesIfNot` does nothing
  (`SetupAfterTeardown`).
- Later configuration entries that fill the same key overwrite earlier ones (`TMap::Add`).
  `FillLODsEffect` and `LaterEntryWins` state that the last entry wins.

## Model

Source paths are relative to the plugin repository.

| member | source | states |
|---|---|---|
| Voxel.UINT8ToFloat | Cubemapping01/Source/Cubemapping01/Private/FiveFunctionLibrary.cpp:70 | a channel byte becomes a value in the unit interval |
| Unreal.FindOrAdd | Cubemapping01/Source/Cubemapping01/Private/FiveFunctionLibrary.cpp:80 | the key is afterwards present; exactly that key is added; existing entries are kept; an absent key gets the default (null) value |
| Unreal.GenerateValueArray | Cubemapping01/Source/Cubemapping01/Private/FiveFunctionLibrary.cpp:145-146 | the array has one element per map entry: each element is the value of a distinct key of the map, every key is visited once, so a value appears as often as the keys that hold it |
| Unreal.Engine.NewRenderTargetCube | Cubemapping01/Source/Cubemapping01/Private/FiveFunctionLibrary.cpp:89-96 | the new cube has a fresh identity and carries the requested size, HDR flag, clear colour and compression |
| Unreal.Engine.CreateRenderTarget2D | Cubemapping01/Source/Cubemapping01/Private/PlanetManagerSubsystem.cpp:36 | a fresh 2D target of the requested size exactly when both sizes are positive and a world exists, else null and no new object |
| Unreal.Engine.ReleaseResource | Cubemapping01/Source/Cubemapping01/Private/FiveFunctionLibrary.cpp:158 | the target is added to the released set |
| FiveFunctionLibrary.PixelIndex | Cubemapping01/Source/Cubemapping01/Private/FiveFunctionLibrary.cpp:48-52 | for every (X, Y) the loops visit, `Y * Width + X` is an index of the pixel array, and that index gives back (X, Y) |
| FiveFunctionLibrary.IndexInjective | Cubemapping01/Source/Cubemapping01/Private/FiveFunctionLibrary.cpp:52 | two different pixels never share a row-major index, so no write overwrites another |
| FiveFunctionLibrary.ConvertChannel | Cubemapping01/Source/Cubemapping01/Private/FiveFunctionLibrary.cpp:42-73 | the grid has the colour texture's size; the value at every index is `UINT8ToFloat` of the selected channel of the pixel at that index; the column-by-column loops write every index exactly once |
| FiveFunctionLibrary.ChannelGridIsUnique | Cubemapping01/Source/Cubemapping01/Private/FiveFunctionLibrary.cpp:42-73 | the conversion's result is fully determined by the colour texture and the channel |
| FiveFunctionLibrary.ChannelGridReadsOnlyChannel | Cubemapping01/Source/Cubemapping01/Private/FiveFunctionLibrary.cpp:53-71 | two colour textures that agree on the selected channel convert to the same grid, in both directions |
| FiveFunctionLibrary.ClearCacheSelection | Cubemapping01/Source/Cubemapping01/Private/FiveFunctionLibrary.cpp:121-154 | which cache each flag combination clears; both flags set, or both clear, clear both caches |
| FiveFunctionLibrary.ReleaseTextureResource | Cubemapping01/Source/Cubemapping01/Private/FiveFunctionLibrary.cpp:156-159 | a non-null target is released; null releases nothing |
| FiveFunctionLibrary.TextureCache.constructor | Cubemapping01/Source/Cubemapping01/Private/FiveFunctionLibrary.cpp:18-30 | both static maps start empty, which satisfies the cache invariant |
| FiveFunctionLibrary.TextureCache.CreateVoxelFloatTextureFromRenderTargetChannel | Cubemapping01/Source/Cubemapping01/Private/FiveFunctionLibrary.cpp:32-76 | a non-null cached grid is returned unchanged and the map is untouched; otherwise the grid is the conversion of the read-back colour texture and it is memoized under the target; the invariant is kept |
| FiveFunctionLibrary.TextureCache.CreateRenderTargetCube | Cubemapping01/Source/Cubemapping01/Private/FiveFunctionLibrary.cpp:78-101 | the map only gains the key with a null entry; the three outcomes (valid cached pointer, new cube when `Width > 0`, `Width / 2 > 0` and a world exists, null); in reachable states, a fresh cube exactly when `Width >= 2` and a world exists |
| FiveFunctionLibrary.TextureCache.GetCachedRT | Cubemapping01/Source/Cubemapping01/Private/FiveFunctionLibrary.cpp:114-119 | returns the stored pointer or null; success exactly when it is non-null; in reachable states it never succeeds |
| FiveFunctionLibrary.TextureCache.ClearCache | Cubemapping01/Source/Cubemapping01/Private/FiveFunctionLibrary.cpp:121-154 | each selected map is emptied and the other kept; every non-null cached render target is released exactly when the render-target map is cleared |
| FiveFunctionLibrary.RepeatedCubeRequest | Cubemapping01/Source/Cubemapping01/Private/FiveFunctionLibrary.cpp:80-98 | two requests under one key both reach `NewObject` and return a cube, and the key still finds nothing |
| FiveFunctionLibrary.StaleConversion | Cubemapping01/Source/Cubemapping01/Private/FiveFunctionLibrary.cpp:34-38 | a second conversion of the same target returns the first grid although its pixels changed |
| PlanetManagerTypes.SlotConstructors | Cubemapping01/Source/Cubemapping01/Public/PlanetManagerSubsystem.h:40-48 | the default slot is neither in use nor valid; a slot built from a texture is valid, not in use and holds that texture |
| PlanetManager.DefaultCountKeys | Cubemapping01/Source/Cubemapping01/Public/PlanetManagerSubsystem.h:23 | an entry left at the default count fills exactly slots 0, 1 and 2 of its level |
| PlanetManager.LODKeysMembership | Cubemapping01/Source/Cubemapping01/Private/PlanetManagerSubsystem.cpp:35-41 | an entry fills key (id, lod, 0) exactly for `0 <= id < Count` |
| PlanetManager.NonPositiveCount | Cubemapping01/Source/Cubemapping01/Private/PlanetManagerSubsystem.cpp:35 | an entry whose count is not positive fills nothing and leaves the pool unchanged |
| PlanetManager.ConfigKeysMembership | Cubemapping01/Source/Cubemapping01/Private/PlanetManagerSubsystem.cpp:33-43 | a key is filled by the configuration exactly when some entry fills it |
| PlanetManager.LastCover | Cubemapping01/Source/Cubemapping01/Private/PlanetManagerSubsystem.cpp:33-43 | for a filled key, the last entry that fills it |
| PlanetManager.FillIdsEffect | Cubemapping01/Source/Cubemapping01/Private/PlanetManagerSubsystem.cpp:35-42 | the inner loop adds exactly its slots' keys, each holding a valid slot with a `Width` by `Width / 2` target (or null when none can be made), keeps other entries, and only advances the object counter |
| PlanetManager.FillLODsEffect | Cubemapping01/Source/Cubemapping01/Private/PlanetManagerSubsystem.cpp:33-43 | the whole fill adds exactly the configuration's keys; each holds the slot requested by the last entry filling it; other entries are kept |
| PlanetManager.FirstFillKeys | Cubemapping01/Source/Cubemapping01/Private/PlanetManagerSubsystem.cpp:33-43 | on an empty pool, the stored keys are exactly (id, lod, 0) for every entry and every `0 <= id < Count` |
| PlanetManager.LaterEntryWins | Cubemapping01/Source/Cubemapping01/Private/PlanetManagerSubsystem.cpp:38-41 | a slot filled by an entry survives later entries that do not fill its key |
| PlanetManager.SlotIgnoresPreviousStorage | Cubemapping01/Source/Cubemapping01/Private/PlanetManagerSubsystem.cpp:36-41 | the slot written under a key depends only on the object counter, not on what the key held before |
| PlanetManager.NarrowEntryMakesNullValidSlot | Cubemapping01/Source/Cubemapping01/Private/PlanetManagerSubsystem.cpp:36-37 | an entry one pixel wide stores a slot marked valid whose texture is null |
| PlanetManager.TeardownSafeFill | Cubemapping01/Source/Cubemapping01/Private/PlanetManagerSubsystem.cpp:19-21 | with a world and every filling entry at least 2 wide, every valid slot of a fresh pool holds a texture |
| PlanetManager.PlanetManagerSubsystem.constructor | Cubemapping01/Source/Cubemapping01/Public/PlanetManagerSubsystem.h:62-65 | not initialised, empty storage |
| PlanetManager.PlanetManagerSubsystem.Initialize | Cubemapping01/Source/Cubemapping01/Private/PlanetManagerSubsystem.cpp:8-11 | changes nothing |
| PlanetManager.PlanetManagerSubsystem.Deinitialize | Cubemapping01/Source/Cubemapping01/Private/PlanetManagerSubsystem.cpp:13-26 | the texture of every valid slot is released and the storage is emptied; `initialized` is kept |
| PlanetManager.PlanetManagerSubsystem.SetupTexturesIfNot | Cubemapping01/Source/Cubemapping01/Private/PlanetManagerSubsystem.cpp:28-46 | afterwards initialised; a repeated call changes nothing; a first call leaves the pool that `FillLODs` describes which, from a fresh subsystem, has exactly the configuration's keys |
| PlanetManager.SetupAfterTeardown | Cubemapping01/Source/Cubemapping01/Private/PlanetManagerSubsystem.cpp:13-46 | a first fill creates one slot per configuration key; after teardown a second request leaves the pool empty |

## Left out

- GPU work is not modelled: `InitAutoFormat`, `UpdateResource` and the pixel formats. A render target is a handle
  holding the attributes it was created with, and `ReleaseResource` only records the release.
- Unreal.Engine.NewRenderTargetCube: gives every call a new object. It does not model the object name
  `FName(*TextureKey)` or the outer `WorldContext` given to `NewObject`. In the engine, `NewObject` with the
  outer and name of a live object replaces that object in place and returns its address, so two
  `CreateRenderTargetCube` calls with one `WorldContext` and one key return the same pointer. The model needs
  the engine's object naming to capture that, and the engine's object naming is not modelled.
- FiveFunctionLibrary.RepeatedCubeRequest: its `first != second` rests on the engine model above. What the
  library's code decides on its own is that `NewObject` is reached twice (`created == 2`) and that the key still
  finds nothing.
- FiveFunctionLibrary.TextureCache.CreateRenderTargetCube: keys the render-target map by the exact string.
  `FString` keys compare case-insensitively, so after a call with "Foo" a call with "foo" adds no key in the
  source but a second key in the model. Nothing observable differs, because every entry of that map is null
  (`TextureCache.Valid()`): `GetCachedRT` fails and `ClearCache` releases nothing under either spelling.
  Case folding is not modelled.
- Garbage collection is not modelled. `IsValidLowLevel` is true exactly for a non-null object the engine created.
- The pixel read-back `FVoxelTextureUtilities::CreateFromTexture_Color` is not modelled. The colour texture it
  would return is a parameter of the conversion.
- Voxel.UINT8ToFloat: the voxel plugin's `FVoxelUtilities::UINT8ToFloat` is not part of this model. The body
  `b / 255` is the model's stand-in. The model relies only on its bound `0 <= v <= 1` and on it being a function
  of the byte. Floating point is not modelled.
- The world lookup (`GetWorldFromContextObject`, `GetWorld`) is a boolean `worldAvailable`. Any condition under which
  `CreateRenderTarget2D` cannot render is folded into that boolean.
- `MipLevel` and `MipSettings` are unused by the code and have no effect in the model.
- `CreateVoxelFloatTextureFromRenderTargetChannel` does not use its `WorldContext`, so the model drops it.
- `CreateRenderTargetCube` uses its `WorldContext` to look up the world, which the model reduces to
  `worldAvailable`. It also passes `WorldContext` to `NewObject` as the outer object, which the model does not keep.
- The `check(IsInGameThread())` assertions are not modelled. The model is single-threaded.
- The loop in `ClearCache` that resets local copies of the shared pointers is not modelled. Reference counting is
  not modelled, so emptying the map is the whole effect.
- The shared-pointer wrapper `TVoxelTexture<float>(Data.ToSharedRef())` is returned as the grid value itself.
  Aliasing between callers of one cached grid is therefore not captured.
- `FRenderTargetSlot()` leaves `Texture` uninitialised. The model uses null; no code path here reads it.
- `Initialize`'s `FSubsystemCollectionBase` parameter is dropped; the body ignores it.
- The declarations in `FiveFunctionLibrary.h`, the module boilerplate in `Cubemapping01.cpp` and the
  commented-out `TextureFromRenderTarget2D` are not modelled.
- `UFiveFunctionLibrary` and `UPlanetManagerSubsystem` have no operation that creates or releases a 2D target
  together with its cube, and none that releases by key, so the model has none either.
- PlanetManager.PlanetManagerSubsystem.Deinitialize: requires every valid slot to hold a texture, because the source
  dereferences a null texture there. The null dereference is not modelled as behaviour.
