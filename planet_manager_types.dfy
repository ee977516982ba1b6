/**
 The records declared beside `UPlanetManagerSubsystem`: the render-target
 pool configuration, a pool slot, and the three-component storage key.
 */
module PlanetManagerTypes {
  import opened Unreal

  /** `FRenderTargetLOD`: `count` render targets of `width` by `width / 2` for level `lod`. */
  datatype RenderTargetLOD = RenderTargetLOD(width: int32, lod: int32, count: int32)

  /** The initialiser of `FRenderTargetLOD::Count`. */
  const DefaultCount: int32 := 3

  /** An `FRenderTargetLOD` whose `Count` was left at its initialiser. */
  function LODWithDefaultCount(width: int32, lod: int32): RenderTargetLOD
  {
    RenderTargetLOD(width, lod, DefaultCount)
  }

  /** `FRenderTargetConfig`: the entries the pool is built from, in order. */
  datatype RenderTargetConfig = RenderTargetConfig(lods: seq<RenderTargetLOD>)

  /** `FRenderTargetSlot`. */
  datatype RenderTargetSlot = RenderTargetSlot(inUse: bool, valid: bool, texture: Ptr)

  /**
   `FRenderTargetSlot()`: both flags false. The C++ constructor leaves
   `Texture` uninitialised; the model takes the null pointer.
   */
  function DefaultSlot(): RenderTargetSlot
  {
    RenderTargetSlot(false, false, None)
  }

  /** `FRenderTargetSlot(InTexture)`: stores the texture and sets `bValid`, whether or not it is null. */
  function SlotFrom(texture: Ptr): RenderTargetSlot
  {
    RenderTargetSlot(false, true, texture)
  }

  /** `FIntVector`, used as the storage key (index, lod, extra). */
  datatype IntVector = IntVector(x: int32, y: int32, z: int32)

  /**
   A default slot is neither in use nor valid; a slot built from a texture is
   valid, not in use, gives back that texture, and is never a default slot.
   */
  lemma SlotConstructors(texture: Ptr)
    ensures !DefaultSlot().inUse && !DefaultSlot().valid
    ensures SlotFrom(texture).valid && !SlotFrom(texture).inUse && SlotFrom(texture).texture == texture
    ensures SlotFrom(texture) != DefaultSlot()
  {
  }
}
