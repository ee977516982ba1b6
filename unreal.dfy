/**
 The part of Unreal Engine the library and the subsystem talk to, reduced to
 what their behaviour depends on: nullable object pointers, 32-bit integers,
 render-target objects as opaque handles, and an engine object that hands out
 fresh handles and records which GPU resources were released.
 */
module Unreal {

  /** A nullable pointer: `None` is `nullptr`. */
  datatype Option<+T> = None | Some(value: T)

  const INT32_MIN: int := -0x8000_0000
  const INT32_MAX: int := 0x7fff_ffff

  /** C++ `int32`. */
  type int32 = x: int | INT32_MIN <= x <= INT32_MAX

  /** C++ `a / 2` on a signed integer: the quotient is truncated toward zero. */
  function Half(a: int): int
  {
    if a >= 0 then a / 2 else -((-a) / 2)
  }

  /** `FLinearColor`, kept only to be stored in a created cube. */
  datatype LinearColor = LinearColor(r: real, g: real, b: real, a: real)

  /** `TextureCompressionSettings`, an engine enumeration, by its ordinal. */
  datatype CompressionSettings = CompressionSettings(ordinal: nat)

  /** `TextureMipGenSettings`, an engine enumeration, by its ordinal. */
  datatype MipGenSettings = MipGenSettings(ordinal: nat)

  /**
   An engine render-target object (`UTextureRenderTarget`). The handle is its
   identity `id` together with the attributes it was created with.
   */
  datatype RenderTarget =
    | RenderTarget2D(id: nat, sizeX: int, sizeY: int)
    | RenderTargetCube(id: nat, size: int, hdr: bool, clearColor: LinearColor, compression: CompressionSettings)

  /** `UTextureRenderTarget*` and its subclasses' pointers. */
  type Ptr = Option<RenderTarget>

  /**
   What `UKismetRenderingLibrary::CreateRenderTarget2D` does with the engine's
   object counter: it creates an object only for positive sizes and an
   available world, and returns `nullptr` otherwise.
   */
  function Create2D(nextId: nat, worldAvailable: bool, width: int, height: int): (Ptr, nat)
  {
    if width > 0 && height > 0 && worldAvailable then
      (Some(RenderTarget2D(nextId, width, height)), nextId + 1)
    else
      (None, nextId)
  }

  /**
   The engine. Objects are numbered in creation order; `released` records every
   render target whose GPU resource was released (`ReleaseResource`).
   Garbage collection is not modelled: an object, once created, stays valid.
   */
  class Engine {
    var nextId: nat
    ghost var released: set<RenderTarget>

    constructor ()
      ensures nextId == 0 && released == {}
    {
      nextId := 0;
      released := {};
    }

    /**
     `UObjectBase::IsValidLowLevel`: false for a null pointer, true for an
     object this engine created.
     */
    predicate IsValidLowLevel(p: Ptr)
      reads this
    {
      p.Some? && p.value.id < nextId
    }

    /** `NewObject<UTextureRenderTargetCube>` followed by the attribute writes and `InitAutoFormat(size)`. */
    method NewRenderTargetCube(size: int, hdr: bool, clearColor: LinearColor, compression: CompressionSettings)
      returns (cube: RenderTarget)
      modifies this`nextId
      ensures cube == RenderTargetCube(old(nextId), size, hdr, clearColor, compression)
      ensures nextId == old(nextId) + 1
    {
      cube := RenderTargetCube(nextId, size, hdr, clearColor, compression);
      nextId := nextId + 1;
    }

    /** `UKismetRenderingLibrary::CreateRenderTarget2D(World, width, height)`. */
    method CreateRenderTarget2D(worldAvailable: bool, width: int, height: int) returns (rt: Ptr)
      modifies this`nextId
      ensures (rt, nextId) == Create2D(old(nextId), worldAvailable, width, height)
    {
      var created := Create2D(nextId, worldAvailable, width, height);
      rt, nextId := created.0, created.1;
    }

    /** `UTexture::ReleaseResource` on a non-null object. */
    method ReleaseResource(rt: RenderTarget)
      modifies this`released
      ensures released == old(released) + {rt}
    {
      released := released + {rt};
    }
  }

  /** `TMap::FindOrAdd`'s effect on the map: an absent key is added with the default value. */
  function FindOrAdd<K, V>(m: map<K, V>, key: K, default: V): (m': map<K, V>)
    ensures key in m' && m'.Keys == m.Keys + {key}
    ensures forall k :: k in m ==> k in m' && m'[k] == m[k]
    ensures key !in m ==> m'[key] == default
  {
    if key in m then m else m[key := default]
  }

  /** `TMap::FindRef`: the stored value, or the default value for an absent key. */
  function FindRef<K, V>(m: map<K, V>, key: K, default: V): V
  {
    if key in m then m[key] else default
  }

  /** The objects behind the non-null pointers of `ptrs`. */
  function NonNull(ptrs: set<Ptr>): set<RenderTarget>
  {
    set p | p in ptrs && p.Some? :: p.value
  }

  /**
   Releasing the non-null elements of `values` one by one releases exactly the
   non-null pointers of any set holding the same elements.
   */
  lemma NonNullOfValueArray(values: seq<Ptr>, ptrs: set<Ptr>)
    requires forall p :: p in values <==> p in ptrs
    ensures (set j | 0 <= j < |values| && values[j].Some? :: values[j].value) == NonNull(ptrs)
  {
    var released := set j | 0 <= j < |values| && values[j].Some? :: values[j].value;
    forall t | t in NonNull(ptrs) ensures t in released {
      var p :| p in ptrs && p.Some? && p.value == t;
      var j :| 0 <= j < |values| && values[j] == p;
    }
  }

  /**
   `TMap::GenerateValueArray`: one element per entry, in an order the map does
   not promise. `keys` names the entry each element was taken from.
   */
  method GenerateValueArray<K, V(==)>(m: map<K, V>) returns (values: seq<V>, ghost keys: seq<K>)
    ensures |values| == |keys| == |m|
    ensures forall i, j :: 0 <= i < j < |keys| ==> keys[i] != keys[j]
    ensures forall k :: k in keys <==> k in m
    ensures forall i :: 0 <= i < |values| ==> keys[i] in m && values[i] == m[keys[i]]
    ensures forall v :: v in values <==> v in m.Values
  {
    values, keys := [], [];
    var pending := m.Keys;
    while pending != {}
      invariant pending <= m.Keys
      invariant |values| == |keys| == |m.Keys - pending|
      invariant forall i, j :: 0 <= i < j < |keys| ==> keys[i] != keys[j]
      invariant forall k :: k in keys <==> k in m.Keys - pending
      invariant forall i :: 0 <= i < |values| ==> keys[i] in m && values[i] == m[keys[i]]
      decreases |pending|
    {
      var k :| k in pending;
      assert m.Keys - (pending - {k}) == (m.Keys - pending) + {k};
      values, keys := values + [m[k]], keys + [k];
      pending := pending - {k};
    }
    assert m.Keys - pending == m.Keys;
    forall v | v in m.Values ensures v in values {
      var k :| k in m && m[k] == v;
      var i :| 0 <= i < |keys| && keys[i] == k;
    }
  }
}
