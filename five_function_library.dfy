/**
 `UFiveFunctionLibrary`: the two process-wide texture caches and the
 functions that read and update them.

 `GetRenderTargetMap()` maps a texture key to a render-target pointer and
 `GetVoxelTextureMap()` maps a render-target pointer to the float texture
 converted from one of its channels. Both are one `TextureCache` object here.
 */
module FiveFunctionLibrary {
  import opened Unreal
  import opened Voxel

  /** The colour byte the `switch` on the channel selects. */
  function ChannelByte(c: Color, channel: Channel): byte
  {
    match channel
    case R => c.r
    case G => c.g
    case B => c.b
    case A => c.a
  }

  /**
   `grid` is what channel `channel` of `color` converts to: the same size, and
   at every index the converted channel byte of the pixel at that index.
   */
  ghost predicate IsChannelGrid(grid: FloatTexture, color: ColorTexture, channel: Channel)
  {
    && grid.sizeX == color.sizeX
    && grid.sizeY == color.sizeY
    && |grid.values| == |color.data|
    && forall i :: 0 <= i < |grid.values| ==> grid.values[i] == UINT8ToFloat(ChannelByte(color.data[i], channel))
  }

  /** Euclidean division of a pixel index by the row width gives its column and row. */
  lemma Coordinates(i: int, width: int)
    requires 0 <= i && 0 < width
    ensures i == (i / width) * width + i % width
    ensures 0 <= i % width < width && 0 <= i / width
  {
  }

  /** `a * w` grows with `a`, proved without nonlinear arithmetic. */
  lemma {:induction false} MulMonotone(a: int, b: int, w: int)
    requires a >= b && w > 0
    ensures a * w >= b * w
    ensures a > b ==> a * w >= b * w + w
    decreases a - b
  {
    if a > b + 1 {
      MulMonotone(a - 1, b, w);
      assert a * w == (a - 1) * w + w;
    } else if a == b + 1 {
      assert a * w == b * w + w;
    }
  }

  /** Two pixels with the same row-major index are the same pixel. */
  lemma IndexInjective(x1: int, y1: int, x2: int, y2: int, width: int)
    requires 0 <= x1 < width && 0 <= x2 < width && 0 <= y1 && 0 <= y2
    requires y1 * width + x1 == y2 * width + x2
    ensures x1 == x2 && y1 == y2
  {
    if y1 > y2 {
      MulMonotone(y1, y2, width);
    } else if y1 < y2 {
      MulMonotone(y2, y1, width);
    }
  }

  /** The row-major index `y * width + x` of a pixel lies in the grid and gives back `x` and `y`. */
  lemma PixelIndex(x: int, y: int, width: int, height: int)
    requires 0 <= x < width && 0 <= y < height
    ensures 0 <= y * width + x < width * height
    ensures (y * width + x) % width == x && (y * width + x) / width == y
  {
    MulMonotone(y, 0, width);
    MulMonotone(height, y, width);
    assert height * width == width * height;
    var i := y * width + x;
    Coordinates(i, width);
    IndexInjective(x, y, i % width, i / width, width);
  }

  /** After the loops have reached column `x`, row `y`: has index `i` been written? */
  ghost predicate Written(i: int, x: int, y: int, width: int)
    requires 0 < width
  {
    i % width < x || (i % width == x && i / width < y)
  }

  /**
   The nested loops of `CreateVoxelFloatTextureFromRenderTargetChannel` that
   fill a freshly sized float texture: X outer, Y inner, writing index
   `Y * Width + X`. `writes` counts the writes to each index: each is written
   exactly once, so the result does not depend on the order of the loops.
   */
  method ConvertChannel(color: ColorTexture, channel: Channel) returns (grid: FloatTexture, ghost writes: seq<nat>)
    requires color.WellFormed()
    ensures IsChannelGrid(grid, color, channel)
    ensures |writes| == |grid.values| && forall i :: 0 <= i < |writes| ==> writes[i] == 1
  {
    var width := color.sizeX;
    var height := color.sizeY;
    // Data->SetSize(Width, Height)
    var values := new real[width * height](_ => 0.0);
    writes := seq(width * height, _ => 0);
    assert width * height > 0 ==> width > 0;
    var x := 0;
    while x < width
      invariant 0 <= x <= width
      invariant values.Length == |writes| == |color.data| == width * height
      invariant |writes| > 0 ==> width > 0
      invariant forall i :: 0 <= i < |writes| ==> writes[i] == if Written(i, x, 0, width) then 1 else 0
      invariant forall i :: 0 <= i < |writes| && Written(i, x, 0, width) ==>
                  values[i] == UINT8ToFloat(ChannelByte(color.data[i], channel))
    {
      var y := 0;
      while y < height
        invariant 0 <= y <= height
        invariant values.Length == |writes| == |color.data| == width * height
        invariant forall i :: 0 <= i < |writes| ==> writes[i] == if Written(i, x, y, width) then 1 else 0
        invariant forall i :: 0 <= i < |writes| && Written(i, x, y, width) ==>
                    values[i] == UINT8ToFloat(ChannelByte(color.data[i], channel))
      {
        var index := y * width + x;
        PixelIndex(x, y, width, height);
        var pixel := color.data[index];
        var result := ChannelByte(pixel, channel);
        values[index] := UINT8ToFloat(result);
        writes := writes[index := writes[index] + 1];
        forall i | 0 <= i < |writes|
          ensures writes[i] == if Written(i, x, y + 1, width) then 1 else 0
          ensures Written(i, x, y + 1, width) ==> values[i] == UINT8ToFloat(ChannelByte(color.data[i], channel))
        {
          Coordinates(i, width);
          if i != index {
            assert Written(i, x, y + 1, width) == Written(i, x, y, width);
          }
        }
        y := y + 1;
      }
      forall i | 0 <= i < |writes|
        ensures Written(i, x, height, width) == Written(i, x + 1, 0, width)
      {
        Coordinates(i, width);
        if i % width == x && i / width >= height {
          MulMonotone(i / width, height, width);
          assert false;
        }
      }
      x := x + 1;
    }
    grid := FloatTexture(width, height, values[..]);
  }

  /** The conversion is determined by its specification: two grids meeting it are equal. */
  lemma ChannelGridIsUnique(g1: FloatTexture, g2: FloatTexture, color: ColorTexture, channel: Channel)
    requires IsChannelGrid(g1, color, channel) && IsChannelGrid(g2, color, channel)
    ensures g1 == g2
  {
    assert g1.values == g2.values;
  }

  /**
   Only the selected channel of each pixel matters: two colour textures of one
   size whose selected channel agree at every pixel convert to the same grids.
   */
  lemma ChannelGridReadsOnlyChannel(grid: FloatTexture, c1: ColorTexture, c2: ColorTexture, channel: Channel)
    requires c1.sizeX == c2.sizeX && c1.sizeY == c2.sizeY && |c1.data| == |c2.data|
    requires forall i :: 0 <= i < |c1.data| ==> ChannelByte(c1.data[i], channel) == ChannelByte(c2.data[i], channel)
    ensures IsChannelGrid(grid, c1, channel) <==> IsChannelGrid(grid, c2, channel)
  {
  }

  /** The truth table of the first condition of `ClearCache`: empty the voxel-texture map. */
  function ClearsVoxelTextures(renderTargetsOnly: bool, voxelTexturesOnly: bool): bool
  {
    voxelTexturesOnly || (!renderTargetsOnly && !voxelTexturesOnly)
  }

  /** The second condition of `ClearCache`: release and empty the render-target map. */
  function ClearsRenderTargets(renderTargetsOnly: bool, voxelTexturesOnly: bool): bool
  {
    renderTargetsOnly || (!renderTargetsOnly && !voxelTexturesOnly)
  }

  /**
   Each flag clears its own table, no flag clears both, and both flags set
   clear both as well.
   */
  lemma ClearCacheSelection(renderTargetsOnly: bool, voxelTexturesOnly: bool)
    ensures ClearsVoxelTextures(renderTargetsOnly, voxelTexturesOnly) <==> voxelTexturesOnly || !renderTargetsOnly
    ensures ClearsRenderTargets(renderTargetsOnly, voxelTexturesOnly) <==> renderTargetsOnly || !voxelTexturesOnly
    ensures ClearsVoxelTextures(true, false) == false && ClearsRenderTargets(true, false) == true
    ensures ClearsVoxelTextures(false, true) == true && ClearsRenderTargets(false, true) == false
    ensures ClearsVoxelTextures(true, true) && ClearsRenderTargets(true, true)
    ensures ClearsVoxelTextures(false, false) && ClearsRenderTargets(false, false)
  {
  }

  /** The render targets the non-null entries of the render-target map point to. */
  function CachedTargets(renderTargets: map<string, Ptr>): set<RenderTarget>
  {
    NonNull(renderTargets.Values)
  }

  /** `UFiveFunctionLibrary::ReleaseTextureResource`: releases a non-null target; the caches are untouched. */
  method ReleaseTextureResource(engine: Engine, rt: Ptr)
    modifies engine`released
    ensures engine.released == old(engine.released) + (if rt.Some? then {rt.value} else {})
  {
    if rt.Some? {
      engine.ReleaseResource(rt.value);
    }
  }

  /** The process-wide state of the library: its two texture caches. */
  class TextureCache {
    /** `GetRenderTargetMap()`: texture key to (nullable) render-target pointer. */
    var renderTargets: map<string, Ptr>
    /** `GetVoxelTextureMap()`: render-target pointer to the (nullable) shared float-texture data. */
    var voxelTextures: map<Ptr, Option<FloatTexture>>

    /**
     What holds between calls: no null voxel-texture entry survives a call,
     and, because `CreateRenderTargetCube` stores its new cube in a local copy
     only, every render-target entry is null.
     */
    ghost predicate Valid()
      reads this
    {
      && (forall rt :: rt in voxelTextures ==> voxelTextures[rt].Some?)
      && (forall key :: key in renderTargets ==> renderTargets[key].None?)
    }

    /** The two static maps start empty. */
    constructor ()
      ensures renderTargets == map[] && voxelTextures == map[]
      ensures Valid()
    {
      renderTargets := map[];
      voxelTextures := map[];
    }

    /**
     `CreateVoxelFloatTextureFromRenderTargetChannel`. `color` stands for what
     `CreateFromTexture_Color(RT)` reads back from `rt`; it is used only on a
     miss. The world context and `mipLevel` are unused, as in the library.
     */
    method CreateVoxelFloatTextureFromRenderTargetChannel(rt: Ptr, color: ColorTexture, channel: Channel, mipLevel: int32)
      returns (texture: FloatTexture)
      requires color.WellFormed()
      modifies this`voxelTextures
      // a non-null cached entry is returned as it is, and nothing changes
      ensures FindRef(old(voxelTextures), rt, None).Some? ==>
                texture == old(voxelTextures)[rt].value && voxelTextures == old(voxelTextures)
      // otherwise the conversion is computed and memoized under `rt`
      ensures FindRef(old(voxelTextures), rt, None).None? ==>
                IsChannelGrid(texture, color, channel) && voxelTextures == old(voxelTextures)[rt := Some(texture)]
      ensures old(Valid()) ==> Valid()
    {
      voxelTextures := FindOrAdd(voxelTextures, rt, None);
      var data := voxelTextures[rt];
      if data.Some? {
        return data.value;
      }
      ghost var writes;
      texture, writes := ConvertChannel(color, channel);
      voxelTextures := voxelTextures[rt := Some(texture)];
    }

    /**
     `CreateRenderTargetCube`. The world lookup is `worldAvailable`;
     `mipSettings` is unused, as in the library. The new cube is assigned to
     the local copy `Data` of the map entry, never to the entry itself.
     */
    method CreateRenderTargetCube(engine: Engine, worldAvailable: bool, width: int32, mipSettings: MipGenSettings,
                                  clearColor: LinearColor, compression: CompressionSettings, hdr: bool, textureKey: string)
      returns (cube: Ptr)
      modifies this`renderTargets, engine`nextId
      // FindOrAdd adds the key with a null pointer, and that is the only change to the map
      ensures renderTargets == FindOrAdd(old(renderTargets), textureKey, None)
      ensures var data := FindRef(old(renderTargets), textureKey, None);
              if old(engine.IsValidLowLevel(data)) then
                cube == data && engine.nextId == old(engine.nextId)
              else if width > 0 && Half(width) > 0 && worldAvailable then
                cube == Some(RenderTargetCube(old(engine.nextId), width, hdr, clearColor, compression)) &&
                engine.nextId == old(engine.nextId) + 1
              else
                cube == None && engine.nextId == old(engine.nextId)
      ensures old(Valid()) ==> Valid()
      // hence in every state the library reaches, each call creates a new cube or fails
      ensures old(Valid()) ==>
                (cube.Some? <==> width >= 2 && worldAvailable) &&
                (cube.Some? ==> cube.value.id == old(engine.nextId))
    {
      renderTargets := FindOrAdd(renderTargets, textureKey, None);
      var data := renderTargets[textureKey];
      if engine.IsValidLowLevel(data) {
        return data;
      }
      var height := Half(width);
      if width > 0 && height > 0 && worldAvailable {
        var newCube := engine.NewRenderTargetCube(width, hdr, clearColor, compression);
        data := Some(newCube);
        return Some(newCube);
      }
      return None;
    }

    /** `GetCachedRT`: a lookup that changes nothing. */
    method GetCachedRT(textureKey: string) returns (texture: Ptr, success: bool)
      ensures texture == (if textureKey in renderTargets then renderTargets[textureKey] else None)
      ensures success <==> textureKey in renderTargets && renderTargets[textureKey].Some?
      // in every state the library reaches, the lookup fails
      ensures Valid() ==> !success
    {
      texture := FindRef(renderTargets, textureKey, None);
      success := texture != None;
    }

    /**
     `ClearCache`. The loop over the voxel-texture values only resets local
     copies of shared pointers, so emptying that map is its whole effect.
     Every non-null render target is released before its map is emptied.
     */
    method ClearCache(engine: Engine, renderTargetsOnly: bool, voxelTexturesOnly: bool)
      modifies this`renderTargets, this`voxelTextures, engine`released
      ensures voxelTextures == if ClearsVoxelTextures(renderTargetsOnly, voxelTexturesOnly) then map[] else old(voxelTextures)
      ensures renderTargets == if ClearsRenderTargets(renderTargetsOnly, voxelTexturesOnly) then map[] else old(renderTargets)
      ensures engine.released == old(engine.released) +
                if ClearsRenderTargets(renderTargetsOnly, voxelTexturesOnly) then CachedTargets(old(renderTargets)) else {}
      ensures old(Valid()) ==> Valid()
    {
      if ClearsVoxelTextures(renderTargetsOnly, voxelTexturesOnly) {
        voxelTextures := map[];
      }
      if ClearsRenderTargets(renderTargetsOnly, voxelTexturesOnly) {
        var rtArray, rtKeys := GenerateValueArray(renderTargets);
        for i := 0 to |rtArray|
          modifies engine`released
          invariant engine.released == old(engine.released) + set j | 0 <= j < i && rtArray[j].Some? :: rtArray[j].value
        {
          if rtArray[i].Some? {
            engine.ReleaseResource(rtArray[i].value);
          }
        }
        NonNullOfValueArray(rtArray, renderTargets.Values);
        renderTargets := map[];
      }
    }
  }

  /**
   Asking twice for the cube under one key reaches `NewObject` twice, and the
   key still finds nothing: the new cube never reaches the map. The two cubes
   differ because the engine model gives every new object a new identity.
   */
  method RepeatedCubeRequest(key: string) returns (first: Ptr, second: Ptr, found: bool, created: nat)
    ensures first.Some? && second.Some? && first != second
    ensures created == 2
    ensures !found
  {
    var engine := new Engine();
    var cache := new TextureCache();
    var clear := LinearColor(0.0, 0.0, 0.0, 1.0);
    first := cache.CreateRenderTargetCube(engine, true, 512, MipGenSettings(0), clear, CompressionSettings(0), true, key);
    second := cache.CreateRenderTargetCube(engine, true, 512, MipGenSettings(0), clear, CompressionSettings(0), true, key);
    var texture;
    texture, found := cache.GetCachedRT(key);
    created := engine.nextId;
  }

  /**
   The conversion is memoized and never refreshed: a second request for the
   same render target returns the first grid even when the pixels changed.
   */
  method StaleConversion(rt: Ptr, before: ColorTexture, after: ColorTexture, channel: Channel)
    returns (first: FloatTexture, second: FloatTexture)
    requires before.WellFormed() && after.WellFormed()
    ensures IsChannelGrid(first, before, channel)
    ensures second == first
  {
    var cache := new TextureCache();
    first := cache.CreateVoxelFloatTextureFromRenderTargetChannel(rt, before, channel, 0);
    second := cache.CreateVoxelFloatTextureFromRenderTargetChannel(rt, after, channel, 0);
  }
}
