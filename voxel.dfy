/**
 The voxel plugin's texture types as far as the library uses them: a colour
 texture read back from a render target, a float texture, the channel
 selector `EVoxelRGBA`, and the byte-to-float conversion.
 */
module Voxel {

  /** C++ `uint8`. */
  type byte = x: int | 0 <= x < 256

  /** `FColor`: four 8-bit channels. */
  datatype Color = Color(r: byte, g: byte, b: byte, a: byte)

  /** `EVoxelRGBA`. */
  datatype Channel = R | G | B | A

  /**
   `TVoxelTexture<FColor>`: `sizeX * sizeY` pixels in row-major order. Its
   array is a `TArray`, whose element count is an `int32`.
   */
  datatype ColorTexture = ColorTexture(sizeX: int, sizeY: int, data: seq<Color>) {
    predicate WellFormed()
    {
      0 <= sizeX && 0 <= sizeY && |data| == sizeX * sizeY && sizeX * sizeY <= 0x7fff_ffff
    }
  }

  /** `TVoxelTexture<float>::FTextureData`: a `sizeX` by `sizeY` grid of values in row-major order. */
  datatype FloatTexture = FloatTexture(sizeX: int, sizeY: int, values: seq<real>)

  /**
   `FVoxelUtilities::UINT8ToFloat`: a byte mapped onto the unit interval.
   The model uses the exact quotient `b / 255`, not its single-precision rounding.
   */
  function UINT8ToFloat(b: byte): (v: real)
    ensures 0.0 <= v <= 1.0
  {
    b as real / 255.0
  }
}
