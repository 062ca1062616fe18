/**
 * The framebuffer size and window rectangle the window reports to the engine,
 * in device pixels, computed from the drawing area's allocation (`i32` width
 * and height) and its `i32` scale factor, all converted with `as u32`.
 */
module Geometry {

  const U32_MODULUS: int := 0x1_0000_0000

  predicate IsI32(x: int) {
    -0x8000_0000 <= x < 0x8000_0000
  }

  /** Rust's `x as u32` for an `i32`: the same bits read as unsigned. */
  function AsU32(x: int): (r: nat)
    requires IsI32(x)
    ensures r < U32_MODULUS
    ensures r % U32_MODULUS == x % U32_MODULUS
    ensures x >= 0 ==> r == x
  {
    if x >= 0 then x else x + U32_MODULUS
  }

  /** `u32` multiplication as a release build performs it: wrapping modulo 2^32. */
  function WrappingMul(a: nat, b: nat): (r: nat)
    ensures r < U32_MODULUS
    ensures (r - a * b) % U32_MODULUS == 0
    ensures a * b < U32_MODULUS ==> r == a * b
  {
    (a * b) % U32_MODULUS
  }

  /**
   * Converting both factors with `as u32` and multiplying with wrap-around
   * gives a value congruent modulo 2^32 to the product of the signed values.
   */
  lemma {:induction false} ScaledCongruent(factor: int, x: int)
    requires IsI32(factor) && IsI32(x)
    ensures (WrappingMul(AsU32(factor), AsU32(x)) - factor * x) % U32_MODULUS == 0
  {
    var f, w := AsU32(factor), AsU32(x);
    var i, j := (f - factor) / U32_MODULUS, (w - x) / U32_MODULUS;
    assert f == factor + i * U32_MODULUS && w == x + j * U32_MODULUS;
    var k := (WrappingMul(f, w) - f * w) / U32_MODULUS;
    assert WrappingMul(f, w) - f * w == k * U32_MODULUS;
    calc {
      WrappingMul(f, w) - factor * x;
    ==
      k * U32_MODULUS + (factor + i * U32_MODULUS) * (x + j * U32_MODULUS) - factor * x;
    ==
      (k + i * x + j * factor + i * j * U32_MODULUS) * U32_MODULUS;
    }
  }

  datatype Size = Size(width: nat, height: nat)
  datatype Rect = Rect(x: nat, y: nat, size: Size)

  /** `framebuffer_size`: the allocation scaled by the scale factor. */
  function FramebufferSize(width: int, height: int, factor: int): (s: Size)
    requires IsI32(width) && IsI32(height) && IsI32(factor)
    ensures s.width < U32_MODULUS && s.height < U32_MODULUS
    ensures 0 <= factor && 0 <= width && factor * width < U32_MODULUS ==> s.width == factor * width
    ensures 0 <= factor && 0 <= height && factor * height < U32_MODULUS ==> s.height == factor * height
    ensures (s.width - factor * width) % U32_MODULUS == 0
    ensures (s.height - factor * height) % U32_MODULUS == 0
  {
    ScaledCongruent(factor, width);
    ScaledCongruent(factor, height);
    Size(WrappingMul(AsU32(factor), AsU32(width)), WrappingMul(AsU32(factor), AsU32(height)))
  }

  /**
   * `window_rect`: the whole framebuffer, anchored at the origin. Its sides are
   * the scaled allocation, exact when it fits in 32 bits and wrapped otherwise.
   */
  function WindowRect(width: int, height: int, factor: int): (r: Rect)
    requires IsI32(width) && IsI32(height) && IsI32(factor)
    ensures r.x == 0 && r.y == 0
    ensures r.size.width < U32_MODULUS && r.size.height < U32_MODULUS
    ensures 0 <= factor && 0 <= width && factor * width < U32_MODULUS ==> r.size.width == factor * width
    ensures 0 <= factor && 0 <= height && factor * height < U32_MODULUS ==> r.size.height == factor * height
    ensures (r.size.width - factor * width) % U32_MODULUS == 0
    ensures (r.size.height - factor * height) % U32_MODULUS == 0
  {
    Rect(0, 0, FramebufferSize(width, height, factor))
  }

  /** A scale factor of one reports the allocation itself for any non-negative allocation. */
  lemma UnitFactor(width: int, height: int)
    requires IsI32(width) && IsI32(height) && width >= 0 && height >= 0
    ensures FramebufferSize(width, height, 1) == Size(width, height)
  {
  }

  /** The sizes are the exact products whenever they fit in 32 bits, for example at factor 2 below 2^31. */
  lemma DoubledFits(width: int, height: int)
    requires 0 <= width < 0x8000_0000 && 0 <= height < 0x8000_0000
    ensures FramebufferSize(width, height, 2) == Size(2 * width, 2 * height)
  {
  }
}
