/** windowInfo.ts: the size record of a render window, scaled by the shading scale. */
module Windows {
  import opened Host

  /**
   * The scaled size of one dimension, `max(floor(native * scale), 1)`: the largest integer not
   * above `native * scale`, raised to 1 when that is smaller.
   */
  function ScaledSize(native: int, scale: real): (r: int)
    ensures r >= 1
    ensures r == 1 || ((r as real) <= (native as real) * scale < (r as real) + 1.0)
    ensures (native as real) * scale >= 1.0 ==> (r as real) <= (native as real) * scale < (r as real) + 1.0
  {
    Max(Floor((native as real) * scale), 1)
  }

  /** At scale 1 a size of at least 1 is kept as it is. */
  lemma ScaledSizeUnitScale(native: int)
    requires native >= 1
    ensures ScaledSize(native, 1.0) == native
  {
  }

  /** With a scale in (0, 1] a size of at least 1 never grows. */
  lemma ScaledSizeNotAboveNative(native: int, scale: real)
    requires native >= 1 && 0.0 < scale <= 1.0
    ensures 1 <= ScaledSize(native, scale) <= native
  {
    assert (native as real) * scale <= (native as real) * 1.0;
  }

  /** A larger scale never gives a smaller size. */
  lemma ScaledSizeMonotonic(native: int, s: real, t: real)
    requires native >= 0 && s <= t
    ensures ScaledSize(native, s) <= ScaledSize(native, t)
  {
    assert (native as real) * s <= (native as real) * t;
  }

  /** The six values a window-info record holds. */
  datatype WindowSize = WindowSize(
    id: nat, width: int, height: int, nativeWidth: int, nativeHeight: int, shadingScale: real)

  /** The field initialisers: the invalid id 0xFFFFFFFF, zero sizes and scale 1. */
  const UnsetSize := WindowSize(0xFFFF_FFFF, 0, 0, 0, 0, 1.0)

  /** What `set(id, nativeWidth, nativeHeight, shadingScale)` stores. */
  function SetSize(id: nat, nativeWidth: int, nativeHeight: int, scale: real): (s: WindowSize)
    ensures s.id == id && s.nativeWidth == nativeWidth && s.nativeHeight == nativeHeight
    ensures s.shadingScale == scale
    ensures s.width >= 1 && s.height >= 1
    ensures s.width == ScaledSize(nativeWidth, scale) && s.height == ScaledSize(nativeHeight, scale)
  {
    WindowSize(id, Max(Floor((nativeWidth as real) * scale), 1), Max(Floor((nativeHeight as real) * scale), 1),
               nativeWidth, nativeHeight, scale)
  }

  class WindowInfo {
    var id: nat
    var width: int
    var height: int
    var nativeWidth: int
    var nativeHeight: int
    var shadingScale: real

    /** The record's values, as the getters return them. */
    function Size(): WindowSize
      reads this
    {
      WindowSize(id, width, height, nativeWidth, nativeHeight, shadingScale)
    }

    constructor ()
      ensures Size() == UnsetSize
    {
      id := 0xFFFF_FFFF;
      width, height := 0, 0;
      nativeWidth, nativeHeight := 0, 0;
      shadingScale := 1.0;
    }

    /** `set(id, nativeWidth, nativeHeight, shadingScale = 1)`. */
    method Set(newId: nat, newNativeWidth: int, newNativeHeight: int, scale: real)
      modifies this
      ensures Size() == SetSize(newId, newNativeWidth, newNativeHeight, scale)
      ensures width >= 1 && height >= 1
    {
      id := newId;
      nativeWidth := newNativeWidth;
      nativeHeight := newNativeHeight;
      shadingScale := scale;
      width := Max(Floor((newNativeWidth as real) * scale), 1);
      height := Max(Floor((newNativeHeight as real) * scale), 1);
    }
  }
}
