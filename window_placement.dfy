/** The integer arithmetic both window-creating classes use to size a window from the
    screen size and centre it: a fraction of the screen for the client area, the frame
    that `AdjustWindowRect` adds, and an origin clamped at the top-left corner. */
module WindowPlacement {
  import opened Helpers

  /** `screen * num / den` on C++ `int`: the client extent asked for. The product must fit
      in an `int`; it does for every real screen. */
  function DesiredExtent(screen: int, num: nat, den: nat): (extent: int)
    requires 0 <= screen && 0 < num <= den && screen * num < 0x8000_0000
    ensures 0 <= extent <= screen
    ensures den * extent <= num * screen < den * (extent + 1)
  {
    var product := screen * num;
    assert product <= screen * den by {
      assert screen * den - product == screen * (den - num);
    }
    var q := CDiv(product, den);
    assert q * den <= screen * den;
    assert (screen - q) * den >= 0;
    q
  }

  /** `std::max<int>(0, (screen - size) / 2)` on signed `int`: the origin that centres a
      window of `size` in `screen`, or 0 when the window does not fit. */
  function CenteredOrigin(screen: int, size: int): (origin: int)
    ensures origin >= 0
    ensures size <= screen ==> origin + size <= screen && 0 <= (screen - size) - 2 * origin <= 1
    ensures size >= screen ==> origin == 0
  {
    Max(0, CDiv(screen - size, 2))
  }

  /** The same expression when `size` is a `uint32_t`: `screen` is converted to unsigned,
      the difference wraps modulo 2^32 and the halved value, always below 2^31, is then
      converted back to `int`. */
  function CenteredOriginUnsigned(screen: int, size: nat): (origin: int)
    requires size < TwoTo32
    ensures 0 <= origin < 0x8000_0000
  {
    Max(0, ToInt32(ToUint32(screen - size) / 2))
  }

  /** Where the window fits, the unsigned expression agrees with the signed one. */
  lemma UnsignedOriginAgreesWhenFitting(screen: int, size: nat)
    requires size <= screen < TwoTo32
    ensures CenteredOriginUnsigned(screen, size) == CenteredOrigin(screen, size)
  {
    assert ToUint32(screen - size) == screen - size;
  }

  /** Where the window is larger than the screen, the unsigned expression does not clamp to
      0: the difference wraps and the origin lands beyond the right or bottom edge. */
  lemma UnsignedOriginOffScreen(screen: int, size: nat)
    requires 0 <= screen < size < 0x8000_0000
    ensures CenteredOriginUnsigned(screen, size) > screen
    ensures CenteredOrigin(screen, size) == 0
  {
    assert ToUint32(screen - size) == screen - size + TwoTo32;
    assert ToUint32(screen - size) / 2 >= 0x4000_0000;
  }

  /** A 30-pixel-wide screen with a 36-pixel-wide window (20 pixels of client area and 16 of
      frame): the window is placed at x = 2147483645 instead of 0. */
  lemma UnsignedOriginExample()
    ensures CenteredOriginUnsigned(30, 36) == 0x7FFF_FFFD
    ensures CenteredOrigin(30, 36) == 0
  {
    assert ToUint32(30 - 36) == TwoTo32 - 6;
  }
}
