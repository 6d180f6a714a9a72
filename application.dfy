/** The `Application` singleton (src/Application.cpp): the presentation settings it keeps
    (`m_vsync`, `m_allowTearing`, `m_fullscreen`), the keys that toggle them, how they
    reach the GAPI swap chain, and the size and position of the window it creates. */
module Application {
  import opened Helpers
  import opened WindowPlacement
  import FrameRing
  import opened GapiSwapChain

  /** The virtual-key codes `KeyDownEvent` reacts to. */
  const KeyV: nat := 0x56
  const KeyT: nat := 0x54
  const KeyF: nat := 0x46
  const VK_ESCAPE: nat := 0x1B

  /** The flags the application itself keeps. */
  datatype Settings = Settings(vsync: bool, allowTearing: bool, fullscreen: bool, quitPosted: bool)

  class App {
    /** The GAPI swap chain behind the `graphics::` calls. */
    const swapChain: SwapChain
    var vsync: bool
    var allowTearing: bool
    var fullscreen: bool
    /** `PostQuitMessage` was called. */
    var quitPosted: bool
    /** Every switch of the window between its bordered and its borderless full-screen
        form: `true` for a switch to full screen, `false` for a restore. */
    var windowModeChanges: seq<bool>
    /** `m_windowWidth`, `m_windowHeight` (uint32_t) and where `CreateWindow` put the window. */
    var windowWidth: nat
    var windowHeight: nat
    var windowX: int
    var windowY: int

    ghost function SettingsOf(): Settings
      reads this
    {
      Settings(vsync, allowTearing, fullscreen, quitPosted)
    }

    /** The application's vsync setting and the swap chain's agree. */
    ghost predicate Valid()
      reads this, swapChain, swapChain.interlayer, swapChain.interlayer.fence,
        swapChain.frameFenceValues, swapChain.backBuffers
    {
      && swapChain.Valid()
      && vsync == swapChain.vsync
      && windowWidth < TwoTo32 && windowHeight < TwoTo32
    }

    /** `Application()` with its member defaults, attached to an initialised swap chain to
        which `Initialize` pushes `m_vsync`. */
    constructor (swapChain: SwapChain)
      requires swapChain.Valid()
      modifies swapChain`vsync
      ensures Valid() && this.swapChain == swapChain
      ensures SettingsOf() == Settings(true, false, false, false)
      ensures windowModeChanges == [] && windowWidth == 0 && windowHeight == 0
    {
      this.swapChain := swapChain;
      vsync, allowTearing, fullscreen, quitPosted := true, false, false, false;
      windowModeChanges := [];
      windowWidth, windowHeight, windowX, windowY := 0, 0, 0, 0;
      new;
      swapChain.EnableVsync(vsync);
    }

    /** `KeyDownEvent(wParam)`: 'V' toggles vsync, 'T' toggles tearing, 'F' toggles full
        screen, Escape posts quit, and any other key changes nothing. */
    method KeyDownEvent(key: nat)
      requires Valid()
      modifies this`vsync, this`allowTearing, this`fullscreen, this`quitPosted, this`windowModeChanges, swapChain`vsync
      ensures Valid()
      ensures key == KeyV ==> SettingsOf() == old(SettingsOf()).(vsync := !old(vsync))
      ensures key == KeyT ==> (SettingsOf() ==
        old(SettingsOf()).(allowTearing := if swapChain.isSupportTearing then !old(allowTearing) else old(allowTearing)))
      ensures key == KeyF ==> (SettingsOf() == old(SettingsOf()).(fullscreen := !old(fullscreen))
        && windowModeChanges == old(windowModeChanges) + [fullscreen])
      ensures key == VK_ESCAPE ==> SettingsOf() == old(SettingsOf()).(quitPosted := true)
      ensures key != KeyF ==> windowModeChanges == old(windowModeChanges)
      ensures key != KeyV && key != KeyT && key != KeyF && key != VK_ESCAPE ==> SettingsOf() == old(SettingsOf())
    {
      if key == KeyV {
        ToggleVSync();
      } else if key == KeyT {
        ToggleTearing();
      } else if key == KeyF {
        ToggleFullscreen();
      } else if key == VK_ESCAPE {
        quitPosted := true;
      }
    }

    /** `SetVSync(vsync)`: the setting and the swap chain's flag take the same value. */
    method SetVSync(value: bool)
      requires Valid()
      modifies this`vsync, swapChain`vsync
      ensures Valid() && vsync == value && swapChain.vsync == value
    {
      vsync := value;
      swapChain.EnableVsync(vsync);
    }

    /** `IsVSync()`. */
    function IsVSync(): (on: bool)
      reads this
      ensures on <==> vsync
    {
      vsync
    }

    /** `ToggleVSync()`: negates the setting and pushes the new value to the swap chain. */
    method ToggleVSync()
      requires Valid()
      modifies this`vsync, swapChain`vsync
      ensures Valid() && vsync == !old(vsync) && swapChain.vsync == vsync
    {
      vsync := !vsync;
      swapChain.EnableVsync(vsync);
    }

    /** `SetFullscreen(fullscreen)`: asking for the current state does nothing; otherwise the
        flag changes and the window switches form once. */
    method SetFullscreen(value: bool)
      modifies this`fullscreen, this`windowModeChanges
      ensures fullscreen == value
      ensures old(fullscreen) == value ==> windowModeChanges == old(windowModeChanges)
      ensures old(fullscreen) != value ==> windowModeChanges == old(windowModeChanges) + [value]
    {
      if fullscreen != value {
        fullscreen := value;
        windowModeChanges := windowModeChanges + [fullscreen];
      }
    }

    /** `IsFullscreen()`. */
    function IsFullscreen(): (on: bool)
      reads this
      ensures on <==> fullscreen
    {
      fullscreen
    }

    /** `ToggleFullscreen()`: always a real switch. */
    method ToggleFullscreen()
      modifies this`fullscreen, this`windowModeChanges
      ensures fullscreen == !old(fullscreen)
      ensures windowModeChanges == old(windowModeChanges) + [fullscreen]
    {
      SetFullscreen(!fullscreen);
    }

    /** `ToggleTearing()`: flips the application's own flag only when the swap chain reports
        tearing support; `graphics::AllowTearing` is never called, so what `Present` uses is
        unaffected. */
    method ToggleTearing()
      modifies this`allowTearing
      ensures allowTearing == if swapChain.isSupportTearing then !old(allowTearing) else old(allowTearing)
      ensures swapChain.allowTearing == old(swapChain.allowTearing)
    {
      if swapChain.isSupportTearing {
        allowTearing := !allowTearing;
      }
    }

    /** `ResizeWindowEvent()`: forwards the client rectangle's width and height to
        `graphics::ResizeSwapChain`. `newIndex` is the back-buffer index the swap chain
        reports after a resize. */
    method ResizeWindowEvent(left: int, top: int, right: int, bottom: int, newIndex: nat)
      requires Valid() && newIndex < FrameRing.NumFrames
      requires -0x8000_0000 <= right - left < 0x8000_0000 && -0x8000_0000 <= bottom - top < 0x8000_0000
      modifies swapChain`clientWidth, swapChain`clientHeight, swapChain`currentBackBufferIndex,
        swapChain.frameFenceValues, swapChain.backBuffers, swapChain.interlayer`currentFenceValue,
        swapChain.interlayer`trace, swapChain.interlayer.fence
      ensures Valid()
      ensures old(swapChain.clientWidth) == ToUint32(right - left) && old(swapChain.clientHeight) == ToUint32(bottom - top) ==>
        (swapChain.clientWidth == old(swapChain.clientWidth) && swapChain.clientHeight == old(swapChain.clientHeight)
         && swapChain.Ring() == old(swapChain.Ring()))
      ensures !(old(swapChain.clientWidth) == ToUint32(right - left) && old(swapChain.clientHeight) == ToUint32(bottom - top)) ==>
        (swapChain.clientWidth == Max(1, right - left) && swapChain.clientHeight == Max(1, bottom - top)
         && swapChain.Ring() == FrameRing.Resize(old(swapChain.Ring()), newIndex))
    {
      var width := right - left;
      var height := bottom - top;
      swapChain.ResizeSwapChain(width, height, newIndex);
    }

    /** `CreateWindow(hInst)`: a client area of two thirds of the screen, grown by the frame
        `AdjustWindowRect` adds, centred and clamped to the top-left corner. The origin is
        the clamped one. The expression as written computes it in unsigned arithmetic
        (`WindowPlacement.CenteredOriginUnsigned`); the two agree wherever the window fits on
        the screen, and only there. */
    method CreateWindow(screenWidth: int, screenHeight: int, frameWidth: nat, frameHeight: nat)
      requires 0 <= screenWidth && screenWidth * 2 < 0x8000_0000
      requires 0 <= screenHeight && screenHeight * 2 < 0x8000_0000
      requires DesiredExtent(screenWidth, 2, 3) + frameWidth < 0x8000_0000
      requires DesiredExtent(screenHeight, 2, 3) + frameHeight < 0x8000_0000
      modifies this`windowWidth, this`windowHeight, this`windowX, this`windowY
      ensures windowWidth == DesiredExtent(screenWidth, 2, 3) + frameWidth
      ensures windowHeight == DesiredExtent(screenHeight, 2, 3) + frameHeight
      ensures windowX == CenteredOrigin(screenWidth, windowWidth) && windowX >= 0
      ensures windowY == CenteredOrigin(screenHeight, windowHeight) && windowY >= 0
      ensures windowWidth <= screenWidth ==> windowX == CenteredOriginUnsigned(screenWidth, windowWidth)
      ensures windowHeight <= screenHeight ==> windowY == CenteredOriginUnsigned(screenHeight, windowHeight)
    {
      windowWidth := DesiredExtent(screenWidth, 2, 3) + frameWidth;
      windowHeight := DesiredExtent(screenHeight, 2, 3) + frameHeight;
      windowX := CenteredOrigin(screenWidth, windowWidth);
      windowY := CenteredOrigin(screenHeight, windowHeight);
      if windowWidth <= screenWidth {
        UnsignedOriginAgreesWhenFitting(screenWidth, windowWidth);
      }
      if windowHeight <= screenHeight {
        UnsignedOriginAgreesWhenFitting(screenHeight, windowHeight);
      }
    }
  }
}
