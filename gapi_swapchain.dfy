/** The GAPI swap chain (src/GAPI/dx12/SwapChain.cpp): client size, back-buffer index,
    present flags and the per-back-buffer fence values `g_FrameFenceValues`, driven
    through the interlayer's fence. */
module GapiSwapChain {
  import opened Helpers
  import opened Gpu
  import opened Dxgi
  import FrameRing
  import opened GapiDirectX12

  /** The parts of `DXGI_SWAP_CHAIN_DESC1` the bookkeeping depends on. */
  datatype SwapChainDesc = SwapChainDesc(width: nat, height: nat, bufferCount: nat, flags: nat)

  class SwapChain {
    const interlayer: Interlayer
    /** `g_ClientWidth`, `g_ClientHeight` (uint32_t). */
    var clientWidth: nat
    var clientHeight: nat
    /** `g_CurrentBackBufferIndex`. */
    var currentBackBufferIndex: nat
    /** `g_IsSupportTearing`, `g_AllowTearing`, `g_Vsync`. */
    var isSupportTearing: bool
    var allowTearing: bool
    var vsync: bool
    /** The description the swap chain was created with. */
    var desc: SwapChainDesc
    /** `g_FrameFenceValues`. */
    const frameFenceValues: array<nat>
    /** Whether `g_BackBuffers[i]` holds a reference. */
    const backBuffers: array<bool>

    /** The frame-ring state this swap chain and the interlayer's fence make up. */
    ghost function Ring(): FrameRing.Ring
      reads this, interlayer, interlayer.fence, frameFenceValues
    {
      FrameRing.Ring(interlayer.currentFenceValue, interlayer.fence.completed,
        frameFenceValues[..], currentBackBufferIndex)
    }

    ghost predicate Valid()
      reads this, interlayer, interlayer.fence, frameFenceValues, backBuffers
    {
      && interlayer.Valid()
      && frameFenceValues.Length == FrameRing.NumFrames
      && backBuffers.Length == FrameRing.NumFrames
      && clientWidth < TwoTo32 && clientHeight < TwoTo32
      && FrameRing.Inv(Ring())
    }

    /** `InitSwapChain(hwnd, width, height)`: stores the size as uint32, queries tearing,
        creates the swap chain with `g_NumFrames` buffers, fetches the back buffers, flushes
        the GPU and reads the current index. `newIndex` is what the swap chain reports. */
    constructor (interlayer: Interlayer, width: int, height: int, tearing: TearingQuery, newIndex: nat)
      requires interlayer.Valid() && newIndex < FrameRing.NumFrames
      modifies interlayer`currentFenceValue, interlayer`trace, interlayer.fence
      ensures Valid() && fresh(frameFenceValues) && fresh(backBuffers)
      ensures this.interlayer == interlayer
      ensures clientWidth == ToUint32(width) && clientHeight == ToUint32(height)
      ensures isSupportTearing == CheckTearingSupport(tearing)
      ensures !allowTearing && vsync
      ensures desc == SwapChainDesc(ToUint32(width), ToUint32(height), FrameRing.NumFrames,
        SwapChainFlags(isSupportTearing))
      ensures currentBackBufferIndex == newIndex
      ensures forall j | 0 <= j < FrameRing.NumFrames :: frameFenceValues[j] == 0 && backBuffers[j]
      ensures interlayer.fence.completed == interlayer.currentFenceValue == old(interlayer.currentFenceValue) + 1
      ensures interlayer.trace == old(interlayer.trace) +
        [GetBackBuffer(0), GetBackBuffer(1), GetBackBuffer(2),
         Call.Signal(interlayer.currentFenceValue), SetEventOnCompletion(interlayer.currentFenceValue),
         WaitForSingleObject(INFINITE)]
    {
      this.interlayer := interlayer;
      clientWidth := ToUint32(width);
      clientHeight := ToUint32(height);
      isSupportTearing := CheckTearingSupport(tearing);
      allowTearing := false;
      vsync := true;
      desc := SwapChainDesc(ToUint32(width), ToUint32(height), FrameRing.NumFrames,
        SwapChainFlags(CheckTearingSupport(tearing)));
      frameFenceValues := new nat[FrameRing.NumFrames](_ => 0);
      backBuffers := new bool[FrameRing.NumFrames](_ => true);
      currentBackBufferIndex := newIndex;
      new;
      interlayer.trace := interlayer.trace + [GetBackBuffer(0), GetBackBuffer(1), GetBackBuffer(2)];
      interlayer.WaitForGPU();
      currentBackBufferIndex := newIndex;
    }

    /** `ResizeSwapChain(width, height)`. The comparison converts the int arguments to
        uint32; on a change the size is clamped to at least 1, the GPU is flushed before the
        back buffers are released, every slot takes the current slot's value, the buffers
        are resized to `g_NumFrames` and the index is re-read. */
    method ResizeSwapChain(width: int, height: int, newIndex: nat)
      requires Valid() && newIndex < FrameRing.NumFrames
      requires -0x8000_0000 <= width < 0x8000_0000 && -0x8000_0000 <= height < 0x8000_0000
      modifies this`clientWidth, this`clientHeight, this`currentBackBufferIndex,
        frameFenceValues, backBuffers, interlayer`currentFenceValue, interlayer`trace, interlayer.fence
      ensures Valid()
      ensures old(clientWidth) == ToUint32(width) && old(clientHeight) == ToUint32(height) ==>
        Ring() == old(Ring()) && interlayer.trace == old(interlayer.trace) &&
        backBuffers[..] == old(backBuffers[..]) && clientWidth == old(clientWidth) && clientHeight == old(clientHeight)
      ensures !(old(clientWidth) == ToUint32(width) && old(clientHeight) == ToUint32(height)) ==>
        && clientWidth == Max(1, width) && clientHeight == Max(1, height)
        && Ring() == FrameRing.Resize(old(Ring()), newIndex)
        && backBuffers[..] == [true, true, true]
        && interlayer.trace == old(interlayer.trace) +
          [Call.Signal(interlayer.currentFenceValue), SetEventOnCompletion(interlayer.currentFenceValue),
           WaitForSingleObject(INFINITE),
           ReleaseBackBuffer(0), ReleaseBackBuffer(1), ReleaseBackBuffer(2),
           ResizeBuffers(FrameRing.NumFrames, clientWidth, clientHeight),
           GetBackBuffer(0), GetBackBuffer(1), GetBackBuffer(2)]
    {
      if clientWidth != ToUint32(width) || clientHeight != ToUint32(height) {
        clientWidth := ToUint32(Max(1, width));
        clientHeight := ToUint32(Max(1, height));
        ghost var before := Ring();
        interlayer.WaitForGPU();
        ReleaseBuffersAndCopyFenceValues();
        FrameRing.ResizePreservesInv(before, newIndex);
        interlayer.trace := interlayer.trace + [ResizeBuffers(FrameRing.NumFrames, clientWidth, clientHeight)];
        currentBackBufferIndex := newIndex;
        UpdateRenderTargetViews();
      }
    }

    /** The resize loop: every back-buffer reference is released and every slot takes the
        value of the current back buffer's slot. */
    method ReleaseBuffersAndCopyFenceValues()
      requires frameFenceValues.Length == FrameRing.NumFrames && backBuffers.Length == FrameRing.NumFrames
      requires currentBackBufferIndex < FrameRing.NumFrames
      modifies frameFenceValues, backBuffers, interlayer`trace
      ensures forall j | 0 <= j < FrameRing.NumFrames :: frameFenceValues[j] == old(frameFenceValues[currentBackBufferIndex])
      ensures backBuffers[..] == [false, false, false]
      ensures interlayer.trace == old(interlayer.trace) +
        [ReleaseBackBuffer(0), ReleaseBackBuffer(1), ReleaseBackBuffer(2)]
    {
      var current := frameFenceValues[currentBackBufferIndex];
      var i := 0;
      while i < FrameRing.NumFrames
        invariant 0 <= i <= FrameRing.NumFrames
        invariant frameFenceValues[currentBackBufferIndex] == current
        invariant forall j | 0 <= j < i :: frameFenceValues[j] == current && !backBuffers[j]
        invariant interlayer.trace == old(interlayer.trace) + seq(i, (k: int) requires 0 <= k => ReleaseBackBuffer(k))
      {
        backBuffers[i] := false;
        frameFenceValues[i] := frameFenceValues[currentBackBufferIndex];
        interlayer.trace := interlayer.trace + [ReleaseBackBuffer(i)];
        i := i + 1;
      }
    }

    /** `UpdateRenderTargetViews()`: fetches every back buffer from the swap chain. */
    method UpdateRenderTargetViews()
      requires backBuffers.Length == FrameRing.NumFrames
      modifies backBuffers, interlayer`trace
      ensures backBuffers[..] == [true, true, true]
      ensures interlayer.trace == old(interlayer.trace) + [GetBackBuffer(0), GetBackBuffer(1), GetBackBuffer(2)]
    {
      var i := 0;
      while i < FrameRing.NumFrames
        invariant 0 <= i <= FrameRing.NumFrames
        invariant forall j | 0 <= j < i :: backBuffers[j]
        invariant interlayer.trace == old(interlayer.trace) + seq(i, (k: int) requires 0 <= k => GetBackBuffer(k))
      {
        backBuffers[i] := true;
        interlayer.trace := interlayer.trace + [GetBackBuffer(i)];
        i := i + 1;
      }
    }

    /** `MoveToNextFrame()`: waits until the slot of the current back buffer has retired. */
    method MoveToNextFrame()
      requires interlayer.Valid() && frameFenceValues.Length == FrameRing.NumFrames
      requires currentBackBufferIndex < FrameRing.NumFrames
      requires frameFenceValues[currentBackBufferIndex] <= interlayer.currentFenceValue
      modifies interlayer`trace, interlayer.fence`completed
      ensures interlayer.Valid()
      ensures interlayer.fence.completed ==
        FrameRing.AfterWait(old(interlayer.fence.completed), frameFenceValues[currentBackBufferIndex])
      ensures interlayer.trace == old(interlayer.trace) +
        WaitCalls(old(interlayer.fence.completed), frameFenceValues[currentBackBufferIndex])
    {
      var currentFenceValue := frameFenceValues[currentBackBufferIndex];
      interlayer.WaitForFenceValue(currentFenceValue);
    }

    /** `Present()`: presents first, then records a fresh signal into the slot of the
        buffer just presented, adopts the swap chain's new index and waits on its slot. */
    method Present(newIndex: nat)
      requires Valid() && newIndex < FrameRing.NumFrames
      modifies this`currentBackBufferIndex, frameFenceValues, interlayer`currentFenceValue,
        interlayer`trace, interlayer.fence
      ensures Valid()
      ensures Ring() == FrameRing.Frame(old(Ring()), newIndex)
      ensures interlayer.trace == old(interlayer.trace) +
        [PresentFrame(SyncInterval(vsync), PresentFlags(allowTearing, vsync)), Call.Signal(interlayer.currentFenceValue)] +
        WaitCalls(old(interlayer.fence.completed), frameFenceValues[newIndex])
    {
      ghost var before := Ring();
      var syncInterval := SyncInterval(vsync);
      var presentFlags := PresentFlags(allowTearing, vsync);
      interlayer.trace := interlayer.trace + [PresentFrame(syncInterval, presentFlags)];
      var value := interlayer.Signal();
      frameFenceValues[currentBackBufferIndex] := value;
      currentBackBufferIndex := newIndex;
      MoveToNextFrame();
      FrameRing.FramePreservesInv(before, newIndex);
    }

    /** `AcquireBackbuffer(commandList)`: PRESENT to RENDER_TARGET on the current buffer. */
    method AcquireBackbuffer()
      modifies interlayer`trace
      ensures interlayer.trace == old(interlayer.trace) + [Barrier(currentBackBufferIndex, PresentState, RenderTargetState)]
    {
      interlayer.trace := interlayer.trace + [Barrier(currentBackBufferIndex, PresentState, RenderTargetState)];
    }

    /** `ReleaseBackbuffer(commandList)`: RENDER_TARGET to PRESENT on the current buffer. */
    method ReleaseBackbuffer()
      modifies interlayer`trace
      ensures interlayer.trace == old(interlayer.trace) + [Barrier(currentBackBufferIndex, RenderTargetState, PresentState)]
    {
      interlayer.trace := interlayer.trace + [Barrier(currentBackBufferIndex, RenderTargetState, PresentState)];
    }

    /** `ClearCurrentBackbuffer(commandList, color)`: clears the current buffer's view. */
    method ClearCurrentBackbuffer()
      modifies interlayer`trace
      ensures interlayer.trace == old(interlayer.trace) + [ClearRenderTarget(currentBackBufferIndex)]
    {
      interlayer.trace := interlayer.trace + [ClearRenderTarget(currentBackBufferIndex)];
    }

    /** `AllowTearing(value)`. */
    method AllowTearing(value: bool)
      modifies this`allowTearing
      ensures allowTearing == value
    {
      allowTearing := value;
    }

    /** `EnableVsync(value)`. */
    method EnableVsync(value: bool)
      modifies this`vsync
      ensures vsync == value
    {
      vsync := value;
    }

    /** The GPU finishes queued work by itself; the bookkeeping invariant survives. */
    method GpuProgress(value: nat)
      requires Valid() && interlayer.fence.completed <= value <= interlayer.currentFenceValue
      modifies interlayer.fence`completed
      ensures Valid()
      ensures Ring() == FrameRing.Progress(old(Ring()), value)
    {
      FrameRing.ProgressPreservesInv(Ring(), value);
      interlayer.fence.Progress(value);
    }
  }
}
