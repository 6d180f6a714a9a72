/** The standalone renderer (src/RendererDirectX12.cpp): its module globals become the
    fields of one `Renderer` object, whose constructor is the state `Initialize` leaves. */
module RendererDirectX12 {
  import opened Helpers
  import opened Gpu
  import opened Dxgi
  import FrameRing

  datatype SwapChainDesc = SwapChainDesc(width: nat, height: nat, bufferCount: nat, flags: nat)

  class Renderer {
    var isInitialized: bool
    var enableDebugLayer: bool
    var vsync: bool
    var tearingSupported: bool
    var fullscreen: bool
    /** `g_ClientWidth`, `g_ClientHeight` (uint32_t, zero-initialised). */
    var clientWidth: nat
    var clientHeight: nat
    var currentBackBufferIndex: nat
    /** The enumerated adapter `GetAdapter` returned; `None` is an empty pointer, with
        which `D3D12CreateDevice` falls back to the default adapter. */
    var adapter: Option<nat>
    var swapChainDesc: SwapChainDesc
    const fence: Fence
    /** `g_FenceValue`. */
    var fenceValue: nat
    /** `g_FrameFenceValues`. */
    const frameFenceValues: array<nat>
    /** Whether `g_BackBuffers[i]` holds a reference. */
    const backBuffers: array<bool>
    var trace: seq<Call>

    ghost function Ring(): FrameRing.Ring
      reads this, fence, frameFenceValues
    {
      FrameRing.Ring(fenceValue, fence.completed, frameFenceValues[..], currentBackBufferIndex)
    }

    ghost predicate Valid()
      reads this, fence, frameFenceValues, backBuffers
    {
      && fence.Valid() && fenceValue == fence.signalled
      && frameFenceValues.Length == FrameRing.NumFrames
      && backBuffers.Length == FrameRing.NumFrames
      && clientWidth < TwoTo32 && clientHeight < TwoTo32
      && FrameRing.Inv(Ring())
    }

    /** `Initialize(hwnd, enableDebugLayer)`. As written the debug layer is enabled whatever
        the argument, the swap chain is created with the zero-initialised client size, the
        adapter loop may leave the adapter empty, and the fence starts at 0 like every slot. */
    constructor Initialize(enableDebugLayer: bool, tearing: TearingQuery, adapters: seq<AdapterDesc>, newIndex: nat)
      requires newIndex < FrameRing.NumFrames
      ensures Valid() && fresh(fence) && fresh(frameFenceValues) && fresh(backBuffers)
      ensures isInitialized && this.enableDebugLayer
      ensures vsync && !fullscreen && tearingSupported == CheckTearingSupport(tearing)
      ensures adapter.Some? ==> IsPick(adapters, adapter.value)
      ensures adapter.None? <==>
        forall j | 0 <= j < |adapters| && Qualifies(adapters[j]) :: adapters[j].dedicatedVideoMemory == 0
      ensures clientWidth == 0 && clientHeight == 0
      ensures swapChainDesc == SwapChainDesc(0, 0, FrameRing.NumFrames, SwapChainFlags(CheckTearingSupport(tearing)))
      ensures Ring() == FrameRing.Initial(0, newIndex)
      ensures backBuffers[..] == [true, true, true]
      ensures trace == [GetBackBuffer(0), GetBackBuffer(1), GetBackBuffer(2),
        CreateCommandAllocator(0), CreateCommandAllocator(1), CreateCommandAllocator(2),
        CreateCommandList(newIndex), CloseCommandList]
    {
      this.enableDebugLayer := true;
      vsync := true;
      fullscreen := false;
      tearingSupported := CheckTearingSupport(tearing);
      var chosen, _ := PickAdapter(adapters);
      adapter := chosen;
      clientWidth, clientHeight := 0, 0;
      swapChainDesc := SwapChainDesc(0, 0, FrameRing.NumFrames, SwapChainFlags(CheckTearingSupport(tearing)));
      currentBackBufferIndex := newIndex;
      frameFenceValues := new nat[FrameRing.NumFrames](_ => 0);
      backBuffers := new bool[FrameRing.NumFrames](_ => true);
      fence := new Fence(0);
      fenceValue := 0;
      trace := [GetBackBuffer(0), GetBackBuffer(1), GetBackBuffer(2),
        CreateCommandAllocator(0), CreateCommandAllocator(1), CreateCommandAllocator(2),
        CreateCommandList(newIndex), CloseCommandList];
      isInitialized := true;
      new;
      assert frameFenceValues[..] == [0, 0, 0];
    }

    /** `Signal(queue, fence, g_FenceValue)`: pre-increments the counter and queues it. */
    method Signal() returns (value: nat)
      requires Valid()
      modifies this`fenceValue, this`trace, fence`signalled
      ensures fence.Valid() && fenceValue == fence.signalled
      ensures value == old(fenceValue) + 1 && fenceValue == value
      ensures trace == old(trace) + [Call.Signal(value)]
      ensures fence.completed == old(fence.completed)
    {
      fenceValue := fenceValue + 1;
      fence.QueueSignal(fenceValue);
      trace := trace + [Call.Signal(fenceValue)];
      value := fenceValue;
    }

    /** `WaitForFenceValue(fence, value, event)` with the default (infinite) duration. */
    method WaitForFenceValue(value: nat)
      requires fence.Valid() && fenceValue == fence.signalled && value <= fenceValue
      modifies this`trace, fence`completed
      ensures fence.Valid()
      ensures fence.completed == Max(old(fence.completed), value)
      ensures trace == old(trace) + WaitCalls(old(fence.completed), value)
    {
      if fence.completed < value {
        DefaultDurationIsInfinite();
        var timeout := DwordTimeout(MillisecondsMax);
        trace := trace + [SetEventOnCompletion(value), WaitForSingleObject(timeout)];
        fence.AwaitValue(value, timeout, true);
      }
    }

    /** `Flush(...)`: signal, then wait for exactly that value. */
    method Flush()
      requires Valid()
      modifies this`fenceValue, this`trace, fence
      ensures Valid()
      ensures Ring() == FrameRing.Flush(old(Ring()))
      ensures trace == old(trace) + [Call.Signal(fenceValue), SetEventOnCompletion(fenceValue), WaitForSingleObject(INFINITE)]
    {
      FrameRing.FlushPreservesInv(Ring());
      var value := Signal();
      WaitForFenceValue(value);
    }

    /** `RequestExit()`: a flush, after which all submitted work has completed. */
    method RequestExit()
      requires Valid()
      modifies this`fenceValue, this`trace, fence
      ensures Valid()
      ensures fence.completed == fenceValue == old(fenceValue) + 1
    {
      Flush();
    }

    /** `ResizeSwapChain(width, height)`: no-op when the size (compared as uint32) is
        unchanged; otherwise clamp to at least 1, flush, release the buffers while copying
        the current slot's value into every slot, resize to `g_NumFrames` buffers, re-read
        the index and fetch the buffers again. */
    method ResizeSwapChain(width: int, height: int, newIndex: nat)
      requires Valid() && newIndex < FrameRing.NumFrames
      requires -0x8000_0000 <= width < 0x8000_0000 && -0x8000_0000 <= height < 0x8000_0000
      modifies this`clientWidth, this`clientHeight, this`currentBackBufferIndex, this`fenceValue, this`trace,
        frameFenceValues, backBuffers, fence
      ensures Valid()
      ensures old(clientWidth) == ToUint32(width) && old(clientHeight) == ToUint32(height) ==>
        Ring() == old(Ring()) && trace == old(trace) && backBuffers[..] == old(backBuffers[..]) &&
        clientWidth == old(clientWidth) && clientHeight == old(clientHeight)
      ensures !(old(clientWidth) == ToUint32(width) && old(clientHeight) == ToUint32(height)) ==>
        && clientWidth == Max(1, width) && clientHeight == Max(1, height)
        && Ring() == FrameRing.Resize(old(Ring()), newIndex)
        && backBuffers[..] == [true, true, true]
        && trace == old(trace) +
          [Call.Signal(fenceValue), SetEventOnCompletion(fenceValue), WaitForSingleObject(INFINITE),
           ReleaseBackBuffer(0), ReleaseBackBuffer(1), ReleaseBackBuffer(2),
           ResizeBuffers(FrameRing.NumFrames, clientWidth, clientHeight),
           GetBackBuffer(0), GetBackBuffer(1), GetBackBuffer(2)]
    {
      if clientWidth != ToUint32(width) || clientHeight != ToUint32(height) {
        clientWidth := ToUint32(Max(1, width));
        clientHeight := ToUint32(Max(1, height));
        ghost var before := Ring();
        Flush();
        ReleaseBuffersAndCopyFenceValues();
        FrameRing.ResizePreservesInv(before, newIndex);
        trace := trace + [ResizeBuffers(FrameRing.NumFrames, clientWidth, clientHeight)];
        currentBackBufferIndex := newIndex;
        UpdateRenderTargetViews();
      }
    }

    /** The resize loop body over all `g_NumFrames` slots. */
    method ReleaseBuffersAndCopyFenceValues()
      requires frameFenceValues.Length == FrameRing.NumFrames && backBuffers.Length == FrameRing.NumFrames
      requires currentBackBufferIndex < FrameRing.NumFrames
      modifies frameFenceValues, backBuffers, this`trace
      ensures forall j | 0 <= j < FrameRing.NumFrames :: frameFenceValues[j] == old(frameFenceValues[currentBackBufferIndex])
      ensures backBuffers[..] == [false, false, false]
      ensures trace == old(trace) + [ReleaseBackBuffer(0), ReleaseBackBuffer(1), ReleaseBackBuffer(2)]
    {
      var current := frameFenceValues[currentBackBufferIndex];
      var i := 0;
      while i < FrameRing.NumFrames
        invariant 0 <= i <= FrameRing.NumFrames
        invariant frameFenceValues[currentBackBufferIndex] == current
        invariant forall j | 0 <= j < i :: frameFenceValues[j] == current && !backBuffers[j]
        invariant trace == old(trace) + seq(i, (k: int) requires 0 <= k => ReleaseBackBuffer(k))
      {
        backBuffers[i] := false;
        frameFenceValues[i] := frameFenceValues[currentBackBufferIndex];
        trace := trace + [ReleaseBackBuffer(i)];
        i := i + 1;
      }
    }

    /** `UpdateRenderTargetViews(...)`: fetches every back buffer from the swap chain. */
    method UpdateRenderTargetViews()
      requires backBuffers.Length == FrameRing.NumFrames
      modifies backBuffers, this`trace
      ensures backBuffers[..] == [true, true, true]
      ensures trace == old(trace) + [GetBackBuffer(0), GetBackBuffer(1), GetBackBuffer(2)]
    {
      var i := 0;
      while i < FrameRing.NumFrames
        invariant 0 <= i <= FrameRing.NumFrames
        invariant forall j | 0 <= j < i :: backBuffers[j]
        invariant trace == old(trace) + seq(i, (k: int) requires 0 <= k => GetBackBuffer(k))
      {
        backBuffers[i] := true;
        trace := trace + [GetBackBuffer(i)];
        i := i + 1;
      }
    }

    /** `SetVSync(vsync)`. */
    method SetVSync(value: bool)
      modifies this`vsync
      ensures vsync == value && IsVSync() == value
    {
      vsync := value;
    }

    /** `IsVSync()`. */
    function IsVSync(): (on: bool)
      reads this
      ensures on <==> vsync
    {
      vsync
    }

    /** `ToggleVSync()`. */
    method ToggleVSync()
      modifies this`vsync
      ensures vsync == !old(vsync)
    {
      vsync := !vsync;
    }

    /** `SetFullscreen(fullscreen)`: the flag (and the window) change only when the argument
        differs from the current state. */
    method SetFullscreen(value: bool)
      modifies this`fullscreen
      ensures fullscreen == value
      ensures old(fullscreen) == value ==> unchanged(this)
    {
      if fullscreen != value {
        fullscreen := value;
      }
    }

    /** `IsFullscreen()`. */
    function IsFullscreen(): (on: bool)
      reads this
      ensures on <==> fullscreen
    {
      fullscreen
    }

    /** `ToggleFullscreen()`. */
    method ToggleFullscreen()
      modifies this`fullscreen
      ensures fullscreen == !old(fullscreen)
    {
      SetFullscreen(!fullscreen);
    }

    /** `ToggleTearing()`: negates the flag whatever the tearing query answered. */
    method ToggleTearing()
      modifies this`tearingSupported
      ensures tearingSupported == !old(tearingSupported)
    {
      tearingSupported := !tearingSupported;
    }

    /** `Render(scene)`: reset the current slot's allocator, then the list; record; close;
        execute; signal and record into the current slot; present; adopt the new index;
        wait on its slot. */
    method Render(newIndex: nat)
      requires Valid() && newIndex < FrameRing.NumFrames
      modifies this`currentBackBufferIndex, this`fenceValue, this`trace, frameFenceValues, fence
      ensures Valid()
      ensures Ring() == FrameRing.Frame(old(Ring()), newIndex)
      ensures trace == old(trace) +
        [ResetAllocator(old(currentBackBufferIndex)), ResetCommandList(old(currentBackBufferIndex))] +
        ClearAndDrawCommands(old(currentBackBufferIndex)) +
        [CloseCommandList, ExecuteCommandLists, Call.Signal(fenceValue),
         PresentFrame(SyncInterval(vsync), PresentFlags(tearingSupported, vsync))] +
        WaitCalls(old(fence.completed), frameFenceValues[newIndex])
    {
      ghost var before := Ring();
      var index := currentBackBufferIndex;
      RecordAndExecute(index);
      var value := Signal();
      frameFenceValues[index] := value;
      var syncInterval := SyncInterval(vsync);
      var presentFlags := PresentFlags(tearingSupported, vsync);
      trace := trace + [PresentFrame(syncInterval, presentFlags)];
      currentBackBufferIndex := newIndex;
      WaitForFenceValue(frameFenceValues[newIndex]);
      FrameRing.FramePreservesInv(before, newIndex);
    }

    /** The part of `Render` before the signal: the allocator and list of slot `index` are
        reset, the frame is recorded, the list is closed and executed. */
    method RecordAndExecute(index: nat)
      modifies this`trace
      ensures trace == old(trace) + [ResetAllocator(index), ResetCommandList(index)] +
        ClearAndDrawCommands(index) + [CloseCommandList, ExecuteCommandLists]
    {
      trace := trace + [ResetAllocator(index), ResetCommandList(index)];
      trace := trace + ClearAndDrawCommands(index);
      trace := trace + [CloseCommandList, ExecuteCommandLists];
    }

    /** The GPU finishes queued work by itself; the bookkeeping invariant survives. */
    method GpuProgress(value: nat)
      requires Valid() && fence.completed <= value <= fenceValue
      modifies fence`completed
      ensures Valid()
      ensures Ring() == FrameRing.Progress(old(Ring()), value)
    {
      FrameRing.ProgressPreservesInv(Ring(), value);
      fence.Progress(value);
    }
  }
}
