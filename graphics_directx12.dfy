/** The `graphics` implementation in src/DirectX12_Impl/GraphicsDirectX12.cpp: adapter and
    device set-up in `InitGPU`, and the fence, counter and frame slots that
    src/GAPI/dx12/Renderer.cpp drives (the two are paired by src/GraphicsAPI.hpp). The swap
    chain, back buffers and present flags this file uses are declared elsewhere; their
    values enter as constructor parameters. */
module GraphicsDirectX12 {
  import opened Helpers
  import opened Gpu
  import opened Dxgi
  import FrameRing

  class Graphics {
    var enableDebugLayer: bool
    var createFactoryFlags: nat
    /** Index of the enumerated adapter held in `g_dxgiAdapter4`. */
    var adapter: nat
    var currentBackBufferIndex: nat
    var vsync: bool
    var tearingSupported: bool
    const fence: Fence
    /** `g_FenceValue`. */
    var fenceValue: nat
    /** `g_FrameFenceValues`. */
    const frameFenceValues: array<nat>
    var trace: seq<Call>

    ghost function Ring(): FrameRing.Ring
      reads this, fence, frameFenceValues
    {
      FrameRing.Ring(fenceValue, fence.completed, frameFenceValues[..], currentBackBufferIndex)
    }

    ghost predicate Valid()
      reads this, fence, frameFenceValues
    {
      && fence.Valid() && fenceValue == fence.signalled
      && frameFenceValues.Length == FrameRing.NumFrames
      && FrameRing.Inv(Ring())
    }

    /** The state `InitGPU` leaves once the adapter was found: the back buffers are fetched,
        exactly `g_NumFrames` allocators are created, the list is created on the current
        index's allocator and closed, and fence, counter and slots all start at 0. */
    constructor (enableDebugLayer: bool, adapter: nat, newIndex: nat, vsync: bool, tearingSupported: bool)
      requires newIndex < FrameRing.NumFrames
      ensures Valid() && fresh(fence) && fresh(frameFenceValues)
      ensures this.enableDebugLayer == enableDebugLayer && createFactoryFlags == FactoryFlags(enableDebugLayer)
      ensures this.adapter == adapter && this.vsync == vsync && this.tearingSupported == tearingSupported
      ensures Ring() == FrameRing.Initial(0, newIndex)
      ensures trace == [GetBackBuffer(0), GetBackBuffer(1), GetBackBuffer(2),
        CreateCommandAllocator(0), CreateCommandAllocator(1), CreateCommandAllocator(2),
        CreateCommandList(newIndex), CloseCommandList]
    {
      this.enableDebugLayer := enableDebugLayer;
      createFactoryFlags := FactoryFlags(enableDebugLayer);
      this.adapter := adapter;
      currentBackBufferIndex := newIndex;
      this.vsync := vsync;
      this.tearingSupported := tearingSupported;
      fence := new Fence(0);
      fenceValue := 0;
      frameFenceValues := new nat[FrameRing.NumFrames](_ => 0);
      trace := [GetBackBuffer(0), GetBackBuffer(1), GetBackBuffer(2)];
      new;
      CreateAllocators(newIndex);
      assert frameFenceValues[..] == [0, 0, 0];
    }

    /** The allocator loop of `InitGPU` and the command list created (and closed) on the
        allocator of the current back buffer. */
    method CreateAllocators(current: nat)
      modifies this`trace
      ensures trace == old(trace) + [CreateCommandAllocator(0), CreateCommandAllocator(1),
        CreateCommandAllocator(2), CreateCommandList(current), CloseCommandList]
    {
      var i := 0;
      while i < FrameRing.NumFrames
        invariant 0 <= i <= FrameRing.NumFrames
        invariant trace == old(trace) + seq(i, (k: int) requires 0 <= k => CreateCommandAllocator(k))
      {
        trace := trace + [CreateCommandAllocator(i)];
        i := i + 1;
      }
      trace := trace + [CreateCommandList(current), CloseCommandList];
    }

    /** `Signal(queue, fence, fenceValue)`: pre-increments the counter and queues it. */
    method Signal() returns (value: nat)
      requires fence.Valid() && fenceValue == fence.signalled
      modifies this`fenceValue, this`trace, fence`signalled
      ensures fence.Valid() && fenceValue == fence.signalled
      ensures value == old(fenceValue) + 1 && fenceValue == value
      ensures trace == old(trace) + [Call.Signal(value)]
      ensures fence.completed == old(fence.completed)
    {
      fenceValue := fenceValue + 1;
      fence.QueueSignal(fenceValue);
      trace := trace + [Call.Signal(fenceValue)];
      value := fenceValue;
    }

    /** `WaitForFenceValue(fence, value, event)` with the default (infinite) duration. */
    method WaitForFenceValue(value: nat)
      requires fence.Valid() && fenceValue == fence.signalled && value <= fenceValue
      modifies this`trace, fence`completed
      ensures fence.Valid()
      ensures fence.completed == Max(old(fence.completed), value)
      ensures trace == old(trace) + WaitCalls(old(fence.completed), value)
    {
      if fence.completed < value {
        DefaultDurationIsInfinite();
        var timeout := DwordTimeout(MillisecondsMax);
        trace := trace + [SetEventOnCompletion(value), WaitForSingleObject(timeout)];
        fence.AwaitValue(value, timeout, true);
      }
    }

    /** `RequestExit()`: signal and wait for that value, draining all submitted work. */
    method RequestExit()
      requires Valid()
      modifies this`fenceValue, this`trace, fence
      ensures Valid()
      ensures Ring() == FrameRing.Flush(old(Ring()))
      ensures fence.completed == fenceValue == old(fenceValue) + 1
    {
      FrameRing.FlushPreservesInv(Ring());
      var value := Signal();
      WaitForFenceValue(value);
    }

    /** The GPU finishes queued work by itself; the bookkeeping invariant survives. */
    method GpuProgress(value: nat)
      requires Valid() && fence.completed <= value <= fenceValue
      modifies fence`completed
      ensures Valid()
      ensures Ring() == FrameRing.Progress(old(Ring()), value)
    {
      FrameRing.ProgressPreservesInv(Ring(), value);
      fence.Progress(value);
    }
  }

  /** `InitGPU(enableDebugLayer)`: the debug layer only on request; `CreateDevice` asserts
      when the adapter loop found nothing. `newIndex` is the swap chain's current index. */
  method InitGPU(enableDebugLayer: bool, adapters: seq<AdapterDesc>, newIndex: nat, vsync: bool, tearingSupported: bool)
      returns (graphics: Option<Graphics>, outcome: Outcome)
    requires newIndex < FrameRing.NumFrames
    ensures outcome == Pass <==> graphics.Some?
    ensures graphics.None? ==> outcome == Thrown(AssertionFailed)
    ensures graphics.None? <==>
      forall j | 0 <= j < |adapters| && Qualifies(adapters[j]) :: adapters[j].dedicatedVideoMemory == 0
    ensures graphics.Some? ==> fresh(graphics.value) && graphics.value.Valid()
    ensures graphics.Some? ==> IsPick(adapters, graphics.value.adapter)
    ensures graphics.Some? ==> graphics.value.enableDebugLayer == enableDebugLayer
    ensures graphics.Some? ==> graphics.value.Ring() == FrameRing.Initial(0, newIndex)
  {
    var chosen, _ := PickAdapter(adapters);
    if chosen.None? {
      graphics, outcome := None, Thrown(AssertionFailed);
    } else {
      var g := new Graphics(enableDebugLayer, chosen.value, newIndex, vsync, tearingSupported);
      graphics, outcome := Some(g), Pass;
    }
  }
}
