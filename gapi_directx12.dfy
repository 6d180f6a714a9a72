/** The GAPI interlayer (src/GAPI/dx12/DirectX12.cpp): adapter and device set-up, and
    the global fence with its counter `g_CurrentFenceValue`. The D3D12 calls that reach
    the runtime are appended to `trace`, the log shared by the GAPI swap chain and
    render pass. */
module GapiDirectX12 {
  import opened Helpers
  import opened Gpu
  import opened Dxgi

  class Interlayer {
    /** `g_EnableDebugLayer`. */
    var enableDebugLayer: bool
    /** `createFactoryFlags` passed to `CreateDXGIFactory2` by `CreateAdapter`. */
    var createFactoryFlags: nat
    /** Index of the enumerated adapter held in `g_DXGIAdapter4`. */
    var adapter: nat
    /** `g_Fence`. */
    const fence: Fence
    /** `g_CurrentFenceValue`. */
    var currentFenceValue: nat
    /** The calls issued to the runtime, in order. */
    var trace: seq<Call>

    ghost predicate Valid()
      reads this, fence
    {
      fence.Valid() && currentFenceValue == fence.signalled
    }

    /** The state `InitGraphicsInterlayer` leaves once every step succeeded: the fence is
        created at 0 and the counter is read back from it. */
    constructor (enableDebugLayer: bool, adapter: nat)
      ensures Valid() && fresh(fence)
      ensures this.enableDebugLayer == enableDebugLayer && this.adapter == adapter
      ensures createFactoryFlags == FactoryFlags(enableDebugLayer)
      ensures fence.completed == 0 && currentFenceValue == fence.completed
      ensures trace == []
    {
      this.enableDebugLayer := enableDebugLayer;
      createFactoryFlags := FactoryFlags(enableDebugLayer);
      this.adapter := adapter;
      var f := new Fence(0);
      fence := f;
      currentFenceValue := f.completed;
      trace := [];
    }

    /** `Signal()`: pre-increments the counter and queues the new value. */
    method Signal() returns (value: nat)
      requires Valid()
      modifies this`currentFenceValue, this`trace, fence`signalled
      ensures Valid()
      ensures value == old(currentFenceValue) + 1 && currentFenceValue == value
      ensures value > old(fence.signalled)
      ensures trace == old(trace) + [Call.Signal(value)]
      ensures fence.completed == old(fence.completed)
    {
      currentFenceValue := currentFenceValue + 1;
      fence.QueueSignal(currentFenceValue);
      trace := trace + [Call.Signal(currentFenceValue)];
      value := currentFenceValue;
    }

    /** `WaitForFenceValue(value)` with the default duration: no event and no wait when
        the fence has already reached `value`; otherwise an infinite wait for exactly it. */
    method WaitForFenceValue(value: nat)
      requires Valid() && value <= currentFenceValue
      modifies this`trace, fence`completed
      ensures Valid()
      ensures fence.completed == Max(old(fence.completed), value)
      ensures trace == old(trace) + WaitCalls(old(fence.completed), value)
    {
      if fence.completed < value {
        DefaultDurationIsInfinite();
        var timeout := DwordTimeout(MillisecondsMax);
        trace := trace + [SetEventOnCompletion(value), WaitForSingleObject(timeout)];
        fence.AwaitValue(value, timeout, true);
      }
    }

    /** `WaitForGPU()`: signal, then wait for that value; afterwards the fence has reached
        every value ever signalled. */
    method WaitForGPU()
      requires Valid()
      modifies this`currentFenceValue, this`trace, fence
      ensures Valid()
      ensures currentFenceValue == old(currentFenceValue) + 1
      ensures fence.completed == currentFenceValue == fence.signalled
      ensures trace == old(trace) + [Call.Signal(currentFenceValue),
        SetEventOnCompletion(currentFenceValue), WaitForSingleObject(INFINITE)]
    {
      var value := Signal();
      WaitForFenceValue(value);
    }

    /** `RequestExit()`: drains all submitted work. */
    method RequestExit()
      requires Valid()
      modifies this`currentFenceValue, this`trace, fence
      ensures Valid()
      ensures fence.completed == currentFenceValue == old(currentFenceValue) + 1
      ensures fence.completed > old(fence.signalled)
    {
      WaitForGPU();
    }
  }

  /** `InitGraphicsInterlayer(enableDebugLayer)`: enables the debug layer only on request,
      picks the adapter, and asserts in `CreateDevice` when none qualified. */
  method InitGraphicsInterlayer(enableDebugLayer: bool, adapters: seq<AdapterDesc>)
      returns (interlayer: Option<Interlayer>, outcome: Outcome)
    ensures outcome == Pass <==> interlayer.Some?
    ensures interlayer.None? ==> outcome == Thrown(AssertionFailed)
    ensures interlayer.None? <==>
      forall j | 0 <= j < |adapters| && Qualifies(adapters[j]) :: adapters[j].dedicatedVideoMemory == 0
    ensures interlayer.Some? ==> fresh(interlayer.value) && interlayer.value.Valid()
    ensures interlayer.Some? ==> IsPick(adapters, interlayer.value.adapter)
    ensures interlayer.Some? ==> interlayer.value.enableDebugLayer == enableDebugLayer
    ensures interlayer.Some? ==> interlayer.value.currentFenceValue == interlayer.value.fence.completed
  {
    var chosen, _ := PickAdapter(adapters);
    if chosen.None? {
      interlayer, outcome := None, Thrown(AssertionFailed);
    } else {
      var il := new Interlayer(enableDebugLayer, chosen.value);
      interlayer, outcome := Some(il), Pass;
    }
  }
}
