/** The fence helpers shared by the GAPI layer (src/GAPI/dx12/Common.cpp): creating a
    fence, signalling a caller-owned counter on the direct queue, and waiting for a value.
    Each D3D12 call that can fail takes the HRESULT it returns as a parameter. */
module GapiCommon {
  import opened Helpers
  import opened Gpu

  /** `CreateFence(initialValue)`: the new fence starts at `initialValue`; a failing
      `ID3D12Device::CreateFence` throws and no fence is returned. */
  method CreateFence(initialValue: nat, hr: int) returns (fence: Option<Fence>, outcome: Outcome)
    ensures outcome == ThrowIfFailed(hr)
    ensures fence.Some? <==> outcome == Pass
    ensures fence.Some? ==> fresh(fence.value) && fence.value.Valid()
    ensures fence.Some? ==> fence.value.completed == initialValue && fence.value.signalled == initialValue
  {
    outcome := ThrowIfFailed(hr);
    if outcome == Pass {
      var f := new Fence(initialValue);
      fence := Some(f);
    } else {
      fence := None;
    }
  }

  /** `Signal(fence, fenceValue)`: pre-increments the caller's counter and queues the new
      value. The increment happens before the queue call, so a throwing `Signal` still
      leaves the counter advanced; only a successful call queues the value. */
  method Signal(fence: Fence, fenceValue: nat, hr: int)
      returns (newFenceValue: nat, fenceValueForSignal: nat, calls: seq<Call>, outcome: Outcome)
    requires fence.Valid()
    modifies fence`signalled
    ensures fence.Valid() && fence.completed == old(fence.completed)
    ensures newFenceValue == fenceValue + 1 && fenceValueForSignal == newFenceValue
    ensures outcome == ThrowIfFailed(hr)
    ensures outcome == Pass ==> calls == [Call.Signal(newFenceValue)]
    ensures outcome == Pass ==> fence.signalled == Max(old(fence.signalled), newFenceValue)
    ensures outcome != Pass ==> calls == [] && fence.signalled == old(fence.signalled)
  {
    newFenceValue := fenceValue + 1;
    fenceValueForSignal := newFenceValue;
    outcome := ThrowIfFailed(hr);
    if outcome == Pass {
      fence.QueueSignal(fenceValueForSignal);
      calls := [Call.Signal(fenceValueForSignal)];
    } else {
      calls := [];
    }
  }

  /** `WaitForFenceValue(fence, value, event, duration)`: registers the event for exactly
      `value` and waits only when the fence is behind it. `fires` says whether the event
      fires before a finite timeout; with the default duration the wait is infinite. */
  method WaitForFenceValue(fence: Fence, value: nat, durationMs: int, fires: bool, hr: int)
      returns (calls: seq<Call>, outcome: Outcome)
    requires fence.Valid()
    requires fence.completed < value && !Failed(hr) && (DwordTimeout(durationMs) == INFINITE || fires)
      ==> value <= fence.signalled
    modifies fence`completed
    ensures fence.Valid()
    ensures old(fence.completed) >= value ==> calls == [] && outcome == Pass && fence.completed == old(fence.completed)
    ensures old(fence.completed) < value && Failed(hr) ==>
      calls == [] && outcome == Thrown(Hresult(hr)) && fence.completed == old(fence.completed)
    ensures old(fence.completed) < value && !Failed(hr) ==>
      calls == [SetEventOnCompletion(value), WaitForSingleObject(DwordTimeout(durationMs))] && outcome == Pass
    ensures old(fence.completed) < value && !Failed(hr) && (DwordTimeout(durationMs) == INFINITE || fires) ==>
      fence.completed == value
  {
    calls, outcome := [], Pass;
    if fence.completed < value {
      outcome := ThrowIfFailed(hr);
      if outcome == Pass {
        var timeout := DwordTimeout(durationMs);
        calls := [SetEventOnCompletion(value), WaitForSingleObject(timeout)];
        fence.AwaitValue(value, timeout, fires);
      }
    }
  }

  /** Successive signals on one counter queue strictly increasing values, the first from a
      zero counter being 1. */
  method SignalTwice(fence: Fence, hr1: int, hr2: int) returns (first: nat, second: nat)
    requires fence.Valid() && !Failed(hr1) && !Failed(hr2)
    modifies fence`signalled
    ensures first == 1 && second == 2 && fence.signalled >= second
  {
    var counter, c1, c2, o1, o2;
    counter, first, c1, o1 := Signal(fence, 0, hr1);
    counter, second, c2, o2 := Signal(fence, counter, hr2);
  }
}
