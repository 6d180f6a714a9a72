/** The GPU side of the fence protocol, seen from the CPU: a fence object whose
    completed value only grows, never passes the highest value queued on it, and
    reaches a value a waiting CPU thread asked for before that thread resumes. */
module Gpu {
  import opened Helpers

  /** Win32 `INFINITE` timeout of `WaitForSingleObject`. */
  const INFINITE: nat := 0xFFFF_FFFF
  /** `std::chrono::milliseconds::max().count()`: the largest signed 64-bit count. */
  const MillisecondsMax: int := 0x7FFF_FFFF_FFFF_FFFF

  /** `static_cast<DWORD>(duration.count())`: the 32-bit unsigned truncation of a millisecond count. */
  function DwordTimeout(milliseconds: int): (timeout: nat)
    ensures timeout < TwoTo32
    ensures 0 <= milliseconds < TwoTo32 ==> timeout == milliseconds
  {
    ToUint32(milliseconds)
  }

  /** The default duration of every `WaitForFenceValue` truncates to `INFINITE`: the wait cannot time out. */
  lemma DefaultDurationIsInfinite()
    ensures DwordTimeout(MillisecondsMax) == INFINITE
  {
    assert MillisecondsMax == 0x7FFF_FFFF * TwoTo32 + INFINITE;
  }

  /** An `ID3D12Fence` together with the command queue that signals it. */
  class Fence {
    /** `GetCompletedValue()`: the last value the GPU has reached. */
    var completed: nat
    /** The highest value queued by a `Signal` so far (or the initial value). */
    ghost var signalled: nat

    ghost predicate Valid()
      reads this
    {
      completed <= signalled
    }

    /** `ID3D12Device::CreateFence(initialValue, ...)`. */
    constructor (initialValue: nat)
      ensures Valid()
      ensures completed == initialValue && signalled == initialValue
    {
      completed := initialValue;
      signalled := initialValue;
    }

    /** `ID3D12CommandQueue::Signal(fence, value)`: the GPU will set the fence to `value`
        once the work queued before it has finished. */
    method QueueSignal(value: nat)
      requires Valid()
      modifies this`signalled
      ensures Valid()
      ensures signalled == Max(old(signalled), value)
    {
      signalled := Max(signalled, value);
    }

    /** `SetEventOnCompletion(value, event)` followed by `WaitForSingleObject(event, timeout)`.
        The event fires once the fence reaches `value`; `fires` says whether that happened
        before a finite timeout ran out. An infinite wait for a value that was never queued
        would never return. */
    method AwaitValue(value: nat, timeout: nat, fires: bool)
      requires Valid()
      requires timeout == INFINITE || fires ==> value <= signalled
      modifies this`completed
      ensures Valid()
      ensures timeout == INFINITE || fires ==> completed == Max(old(completed), value)
      ensures !(timeout == INFINITE || fires) ==> completed == old(completed)
    {
      if timeout == INFINITE || fires {
        completed := Max(completed, value);
      }
    }

    /** The GPU runs on by itself and finishes more queued work. */
    method Progress(value: nat)
      requires Valid()
      requires completed <= value <= signalled
      modifies this`completed
      ensures Valid()
      ensures completed == value
    {
      completed := value;
    }
  }

  /** Resource states a back buffer moves between. */
  datatype ResourceState = PresentState | RenderTargetState

  /** The externally visible steps of a frame, in the order the CPU issues them. */
  datatype Call =
    | CreateCommandAllocator(allocator: nat)
    | CreateCommandList(allocator: nat)
    | ResetAllocator(allocator: nat)
    | ResetCommandList(allocator: nat)
    | Barrier(buffer: nat, before: ResourceState, after: ResourceState)
    | ClearRenderTarget(buffer: nat)
    | Draw
    | CloseCommandList
    | ExecuteCommandLists
    | Signal(value: nat)
    | SetEventOnCompletion(value: nat)
    | WaitForSingleObject(timeout: nat)
    | PresentFrame(syncInterval: nat, flags: nat)
    | ReleaseBackBuffer(buffer: nat)
    | ResizeBuffers(count: nat, width: nat, height: nat)
    | GetBackBuffer(buffer: nat)

  /** The calls `WaitForFenceValue(target)` with the default duration issues when the fence
      stands at `completed`: none when it has reached `target`, else an infinite wait on it. */
  function WaitCalls(completed: nat, target: nat): (calls: seq<Call>)
    ensures calls == [] <==> completed >= target
    ensures calls != [] ==> calls == [SetEventOnCompletion(target), WaitForSingleObject(INFINITE)]
  {
    if completed < target then [SetEventOnCompletion(target), WaitForSingleObject(INFINITE)] else []
  }

  /** Replays the barriers of `calls` that name back buffer `buffer`, starting from `state`.
      `None` when a barrier's `before` state is not the state the buffer is in, which the
      D3D12 debug layer reports as an error. */
  function TrackState(state: ResourceState, calls: seq<Call>, buffer: nat): (r: Option<ResourceState>)
    ensures calls == [] ==> r == Some(state)
    ensures (forall i | 0 <= i < |calls| :: !(calls[i].Barrier? && calls[i].buffer == buffer)) ==>
      r == Some(state)
    ensures calls != [] && calls[0].Barrier? && calls[0].buffer == buffer && calls[0].before != state ==>
      r.None?
    ensures r.Some? && r.value != state ==>
      exists i | 0 <= i < |calls| :: calls[i].Barrier? && calls[i].buffer == buffer && calls[i].after == r.value
    decreases |calls|
  {
    if calls == [] then Some(state)
    else
      var c := calls[0];
      if c.Barrier? && c.buffer == buffer then
        if c.before == state then TrackState(c.after, calls[1..], buffer) else None
      else TrackState(state, calls[1..], buffer)
  }

  /** Replaying a concatenation replays the parts one after the other. */
  lemma {:induction false} TrackStateAppend(state: ResourceState, a: seq<Call>, b: seq<Call>, buffer: nat)
    ensures TrackState(state, a + b, buffer) ==
      match TrackState(state, a, buffer)
      case None => None
      case Some(mid) => TrackState(mid, b, buffer)
    decreases |a|
  {
    if a == [] {
      assert a + b == b;
    } else {
      assert (a + b)[0] == a[0];
      assert (a + b)[1..] == a[1..] + b;
      var c := a[0];
      if c.Barrier? && c.buffer == buffer {
        if c.before == state {
          TrackStateAppend(c.after, a[1..], b, buffer);
        }
      } else {
        TrackStateAppend(state, a[1..], b, buffer);
      }
    }
  }

  /** No barrier in `calls` names back buffer `buffer`. */
  predicate NoBarrierOn(calls: seq<Call>, buffer: nat) {
    forall i | 0 <= i < |calls| :: !(calls[i].Barrier? && calls[i].buffer == buffer)
  }

  lemma {:induction false} TrackStateSkips(state: ResourceState, calls: seq<Call>, buffer: nat)
    requires NoBarrierOn(calls, buffer)
    ensures TrackState(state, calls, buffer) == Some(state)
    decreases |calls|
  {
    if calls != [] {
      assert NoBarrierOn(calls[1..], buffer) by {
        forall i | 0 <= i < |calls[1..]|
          ensures !(calls[1..][i].Barrier? && calls[1..][i].buffer == buffer)
        {
          assert calls[1..][i] == calls[i + 1];
        }
      }
      TrackStateSkips(state, calls[1..], buffer);
    }
  }

  /** A command list that takes a back buffer from PRESENT to RENDER_TARGET, records commands
      that do not transition it, and takes it back to PRESENT, hands it back to the swap
      chain in the state it received it. */
  lemma RecordingBalanced(buffer: nat, middle: seq<Call>)
    requires NoBarrierOn(middle, buffer)
    ensures TrackState(PresentState,
      [Barrier(buffer, PresentState, RenderTargetState)] + middle + [Barrier(buffer, RenderTargetState, PresentState)],
      buffer) == Some(PresentState)
  {
    var open := [Barrier(buffer, PresentState, RenderTargetState)];
    var close := [Barrier(buffer, RenderTargetState, PresentState)];
    assert TrackState(PresentState, open, buffer) == TrackState(RenderTargetState, [], buffer);
    TrackStateAppend(PresentState, open, middle, buffer);
    TrackStateSkips(RenderTargetState, middle, buffer);
    TrackStateAppend(PresentState, open + middle, close, buffer);
    assert TrackState(RenderTargetState, close, buffer) == TrackState(PresentState, [], buffer);
  }

  /** What the `Render` of src/RendererDirectX12.cpp and of src/GAPI/dx12/Renderer.cpp record
      between the list reset and `Close`: one PRESENT to RENDER_TARGET barrier, the clear and
      the draw, one RENDER_TARGET to PRESENT barrier, all on back buffer `buffer`. */
  function ClearAndDrawCommands(buffer: nat): (calls: seq<Call>)
    ensures |calls| == 4 && calls[1] == ClearRenderTarget(buffer) && calls[2] == Draw
    ensures TrackState(PresentState, calls, buffer) == Some(PresentState)
  {
    var middle := [ClearRenderTarget(buffer), Draw];
    RecordingBalanced(buffer, middle);
    assert [Barrier(buffer, PresentState, RenderTargetState)] + middle + [Barrier(buffer, RenderTargetState, PresentState)]
      == [Barrier(buffer, PresentState, RenderTargetState), ClearRenderTarget(buffer), Draw,
          Barrier(buffer, RenderTargetState, PresentState)];
    [Barrier(buffer, PresentState, RenderTargetState), ClearRenderTarget(buffer), Draw,
     Barrier(buffer, RenderTargetState, PresentState)]
  }
}
