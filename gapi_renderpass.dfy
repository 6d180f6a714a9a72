/** The GAPI render pass (src/GAPI/dx12/RenderPass.cpp): a ring of `g_NumFrames` command
    allocators and the per-frame recording, submission and presentation order. The file
    refers to the queue, fence, counter, swap chain and flags without declaring them; the
    model binds them to the GAPI interlayer and swap chain. `g_TearingSupported` is bound to
    the swap chain's `allowTearing` (`g_AllowTearing`, src/GAPI/dx12/SwapChain.cpp:21), the
    flag that `SwapChain::Present` (SwapChain.cpp:182) combines with vsync in the same
    expression, rather than to `g_IsSupportTearing`, which only decides the swap chain's
    creation flags. */
module GapiRenderPass {
  import opened Helpers
  import opened Gpu
  import opened Dxgi
  import FrameRing
  import opened GapiDirectX12
  import opened GapiSwapChain

  /** The commands `Render` records between the list reset and `Close`, as written: the
      barrier `AcquireBackbuffer` records, then the clear block's own PRESENT to
      RENDER_TARGET barrier, the clear, and the single barrier back to PRESENT. */
  function RecordedCommandsAsWritten(buffer: nat): (calls: seq<Call>)
    ensures |calls| == 4 && calls[2] == ClearRenderTarget(buffer)
  {
    [Barrier(buffer, PresentState, RenderTargetState), Barrier(buffer, PresentState, RenderTargetState),
     ClearRenderTarget(buffer), Barrier(buffer, RenderTargetState, PresentState)]
  }

  /** As written, the second barrier claims the buffer is still in PRESENT after the first
      one moved it to RENDER_TARGET. */
  lemma AsWrittenBarriersMismatch(buffer: nat)
    ensures TrackState(PresentState, RecordedCommandsAsWritten(buffer), buffer).None?
  {
    var calls := RecordedCommandsAsWritten(buffer);
    assert TrackState(RenderTargetState, calls[1..], buffer) == None;
  }

  /** The recording with the duplicate barrier dropped. */
  function RecordedCommands(buffer: nat): (calls: seq<Call>)
    ensures |calls| == 3 && calls[1] == ClearRenderTarget(buffer)
    ensures TrackState(PresentState, calls, buffer) == Some(PresentState)
  {
    RecordingBalanced(buffer, [ClearRenderTarget(buffer)]);
    [Barrier(buffer, PresentState, RenderTargetState), ClearRenderTarget(buffer),
     Barrier(buffer, RenderTargetState, PresentState)]
  }

  class RenderPass {
    const swapChain: SwapChain
    /** Whether the members `g_CommandAllocators` and `g_CommandList` hold objects. */
    var membersCreated: bool

    ghost predicate Valid()
      reads this, swapChain, swapChain.interlayer, swapChain.interlayer.fence,
        swapChain.frameFenceValues, swapChain.backBuffers
    {
      swapChain.Valid()
    }

    /** The constructor as written: the allocators, the command list and its `Close` go into
        locals that shadow the members, so the members stay empty. */
    constructor AsWritten(swapChain: SwapChain)
      modifies swapChain.interlayer`trace
      ensures this.swapChain == swapChain && !membersCreated
      ensures swapChain.interlayer.trace == old(swapChain.interlayer.trace) +
        [CreateCommandAllocator(0), CreateCommandAllocator(1), CreateCommandAllocator(2),
         CreateCommandList(0), CloseCommandList]
    {
      this.swapChain := swapChain;
      membersCreated := false;
      new;
      CreateObjects();
    }

    /** The constructor writing the members: exactly `g_NumFrames` allocators, and a command
        list created on allocator 0 and closed. */
    constructor (swapChain: SwapChain)
      modifies swapChain.interlayer`trace
      ensures this.swapChain == swapChain && membersCreated
      ensures swapChain.interlayer.trace == old(swapChain.interlayer.trace) +
        [CreateCommandAllocator(0), CreateCommandAllocator(1), CreateCommandAllocator(2),
         CreateCommandList(0), CloseCommandList]
    {
      this.swapChain := swapChain;
      membersCreated := true;
      new;
      CreateObjects();
    }

    method CreateObjects()
      modifies swapChain.interlayer`trace
      ensures swapChain.interlayer.trace == old(swapChain.interlayer.trace) +
        [CreateCommandAllocator(0), CreateCommandAllocator(1), CreateCommandAllocator(2),
         CreateCommandList(0), CloseCommandList]
    {
      var i := 0;
      while i < FrameRing.NumFrames
        invariant 0 <= i <= FrameRing.NumFrames
        invariant swapChain.interlayer.trace ==
          old(swapChain.interlayer.trace) + seq(i, (k: int) requires 0 <= k => CreateCommandAllocator(k))
      {
        swapChain.interlayer.trace := swapChain.interlayer.trace + [CreateCommandAllocator(i)];
        i := i + 1;
      }
      swapChain.interlayer.trace := swapChain.interlayer.trace + [CreateCommandList(0), CloseCommandList];
    }

    /** `Render(scene)`. Without member allocators the first call goes through an empty
        pointer and nothing happens. Otherwise: reset the current slot's allocator, then the
        list; record; close; execute; signal and record the value into the current slot;
        present; adopt the new index; wait on its slot. The recording is the corrected one,
        `RecordedCommands`, without the duplicate barrier of `RecordedCommandsAsWritten`:
        with the members created this method models both corrections together. */
    method Render(newIndex: nat) returns (outcome: Outcome)
      requires Valid() && newIndex < FrameRing.NumFrames
      modifies swapChain`currentBackBufferIndex, swapChain.frameFenceValues,
        swapChain.interlayer`currentFenceValue, swapChain.interlayer`trace, swapChain.interlayer.fence
      ensures Valid()
      ensures !membersCreated ==> (outcome == Thrown(NullDereference) &&
        swapChain.Ring() == old(swapChain.Ring()) && swapChain.interlayer.trace == old(swapChain.interlayer.trace))
      ensures membersCreated ==> outcome == Pass
      ensures membersCreated ==> swapChain.Ring() == FrameRing.Frame(old(swapChain.Ring()), newIndex)
      ensures membersCreated ==> (swapChain.interlayer.trace == old(swapChain.interlayer.trace) +
        [ResetAllocator(old(swapChain.currentBackBufferIndex)), ResetCommandList(old(swapChain.currentBackBufferIndex))] +
        RecordedCommands(old(swapChain.currentBackBufferIndex)) +
        [CloseCommandList, ExecuteCommandLists, Call.Signal(swapChain.interlayer.currentFenceValue),
         PresentFrame(SyncInterval(swapChain.vsync), PresentFlags(swapChain.allowTearing, swapChain.vsync))] +
        WaitCalls(old(swapChain.interlayer.fence.completed), swapChain.frameFenceValues[newIndex]))
    {
      if !membersCreated {
        return Thrown(NullDereference);
      }
      var interlayer := swapChain.interlayer;
      ghost var before := swapChain.Ring();
      var index := swapChain.currentBackBufferIndex;
      interlayer.trace := interlayer.trace + [ResetAllocator(index), ResetCommandList(index)];
      interlayer.trace := interlayer.trace + RecordedCommands(index);
      interlayer.trace := interlayer.trace + [CloseCommandList, ExecuteCommandLists];
      var value := interlayer.Signal();
      swapChain.frameFenceValues[index] := value;
      var syncInterval := SyncInterval(swapChain.vsync);
      var presentFlags := PresentFlags(swapChain.allowTearing, swapChain.vsync);
      interlayer.trace := interlayer.trace + [PresentFrame(syncInterval, presentFlags)];
      swapChain.currentBackBufferIndex := newIndex;
      interlayer.WaitForFenceValue(swapChain.frameFenceValues[newIndex]);
      FrameRing.FramePreservesInv(before, newIndex);
      outcome := Pass;
    }
  }
}
