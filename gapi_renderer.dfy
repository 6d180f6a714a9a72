/** The frame loop of src/GAPI/dx12/Renderer.cpp, over the state of
    src/DirectX12_Impl/GraphicsDirectX12.cpp. */
module GapiRenderer {
  import opened Helpers
  import opened Gpu
  import opened Dxgi
  import FrameRing
  import opened GraphicsDirectX12

  /** `Render(scene)`: reset the current slot's allocator, then the list; record; close;
      execute; signal and record into the current slot; present; adopt the new index;
      wait on its slot. */
  method Render(g: Graphics, newIndex: nat)
    requires g.Valid() && newIndex < FrameRing.NumFrames
    modifies g`currentBackBufferIndex, g`fenceValue, g`trace, g.frameFenceValues, g.fence
    ensures g.Valid()
    ensures g.Ring() == FrameRing.Frame(old(g.Ring()), newIndex)
    ensures g.trace == old(g.trace) +
      [ResetAllocator(old(g.currentBackBufferIndex)), ResetCommandList(old(g.currentBackBufferIndex))] +
      ClearAndDrawCommands(old(g.currentBackBufferIndex)) +
      [CloseCommandList, ExecuteCommandLists, Call.Signal(g.fenceValue),
       PresentFrame(SyncInterval(g.vsync), PresentFlags(g.tearingSupported, g.vsync))] +
      WaitCalls(old(g.fence.completed), g.frameFenceValues[newIndex])
  {
    ghost var before := g.Ring();
    var index := g.currentBackBufferIndex;
    g.trace := g.trace + [ResetAllocator(index), ResetCommandList(index)];
    g.trace := g.trace + ClearAndDrawCommands(index);
    g.trace := g.trace + [CloseCommandList, ExecuteCommandLists];
    var value := g.Signal();
    g.frameFenceValues[index] := value;
    var syncInterval := SyncInterval(g.vsync);
    var presentFlags := PresentFlags(g.tearingSupported, g.vsync);
    g.trace := g.trace + [PresentFrame(syncInterval, presentFlags)];
    g.currentBackBufferIndex := newIndex;
    g.WaitForFenceValue(g.frameFenceValues[newIndex]);
    FrameRing.FramePreservesInv(before, newIndex);
  }

  /** `Flush()`: signals a fresh value and waits for exactly that value. */
  method Flush(g: Graphics)
    requires g.Valid()
    modifies g`fenceValue, g`trace, g.fence
    ensures g.Valid()
    ensures g.Ring() == FrameRing.Flush(old(g.Ring()))
    ensures g.trace == old(g.trace) + [Call.Signal(g.fenceValue), SetEventOnCompletion(g.fenceValue), WaitForSingleObject(INFINITE)]
  {
    FrameRing.FlushPreservesInv(g.Ring());
    var value := g.Signal();
    g.WaitForFenceValue(value);
  }
}
