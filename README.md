# chelson frame synchronisation, in Dafny

This project models the CPU-side frame-synchronisation bookkeeping of the chelson DirectX 12
renderer. The bookkeeping has four parts:

- **Fence clock.** A counter that `Signal` pre-increments and queues on the command queue.
  `WaitForFenceValue` blocks only when the GPU's completed value is behind the target.
  `Flush` (`WaitForGPU`) signals and then waits for the value it just signalled.
- **Frame ring.** `g_FrameFenceValues`, one slot per back buffer, holds the last value
  signalled for work recorded with that slot's allocator.
- **Swap-chain bookkeeping.** Resizing and presenting, with their vsync and tearing flags.
- **Present loop.** The `Render` present loop of every renderer variant.

Some smaller sequential pieces come along:

- adapter selection;
- the DX12 and Win32 subsystem lifecycles;
- the application's settings toggles and window placement;
- the flattening of loaded meshes;
- the `Bulk` container.

The repository holds several near-duplicate renderer variants, and each one is modelled as
written:

| variant | Dafny |
|---|---|
| `src/GAPI/dx12` (`Common.cpp`, `DirectX12.cpp`, `SwapChain.cpp`, `RenderPass.cpp`) | `GapiCommon`, `GapiDirectX12.Interlayer`, `GapiSwapChain.SwapChain`, `GapiRenderPass.RenderPass` |
| `src/DirectX12_Impl/GraphicsDirectX12.cpp` with `src/GAPI/dx12/Renderer.cpp` | `GraphicsDirectX12.Graphics`, `GapiRenderer` |
| `src/RendererDirectX12.cpp` | `RendererDirectX12.Renderer` |
| `src/Common/DirectX12/DX12Subsystem.cpp`, `src/Common/DX12Subsystem.cpp` | `Dx12Subsystem.Subsystem`, `CommonDx12Subsystem.Subsystem` |
| `src/Common/Win32System.cpp` | `Win32System.System` (bound to `Dx12Subsystem`) |
| `src/Application.cpp` | `Application.App` (its `graphics::` calls bound to `GapiSwapChain`) |
| `src/ResourceManager/ResourceManager.cpp`, `src/Containers/Bulk.hpp` | `ResourceManager`, `Bulk` |

The GPU and the operating system are abstracted as follows:

- The fence (`Gpu.Fence`) has a `completed` value and a ghost `signalled` value. A wait
  becomes the postcondition "completed ≥ target".
- The GPU's asynchronous progress is a separate step (`GpuProgress`). It may move
  `completed` up to the last signalled value.
- Every Direct3D, DXGI or Win32 call that matters for ordering is appended to a `trace` of
  `Gpu.Call` values. The methods state that trace exactly, so the order of reset, barriers,
  execute, signal, present and wait is part of each contract.
- The back-buffer index that `GetCurrentBackBufferIndex` reports after a present or a resize
  is a parameter below 3.
- Integers are unbounded:
  - `uint32_t` conversions are written out (`Helpers.ToUint32`, `Helpers.ToInt32`);
  - C++ truncating division is `Helpers.CDiv`.

Each class's frame state is abstracted to a `FrameRing.Ring`: the counter, the completed
value, the three slots and the current index. Every class proves that its methods move the
ring exactly as the pure transitions `FrameRing.Frame`, `FrameRing.Flush`,
`FrameRing.Resize` and `FrameRing.Progress` do. The lemmas in `FrameRing` then give every
variant the same guarantees:

- every slot is at most the counter;
- a slot about to be reused is retired;
- at most two frames are in flight whenever the invariant holds, that is at the start of every frame and
  after its wait; between a frame's signal and its wait a third value can be outstanding.

## Model

| member | source | states |
|---|---|---|
| Helpers.ThrowIfFailed | src/Helpers/Helpers.hpp:19-24 | passes exactly when the HRESULT is not a failure, and otherwise throws carrying that HRESULT |
| Helpers.ToUint32 | src/GAPI/dx12/SwapChain.cpp:153 | the conversion to `uint32_t` lands below 2^32, keeps values already in range, and adds 2^32 to a negative value |
| Helpers.ToInt32 | src/Application.cpp:66-67 | the conversion of a 32-bit unsigned value to `int` lands in the `int` range and converts back to the same unsigned value |
| Helpers.CDiv | src/Common/Win32System.cpp:207-218 | C++ integer division truncates toward zero: the quotient has the sign of the dividend and the remainder is smaller than the divisor in magnitude with the dividend's sign, which fixes the quotient uniquely |
| Dxgi.FactoryFlags | src/GAPI/dx12/DirectX12.cpp:35-38 | the factory is created with `DXGI_CREATE_FACTORY_DEBUG` if and only if the debug layer is enabled, and with 0 otherwise |
| Dxgi.SyncInterval | src/GAPI/dx12/SwapChain.cpp:181 | the sync interval is 1 if and only if vsync is on, and 0 otherwise |
| Dxgi.PresentFlags | src/GAPI/dx12/SwapChain.cpp:182 | `DXGI_PRESENT_ALLOW_TEARING` is passed if and only if tearing is allowed and vsync is off, and 0 otherwise |
| Dxgi.SwapChainFlags | src/Common/DirectX12/DX12Subsystem.cpp:186 | the swap chain carries `DXGI_SWAP_CHAIN_FLAG_ALLOW_TEARING` if and only if tearing is supported |
| Dxgi.CheckTearingSupport | src/GAPI/dx12/SwapChain.cpp:36-55 | tearing is reported if and only if the factory is created, the 1.5 interface is obtained, the feature query succeeds, and it answers exactly `TRUE`; any failing step gives false |
| Dxgi.PickAdapter | src/GAPI/dx12/DirectX12.cpp:44-59 | the adapter chosen is a non-software adapter that passes the device probe, with strictly greatest dedicated memory, the earliest among equals; nothing is chosen if and only if every qualifying adapter has 0 dedicated memory, and the running maximum is then 0 |
| Gpu.DwordTimeout | src/GAPI/dx12/Common.cpp:41 | the `static_cast<DWORD>` of a duration lands below 2^32 and keeps durations already in range |
| Gpu.DefaultDurationIsInfinite | src/GAPI/dx12/Common.cpp:37-41 | the default duration `milliseconds::max()` cast to `DWORD` is `INFINITE` (0xFFFFFFFF) |
| Gpu.Fence.constructor | src/GAPI/dx12/Common.cpp:9-14 | a fence starts with both its completed and its signalled value at the initial value |
| Gpu.Fence.QueueSignal | src/GAPI/dx12/Common.cpp:32 | queuing a signal raises the signalled value to the queued value and leaves the completed value alone |
| Gpu.Fence.AwaitValue | src/GAPI/dx12/Common.cpp:40-41 | an infinite wait, or a finite one whose event fires, returns with completed ≥ the value; a timed-out wait changes nothing |
| Gpu.Fence.Progress | src/GAPI/dx12/Common.cpp:39 | the GPU advances the completed value monotonically, never past the last signalled value |
| Gpu.WaitCalls | src/GAPI/dx12/Common.cpp:39-42 | no call at all if and only if the fence has already completed the value; otherwise registers the event for exactly that value and waits with `INFINITE` |
| Gpu.TrackState | src/GAPI/dx12/SwapChain.cpp:194-209 | replays the resource barriers on one back buffer: a recording with no barrier on it leaves the state unchanged, a first barrier whose before-state differs from the tracked state is a mismatch, and a final state other than the start is the after-state of some barrier on the buffer |
| Gpu.TrackStateAppend | src/GAPI/dx12/Renderer.cpp:33-54 | replaying two consecutive recordings is replaying the second from where the first left the buffer, and a mismatch in the first propagates |
| Gpu.TrackStateSkips | src/GAPI/dx12/Renderer.cpp:37-46 | commands with no barrier on the buffer (clear, draw) leave its tracked state unchanged |
| Gpu.RecordingBalanced | src/GAPI/dx12/Renderer.cpp:33-54 | one PRESENT→RENDER_TARGET barrier, barrier-free commands, then one RENDER_TARGET→PRESENT barrier on the same buffer returns it to PRESENT with no mismatch |
| Gpu.ClearAndDrawCommands | src/GAPI/dx12/Renderer.cpp:33-52 | the frame recording clears and draws between two barriers on the current buffer, and leaves that buffer in PRESENT with no mismatch |
| FrameRing.Initial | src/DirectX12_Impl/GraphicsDirectX12.cpp:28-29 | a fresh ring satisfies the invariant, has counter = completed, and has every slot at 0 |
| FrameRing.AfterWait | src/GAPI/dx12/Common.cpp:39-41 | after a wait the completed value is at least both the old completed value and the target; it is unchanged when already reached, and becomes exactly the target otherwise |
| FrameRing.Frame | src/GAPI/dx12/SwapChain.cpp:179-192 | presenting increments the counter by one, writes it into the old index's slot only, adopts the new index, and waits until the new slot's value has completed; no wait happens when that slot was already retired |
| FrameRing.Flush | src/GAPI/dx12/DirectX12.cpp:143-146 | a flush increments the counter and completes everything up to it, leaving the slots and the index alone |
| FrameRing.Resize | src/GAPI/dx12/SwapChain.cpp:158-173 | a resize flushes, copies the current slot's value into every slot, and re-reads the index |
| FrameRing.Progress | src/GAPI/dx12/Common.cpp:39 | GPU progress changes only the completed value |
| FrameRing.FramePreservesInv | src/GAPI/dx12/SwapChain.cpp:185 | presenting keeps the invariant: every slot is at most the counter, the completed value is at most the counter, and every value between the completed value and the counter sits in some slot |
| FrameRing.FlushPreservesInv | src/GAPI/dx12/SwapChain.cpp:160 | a flush keeps the invariant |
| FrameRing.ResizePreservesInv | src/GAPI/dx12/SwapChain.cpp:162-166 | a resize keeps the invariant |
| FrameRing.ProgressPreservesInv | src/GAPI/dx12/Common.cpp:39 | GPU progress keeps the invariant |
| FrameRing.Interval | src/GAPI/dx12/SwapChain.cpp:185 | the set of signalled values not yet completed |
| FrameRing.IntervalSize | src/GAPI/dx12/SwapChain.cpp:185 | that set has exactly counter − completed elements |
| FrameRing.BackpressureBound | src/GAPI/dx12/SwapChain.cpp:77-84 | under the invariant at most `g_NumFrames` − 1 = 2 signalled values are outstanding after every present |
| FrameRing.InFlightAtPresent | src/GAPI/dx12/RenderPass.cpp:153-161 | at most 3 frames are in flight at the moment of presenting, before the wait |
| FrameRing.FlushRetiresEverything | src/GAPI/dx12/DirectX12.cpp:143-146 | after a flush every slot's value has completed |
| FrameRing.FirstFramesDoNotBlock | src/RendererDirectX12.cpp:50 | from all-zero slots at any start index, the first present waits exactly when the new index is the buffer just submitted; a second present onto the third buffer does not wait; a third present back onto the first buffer waits exactly for the first frame's value |
| GapiCommon.CreateFence | src/GAPI/dx12/Common.cpp:9-17 | a fence exists if and only if creation succeeded, and then it starts at the initial value; a failing HRESULT throws |
| GapiCommon.Signal | src/GAPI/dx12/Common.cpp:29-35 | the caller's counter is pre-incremented by exactly one and returned; only a successful queue call queues that value; a failing one throws with the counter already advanced |
| GapiCommon.WaitForFenceValue | src/GAPI/dx12/Common.cpp:37-43 | makes no call when completed ≥ value; otherwise registers the event for exactly that value (or throws) and waits with the cast duration, returning with completed = value when the wait is infinite or fires |
| GapiCommon.SignalTwice | src/GAPI/dx12/Common.cpp:29-35 | from a zero counter, two successive signals return 1 then 2 |
| GapiDirectX12.Interlayer.constructor | src/GAPI/dx12/DirectX12.cpp:115-135 | the factory flags follow the debug request; the fence starts at 0 and the counter equals its completed value |
| GapiDirectX12.Interlayer.Signal | src/GAPI/dx12/DirectX12.cpp:148-153 | pre-increments `g_CurrentFenceValue`, returns it, and queues it; it is greater than every value signalled before |
| GapiDirectX12.Interlayer.WaitForFenceValue | src/GAPI/dx12/DirectX12.cpp:155-161 | returns with completed = max(old completed, value), making the wait calls only when the fence was behind |
| GapiDirectX12.Interlayer.WaitForGPU | src/GAPI/dx12/DirectX12.cpp:143-146 | signals a fresh value and waits for it: afterwards completed = counter = every value ever signalled |
| GapiDirectX12.Interlayer.RequestExit | src/GAPI/dx12/DirectX12.cpp:137-141 | drains everything ever submitted: completed exceeds every earlier signalled value |
| GapiDirectX12.InitGraphicsInterlayer | src/GAPI/dx12/DirectX12.cpp:115-135 | with a qualifying adapter, initialises with the strict-max adapter and counter = completed; otherwise `CreateDevice`'s assert fails |
| GapiSwapChain.SwapChain.constructor | src/GAPI/dx12/SwapChain.cpp:89-149 | the swap chain is described with 3 buffers and the tearing flag iff supported; vsync starts on and tearing off; every slot starts at 0; the initial flush has retired everything |
| GapiSwapChain.SwapChain.ResizeSwapChain | src/GAPI/dx12/SwapChain.cpp:151-177 | an unchanged size changes nothing; otherwise the size is clamped to ≥ 1, the ring moves as `FrameRing.Resize`, and the flush precedes every buffer release |
| GapiSwapChain.SwapChain.ReleaseBuffersAndCopyFenceValues | src/GAPI/dx12/SwapChain.cpp:162-167 | every slot takes the current slot's old value and every back buffer is released, in index order |
| GapiSwapChain.SwapChain.UpdateRenderTargetViews | src/GAPI/dx12/SwapChain.cpp:57-75 | every back buffer is re-acquired, in index order |
| GapiSwapChain.SwapChain.MoveToNextFrame | src/GAPI/dx12/SwapChain.cpp:77-84 | adopts the reported index and waits until that slot's value has completed |
| GapiSwapChain.SwapChain.Present | src/GAPI/dx12/SwapChain.cpp:179-192 | presents with the sync interval and tearing flag the settings call for, then signals into the pre-present slot only, then waits on the new slot; the ring moves as `FrameRing.Frame` |
| GapiSwapChain.SwapChain.AcquireBackbuffer | src/GAPI/dx12/SwapChain.cpp:194-202 | records one PRESENT→RENDER_TARGET barrier on the current back buffer |
| GapiSwapChain.SwapChain.ReleaseBackbuffer | src/GAPI/dx12/SwapChain.cpp:204-209 | records one RENDER_TARGET→PRESENT barrier on the current back buffer |
| GapiSwapChain.SwapChain.ClearCurrentBackbuffer | src/GAPI/dx12/SwapChain.cpp:211-215 | records a clear of the current back buffer |
| GapiSwapChain.SwapChain.AllowTearing | src/GAPI/dx12/SwapChain.cpp:223-226 | sets the tearing flag `Present` uses |
| GapiSwapChain.SwapChain.EnableVsync | src/GAPI/dx12/SwapChain.cpp:228-231 | sets the vsync flag `Present` uses |
| GapiSwapChain.SwapChain.GpuProgress | src/GAPI/dx12/SwapChain.cpp:29 | GPU progress keeps the swap chain valid and moves its ring as `FrameRing.Progress` |
| GapiRenderPass.RecordedCommandsAsWritten | src/GAPI/dx12/RenderPass.cpp:120-144 | the recording as written: acquire, a second PRESENT→RENDER_TARGET barrier, the clear, one RENDER_TARGET→PRESENT barrier |
| GapiRenderPass.AsWrittenBarriersMismatch | src/GAPI/dx12/RenderPass.cpp:125-130 | replayed from PRESENT, that recording hits a barrier whose before-state is not the buffer's state |
| GapiRenderPass.RecordedCommands | src/GAPI/dx12/RenderPass.cpp:120-144 | the corrected recording, with one transition each way, clears the buffer and returns it to PRESENT without mismatch |
| GapiRenderPass.RenderPass.AsWritten | src/GAPI/dx12/RenderPass.cpp:92-112 | the constructor as written creates `g_NumFrames` allocators and closes a list, but into locals, so the members `Render` uses stay empty |
| GapiRenderPass.RenderPass.constructor | src/GAPI/dx12/RenderPass.cpp:92-112 | the corrected constructor creates the 3 allocators and the closed list into the members |
| GapiRenderPass.RenderPass.CreateObjects | src/GAPI/dx12/RenderPass.cpp:98-104 | creates one allocator per frame in index order, then one command list that is closed |
| GapiRenderPass.RenderPass.Render | src/GAPI/dx12/RenderPass.cpp:114-163 | with empty members, dereferences null and changes nothing; otherwise resets the current slot's allocator before the list, records the corrected `RecordedCommands` (without the duplicate barrier), executes, signals into the current slot, presents, adopts the new index and waits on its slot, moving the ring as `FrameRing.Frame` |
| GapiRenderer.Render | src/GAPI/dx12/Renderer.cpp:17-73 | resets the current slot's allocator before the list; records one barrier each way around the clear and draw; executes, signals into the current slot, presents with the configured flags, adopts the new index and waits on its slot; the ring moves as `FrameRing.Frame` |
| GapiRenderer.Flush | src/GAPI/dx12/Renderer.cpp:75-79 | signals a new value and waits for exactly that value; the ring moves as `FrameRing.Flush` |
| GraphicsDirectX12.Graphics.constructor | src/DirectX12_Impl/GraphicsDirectX12.cpp:339-373 | the factory flags follow the debug request; counter, fence and every slot start at 0 |
| GraphicsDirectX12.Graphics.CreateAllocators | src/DirectX12_Impl/GraphicsDirectX12.cpp:357-360 | creates exactly `g_NumFrames` allocators in index order, then opens the list on the current index's allocator |
| GraphicsDirectX12.Graphics.Signal | src/DirectX12_Impl/GraphicsDirectX12.cpp:309-315 | pre-increments the by-reference counter, returns it, and queues it |
| GraphicsDirectX12.Graphics.WaitForFenceValue | src/DirectX12_Impl/GraphicsDirectX12.cpp:317-323 | returns with completed = max(old completed, value), making the wait calls only when the fence was behind |
| GraphicsDirectX12.Graphics.RequestExit | src/DirectX12_Impl/GraphicsDirectX12.cpp:375-378 | flushes: the ring moves as `FrameRing.Flush` and completed equals the incremented counter |
| GraphicsDirectX12.Graphics.GpuProgress | src/DirectX12_Impl/GraphicsDirectX12.cpp:28-29 | GPU progress moves the ring as `FrameRing.Progress` |
| GraphicsDirectX12.InitGPU | src/DirectX12_Impl/GraphicsDirectX12.cpp:339-373 | with a qualifying adapter, initialises with the strict-max adapter and a zero ring; otherwise `CreateDevice`'s assert fails |
| RendererDirectX12.Renderer.Initialize | src/RendererDirectX12.cpp:464-510 | enables the debug layer unconditionally, caches the tearing query, picks the strict-max adapter, starts the swap chain at 0×0 with 3 buffers, and starts with a zero ring and every back buffer acquired |
| RendererDirectX12.Renderer.Signal | src/RendererDirectX12.cpp:430-436 | `g_FenceValue` increases by exactly one, is returned, and is queued |
| RendererDirectX12.Renderer.WaitForFenceValue | src/RendererDirectX12.cpp:438-444 | returns with completed = max(old completed, value), making the wait calls only when the fence was behind |
| RendererDirectX12.Renderer.Flush | src/RendererDirectX12.cpp:446-450 | signals and waits for that value: the ring moves as `FrameRing.Flush` |
| RendererDirectX12.Renderer.RequestExit | src/RendererDirectX12.cpp:680-683 | is a flush: completed equals the incremented counter |
| RendererDirectX12.Renderer.ResizeSwapChain | src/RendererDirectX12.cpp:512-542 | an unchanged size changes nothing; otherwise the size is clamped to ≥ 1, the flush precedes the buffer release, every slot takes the current slot's value, and the index is re-read |
| RendererDirectX12.Renderer.ReleaseBuffersAndCopyFenceValues | src/RendererDirectX12.cpp:527-532 | every slot takes the current slot's old value and every back buffer is released |
| RendererDirectX12.Renderer.UpdateRenderTargetViews | src/RendererDirectX12.cpp:375-391 | every back buffer is re-acquired in index order |
| RendererDirectX12.Renderer.SetVSync | src/RendererDirectX12.cpp:544-547 | `IsVSync` afterwards returns the value set |
| RendererDirectX12.Renderer.IsVSync | src/RendererDirectX12.cpp:549-552 | reports the vsync setting |
| RendererDirectX12.Renderer.ToggleVSync | src/RendererDirectX12.cpp:554-557 | negates vsync |
| RendererDirectX12.Renderer.SetFullscreen | src/RendererDirectX12.cpp:559-605 | the argument becomes the setting, and nothing at all changes when it already was |
| RendererDirectX12.Renderer.IsFullscreen | src/RendererDirectX12.cpp:607-610 | reports the fullscreen setting |
| RendererDirectX12.Renderer.ToggleFullscreen | src/RendererDirectX12.cpp:612-615 | negates fullscreen |
| RendererDirectX12.Renderer.ToggleTearing | src/RendererDirectX12.cpp:617-620 | negates the tearing flag unconditionally, ignoring the cached query |
| RendererDirectX12.Renderer.Render | src/RendererDirectX12.cpp:622-678 | resets the current slot's allocator before the list, records one barrier each way, executes, signals into the current slot before presenting, presents with the configured flags, adopts the new index and waits on its slot; the ring moves as `FrameRing.Frame` |
| RendererDirectX12.Renderer.RecordAndExecute | src/RendererDirectX12.cpp:624-663 | resets the given slot's allocator, then the list, then records the clear and draw between the barriers, closes and executes |
| RendererDirectX12.Renderer.GpuProgress | src/RendererDirectX12.cpp:49-50 | GPU progress moves the ring as `FrameRing.Progress` |
| Dx12Subsystem.Subsystem.constructor | src/Common/DirectX12/DX12Subsystem.cpp:92-104 | nothing is initialised and no queue exists |
| Dx12Subsystem.Subsystem.Init | src/Common/DirectX12/DX12Subsystem.cpp:16-104 | enables the debug layer only when the setting asks for it; stores the strict-max adapter when some qualifying adapter has dedicated memory and otherwise keeps the adapter member as it was; creates the device and marks the subsystem initialised |
| Dx12Subsystem.Subsystem.Finish | src/Common/DirectX12/DX12Subsystem.cpp:106-110 | asserts a prior `Init`, and returns true when it gets past the assert |
| Dx12Subsystem.Subsystem.GetDirectCommandQueue | src/Common/DirectX12/DX12Subsystem.cpp:113-124 | asserts a prior `Init`; while no queue is held, issues one `CreateCommandQueue` and stores the queue only if it succeeded (its HRESULT is ignored); returns the member as it stands, empty after a failure, and never issues a second creation once a queue is held |
| Dx12Subsystem.Subsystem.GetComputeCommandQueue | src/Common/DirectX12/DX12Subsystem.cpp:127-138 | the same for the compute queue, independently of the direct one, which it leaves unchanged |
| Dx12Subsystem.Subsystem.CreateSwapChain | src/Common/DirectX12/DX12Subsystem.cpp:161-216 | caches the tearing query, requests 3 buffers with the tearing flag iff supported, uses the debug factory flag iff the setting is on, and passes the stored direct queue |
| CommonDx12Subsystem.Subsystem.constructor | src/Common/DX12Subsystem.cpp:90-101 | the debug flag starts off and no device exists |
| CommonDx12Subsystem.Subsystem.Init | src/Common/DX12Subsystem.cpp:13-101 | sets the debug flag and enables the layer only for a true argument (a false one never clears it), uses the debug factory flag iff the flag is set, stores the strict-max adapter when some qualifying adapter has dedicated memory and otherwise keeps the adapter member, and returns true |
| CommonDx12Subsystem.Subsystem.Finish | src/Common/DX12Subsystem.cpp:103-106 | always returns true |
| WindowPlacement.DesiredExtent | src/Common/Win32System.cpp:207-208 | `screen * num / den` lies between 0 and the screen size and is the floor of the exact fraction |
| WindowPlacement.CenteredOrigin | src/Common/Win32System.cpp:215-218 | the origin is never negative; a window that fits lies inside the screen, centred to within one pixel; a window at least as large as the screen is placed at 0 |
| WindowPlacement.CenteredOriginUnsigned | src/Application.cpp:66-67 | the as-written unsigned expression yields a value in [0, 2^31) |
| WindowPlacement.UnsignedOriginAgreesWhenFitting | src/Application.cpp:66-67 | where the window fits, the unsigned expression agrees with the clamped one |
| WindowPlacement.UnsignedOriginOffScreen | src/Application.cpp:66-67 | where the window is larger than the screen, the unsigned expression places it beyond the screen's far edge instead of at 0 |
| WindowPlacement.UnsignedOriginExample | src/Application.cpp:66-67 | on a 30-pixel screen, a 36-pixel window is placed at 2147483645 instead of 0 |
| Win32System.IterationCalls | src/Common/Win32System.cpp:54-60 | one pass of the loop dispatches the retrieved message, if any, and always ends with one `app.Update` |
| Win32System.UpdatesAppend | src/Common/Win32System.cpp:54-60 | updates count additively over concatenated call sequences |
| Win32System.LoopCallsShape | src/Common/Win32System.cpp:54-60 | the loop never calls `app.Init` or `app.Finish`, updates once per pass, and dispatches `WM_QUIT` exactly when it was retrieved |
| Win32System.FirstQuit | src/Common/Win32System.cpp:54 | the position of the first retrieved `WM_QUIT`, the one that ends the loop |
| Win32System.WrappedLoopShape | src/Common/Win32System.cpp:50-63 | wrapping the loop in `app.Init` and `app.Finish` places each exactly once at its end and adds no update |
| Win32System.System.constructor | src/Common/Win32System.hpp:41-50 | no window and nothing initialised; the size defaults to 1280×720 |
| Win32System.System.Init | src/Common/Win32System.cpp:27-46 | the window, then the DX12 subsystem, then the event subsystem, stopping at the first failure; the system is marked initialised and the window shown only when all three succeed |
| Win32System.System.CreateWindow | src/Common/Win32System.cpp:181-236 | the window is three quarters of the screen plus the frame, and its origin is the clamped centred one |
| Win32System.System.Run | src/Common/Win32System.cpp:48-64 | `app.Init` exactly once first, `app.Finish` exactly once last, and one `app.Update` per pass up to and including the one that retrieves `WM_QUIT` |
| Win32System.System.MessageLoop | src/Common/Win32System.cpp:53-61 | the loop runs its passes until the first retrieved `WM_QUIT` and no further |
| Win32System.System.Finish | src/Common/Win32System.cpp:66-74 | shuts the subsystems down only when initialised and clears the flag; a second call does nothing; it always returns true |
| Win32System.System.IsInitialized | src/Common/Win32System.cpp:76-79 | reports the initialised flag |
| Win32System.System.IsFullscreen | src/Common/Win32System.cpp:91-94 | reports the fullscreen flag |
| Win32System.System.GetWindowSize | src/Common/Win32System.cpp:96-100 | returns the stored size, 1280×720 before a window exists |
| Win32System.System.CreateSwapChain | src/Common/Win32System.cpp:123-179 | caches the tearing query; with an uninitialised DX12 subsystem the queue getter's assert fires; otherwise describes 3 buffers of the window's size with the tearing flag iff supported, passes the direct queue as the getter returns it (empty iff it was never created and its creation now fails) and throws iff `CreateSwapChainForHwnd` fails |
| Application.App.constructor | src/Application.hpp:19-30 | vsync starts on, tearing and fullscreen off, and the vsync setting is pushed to the swap chain |
| Application.App.KeyDownEvent | src/Application.cpp:87-106 | 'V' toggles vsync, 'T' toggles tearing when supported, 'F' toggles fullscreen with one window switch, Escape posts quit, and any other key changes nothing |
| Application.App.SetVSync | src/Application.cpp:198-202 | the application and the swap chain agree on the new value |
| Application.App.IsVSync | src/Application.cpp:204-207 | reports the vsync setting |
| Application.App.ToggleVSync | src/Application.cpp:209-213 | negates vsync in both the application and the swap chain |
| Application.App.SetFullscreen | src/Application.cpp:215-262 | the current value changes nothing; a different value switches the window once |
| Application.App.IsFullscreen | src/Application.cpp:264-267 | reports the fullscreen setting |
| Application.App.ToggleFullscreen | src/Application.cpp:269-272 | negates fullscreen with exactly one window switch |
| Application.App.ToggleTearing | src/Application.cpp:274-279 | flips the application's flag only when the swap chain supports tearing, and never touches the swap chain's own flag |
| Application.App.ResizeWindowEvent | src/Application.cpp:108-119 | forwards right − left and bottom − top to the swap chain's resize, with that resize's full effect |
| Application.App.CreateWindow | src/Application.cpp:27-85 | the window is two thirds of the screen plus the frame, placed at the clamped centred origin (never negative), which is the origin the unsigned expression as written computes whenever the window fits on the screen |
| ResourceManager.Components | src/ResourceManager/ResourceManager.cpp:22-29 | three components per vector; entries 3j, 3j+1 and 3j+2 are vector j's X, Y and Z |
| ResourceManager.Regroup | src/ResourceManager/ResourceManager.cpp:22-29 | reading a component list three at a time gives one vector per three entries |
| ResourceManager.RegroupComponents | src/ResourceManager/ResourceManager.cpp:22-29 | flattening loses nothing: regrouping the components gives back the vectors |
| ResourceManager.Positions | src/ResourceManager/ResourceManager.cpp:23-25 | the positions of the vertices, in order |
| ResourceManager.Normals | src/ResourceManager/ResourceManager.cpp:27-29 | the normals of the vertices, in order |
| ResourceManager.Flatten | src/ResourceManager/ResourceManager.cpp:18-36 | a shape has its mesh's name, an in-order copy of its indices, and positions and normals with vertex j's X, Y, Z at entries 3j..3j+2 |
| ResourceManager.LoadSponzaShape | src/ResourceManager/ResourceManager.cpp:8-41 | returns the loader's verdict; on failure there are no shapes; on success there is one flattened shape per mesh, in order |
| ResourceManager.FlattenMesh | src/ResourceManager/ResourceManager.cpp:18-36 | the mesh loop's body builds exactly `Flatten` of the mesh |
| ResourceManager.ComponentsSnoc | src/ResourceManager/ResourceManager.cpp:22-25 | appending one vector appends its three components |
| ResourceManager.FlattenVertices | src/ResourceManager/ResourceManager.cpp:22-30 | the vertex loop builds exactly the components of the positions and of the normals |
| ResourceManager.CopyIndices | src/ResourceManager/ResourceManager.cpp:32-34 | the index loop is an in-order copy |
| Bulk.Bulk.constructor | src/Containers/Bulk.hpp:19-23 | a new store is empty |
| Bulk.Bulk.AllocateItemAsWritten | src/Containers/Bulk.hpp:19-23 | appends one blank item, keeps the others, and returns the new count, one past the new item's index |
| Bulk.Bulk.AllocateItem | src/Containers/Bulk.hpp:19-23 | the corrected allocation appends one blank item and returns its index, which addresses it |
| Bulk.Bulk.DeleteItem | src/Containers/Bulk.hpp:25-29 | always fails its assertion |
| Bulk.Bulk.GetUnderlyingItem | src/Containers/Bulk.hpp:31-35 | returns the item at an ID below the count |
| Bulk.FirstAllocation | src/Containers/Bulk.hpp:22 | on a fresh store, the as-written ID is out of range for `GetUnderlyingItem`, while the corrected one addresses the blank item |

## Left out

- Real GPU execution and operating-system blocking (`GetCompletedValue`, `SetEventOnCompletion`, `WaitForSingleObject`, events) are not modelled. The fence's completed value is abstract and moves monotonically, and each wait is a postcondition.
- The fence counters are `uint64_t` and are modelled as unbounded naturals. A 64-bit wrap-around would take centuries of frames.
- Device, queue, descriptor-heap, view, root-signature, pipeline and buffer creation are opaque steps in the trace or are left out. They are thin wrappers over libraries outside the repository.
- HRESULT failures are modelled only in `GapiCommon` (`src/GAPI/dx12/Common.cpp`), in `Win32System.System.CreateSwapChain` (`CreateSwapChainForHwnd`) and in the queue getters of `Dx12Subsystem` (a failed `CreateCommandQueue`, whose HRESULT is ignored). Elsewhere a failing `ThrowIfFailed` throws out of the whole program, so only the success path is modelled.
- Win32 windowing (class registration, `CreateWindowExW`, `WindowProc`, window styles and the positions `SetFullscreen` computes) is reduced to boolean flags and the integer placement arithmetic.
- Viewport and scissor rectangles, clear colours and the FPS timer use floating point and clocks, and are not modelled.
- OBJ parsing (`objl::Loader::LoadFile`) is an input: whether it succeeded and the meshes it loaded. Components are an opaque element type.
- The event subsystem is an input: whether its `Init` succeeded.
- The screen size, the frame `AdjustWindowRect` adds, `PeekMessage` results, tearing-query outcomes, adapter descriptions and `GetCurrentBackBufferIndex` results are parameters.
- WindowPlacement.DesiredExtent: requires that screen × numerator fits in an `int`, so the signed overflow such a product could reach on an absurd screen size is not modelled.
- Win32System.System.Init: `createWindow` and `initDX12Subsystem` report success unconditionally in the source, so only the event subsystem can make `Init` fail.
- Win32System::IsTearingSupport has no return statement, so its result is undefined. It is not modelled.
- Win32System::createSwapChain is never called by `Init`. It is modelled on its own, and the global swap chain and `WaitForGPU` it uses from another variant are not part of this model.
- Application::Initialize and Application::Run hand over to the renderer and the platform layer, which are modelled in their own modules. Only the vsync push from `Initialize` is kept, in the constructor.
- Application.App.ToggleTearing: the `graphics::IsSupportTearing()` it consults is bound to the GAPI swap chain's cached flag.
- GraphicsDirectX12.Graphics.RequestExit: the source calls a `Flush` that `GraphicsDirectX12.cpp` does not define. It is modelled as the `Flush` of `src/GAPI/dx12/Renderer.cpp`, with which the file is linked.
- GapiRenderPass.RenderPass.Render: records the corrected three-call recording (`GapiRenderPass.RecordedCommands`), not the four calls with the duplicate PRESENT→RENDER_TARGET barrier that src/GAPI/dx12/RenderPass.cpp:120-130 records as written; the as-written recording and its mismatch are modelled separately by `GapiRenderPass.RecordedCommandsAsWritten` and `GapiRenderPass.AsWrittenBarriersMismatch`.
- Application.App.CreateWindow: places a window wider or taller than the screen at origin 0, the corrected signed computation; as written the unsigned expression puts it far off-screen (`WindowPlacement.UnsignedOriginOffScreen`), and the contract ties the two together only where the window fits.
- Win32System.System.CreateSwapChain: what `CreateSwapChainForHwnd` returns for an empty queue is an input like any other HRESULT; the model does not force it to fail.
- Bulk.Bulk.AllocateItem: `push_back()` with no argument appends a value-initialised item, modelled as the store's `blank` parameter.

## Findings

| source | as written | input that shows it | evidently intended | confidence | as-written member | corrected member |
|---|---|---|---|---|---|---|
| src/GAPI/dx12/RenderPass.cpp:120-130 | `Render` calls `AcquireBackbuffer`, which already records PRESENT→RENDER_TARGET, then records that barrier again | any frame: the second barrier's before-state PRESENT is not the buffer's state RENDER_TARGET | one transition each way around the clear | high, not executed | GapiRenderPass.AsWrittenBarriersMismatch | GapiRenderPass.RecordedCommands |
| src/GAPI/dx12/RenderPass.cpp:95-104 | the constructor creates the allocators and the command list into locals that shadow the members of src/GAPI/dx12/RenderPass.hpp:20-21 | any `RenderPass` followed by `Render`: the member allocator and list are null when dereferenced | create into the members | high, not executed | GapiRenderPass.RenderPass.AsWritten | GapiRenderPass.RenderPass.constructor |
| src/Application.cpp:66-67 | `(screen - m_windowWidth) / 2` is computed in `uint32_t`, so `std::max<int>(0, …)` clamps nothing when the window is wider than the screen | screen 30 pixels wide, window 36: x = 2147483645 | x = 0, as the `std::max` intends and as src/Common/Win32System.cpp:215-218 computes | medium, not executed | WindowPlacement.UnsignedOriginExample | WindowPlacement.CenteredOrigin |
| src/Containers/Bulk.hpp:22 | `AllocateItem` returns the new item count, one past the index of the item it appended | a fresh store: ID 1 is returned, and `GetUnderlyingItem(1)` is out of range | return the appended item's index | high, not executed | Bulk.FirstAllocation | Bulk.Bulk.AllocateItem |
