/** `DX12S::DX12Subsystem` of src/Common/DirectX12/DX12Subsystem.cpp: device set-up driven by
    the `CVar::NeedGraphicsDebugLayer` setting, lazily created command queues, and the
    configuration of the swap chain it creates. */
module Dx12Subsystem {
  import opened Helpers
  import opened Dxgi

  /** `NUM_BACKBUFFERS`. */
  const NumBackBuffers: nat := 3

  datatype QueueType = Direct | Compute

  datatype SwapChainDesc = SwapChainDesc(width: nat, height: nat, bufferCount: nat, flags: nat)

  class Subsystem {
    /** `CVar::NeedGraphicsDebugLayer`. */
    const needGraphicsDebugLayer: bool
    var debugLayerEnabled: bool
    var createFactoryFlags: nat
    /** `m_dxgiAdapter4`: the enumerated adapter picked, or empty. */
    var adapter: Option<nat>
    var deviceCreated: bool
    var isInitialized: bool
    /** `m_directCommandQueue`, `m_computeCommandQueue`: the id of the queue held, if any;
        empty when never created or when the creation failed. */
    var directQueue: Option<nat>
    var computeQueue: Option<nat>
    /** Every `CreateCommandQueue` issued, in order, whether it succeeded or not; a queue's
        id is the position of the call that created it. */
    var createdQueues: seq<QueueType>
    var isTearingSupport: bool
    /** What `CreateSwapChain` last asked for, and the queue it passed (empty if none). */
    var swapChainDesc: Option<SwapChainDesc>
    var swapChainQueue: Option<nat>

    ghost predicate Valid()
      reads this
    {
      && (directQueue.Some? ==> directQueue.value < |createdQueues| && createdQueues[directQueue.value] == Direct)
      && (computeQueue.Some? ==> computeQueue.value < |createdQueues| && createdQueues[computeQueue.value] == Compute)
    }

    /** `DX12Subsystem()`: nothing is created and the subsystem is not initialised. */
    constructor (needGraphicsDebugLayer: bool)
      ensures Valid() && this.needGraphicsDebugLayer == needGraphicsDebugLayer
      ensures !isInitialized && !debugLayerEnabled && !deviceCreated
      ensures directQueue.None? && computeQueue.None? && createdQueues == []
      ensures swapChainDesc.None? && swapChainQueue.None?
    {
      this.needGraphicsDebugLayer := needGraphicsDebugLayer;
      debugLayerEnabled := false;
      createFactoryFlags := 0;
      adapter := None;
      deviceCreated := false;
      isInitialized := false;
      directQueue, computeQueue := None, None;
      createdQueues := [];
      isTearingSupport := false;
      swapChainDesc, swapChainQueue := None, None;
    }

    /** `Init()`: the debug layer only when the setting asks for it, then the adapter and
        the device (on the default adapter when none was picked), then the flag. The adapter
        member is assigned only when the selection loop picks one; otherwise it keeps what
        it held before. */
    method Init(adapters: seq<AdapterDesc>) returns (ok: bool)
      requires Valid()
      modifies this`debugLayerEnabled, this`createFactoryFlags, this`adapter, this`deviceCreated, this`isInitialized
      ensures Valid() && ok && isInitialized && deviceCreated
      ensures debugLayerEnabled == (old(debugLayerEnabled) || needGraphicsDebugLayer)
      ensures createFactoryFlags == FactoryFlags(needGraphicsDebugLayer)
      ensures (exists j | 0 <= j < |adapters| && Qualifies(adapters[j]) :: adapters[j].dedicatedVideoMemory > 0) ==>
        adapter.Some? && IsPick(adapters, adapter.value)
      ensures (forall j | 0 <= j < |adapters| && Qualifies(adapters[j]) :: adapters[j].dedicatedVideoMemory == 0) ==>
        adapter == old(adapter)
    {
      if needGraphicsDebugLayer {
        debugLayerEnabled := true;
      }
      createFactoryFlags := FactoryFlags(needGraphicsDebugLayer);
      var chosen, _ := PickAdapter(adapters);
      if chosen.Some? {
        adapter := chosen;
      }
      deviceCreated := true;
      isInitialized := true;
      ok := true;
    }

    /** `Finish()`: asserts a prior `Init` and otherwise reports success. */
    method Finish() returns (ok: bool, outcome: Outcome)
      ensures isInitialized <==> outcome == Pass
      ensures !isInitialized ==> outcome == Thrown(AssertionFailed)
      ensures outcome == Pass ==> ok
    {
      if !isInitialized {
        return false, Thrown(AssertionFailed);
      }
      return true, Pass;
    }

    /** `GetDirectCommandQueue()`: asserts a prior `Init`; while no direct queue is held it
        issues `CreateCommandQueue` (whether that succeeds, `created`, is an input: the
        HRESULT is ignored), and it hands out the member as it stands, empty after a failed
        creation, so a later call tries again. */
    method GetDirectCommandQueue(created: bool) returns (queue: Option<nat>, outcome: Outcome)
      requires Valid()
      modifies this`directQueue, this`createdQueues
      ensures Valid()
      ensures !old(isInitialized) ==> outcome == Thrown(AssertionFailed) && unchanged(this)
      ensures old(isInitialized) ==> outcome == Pass && queue == directQueue
      ensures old(isInitialized) && old(directQueue).Some? ==>
        directQueue == old(directQueue) && createdQueues == old(createdQueues)
      ensures old(isInitialized) && old(directQueue).None? ==>
        createdQueues == old(createdQueues) + [Direct] &&
        directQueue == (if created then Some(|old(createdQueues)|) else None)
    {
      if !isInitialized {
        return None, Thrown(AssertionFailed);
      }
      if directQueue.None? {
        if created {
          directQueue := Some(|createdQueues|);
        }
        createdQueues := createdQueues + [Direct];
      }
      return directQueue, Pass;
    }

    /** `GetComputeCommandQueue()`: the same lazy creation for the compute queue, independent
        of the direct one. */
    method GetComputeCommandQueue(created: bool) returns (queue: Option<nat>, outcome: Outcome)
      requires Valid()
      modifies this`computeQueue, this`createdQueues
      ensures Valid()
      ensures directQueue == old(directQueue)
      ensures !old(isInitialized) ==> outcome == Thrown(AssertionFailed) && unchanged(this)
      ensures old(isInitialized) ==> outcome == Pass && queue == computeQueue
      ensures old(isInitialized) && old(computeQueue).Some? ==>
        computeQueue == old(computeQueue) && createdQueues == old(createdQueues)
      ensures old(isInitialized) && old(computeQueue).None? ==>
        createdQueues == old(createdQueues) + [Compute] &&
        computeQueue == (if created then Some(|old(createdQueues)|) else None)
    {
      if !isInitialized {
        return None, Thrown(AssertionFailed);
      }
      if computeQueue.None? {
        if created {
          computeQueue := Some(|createdQueues|);
        }
        createdQueues := createdQueues + [Compute];
      }
      return computeQueue, Pass;
    }

    /** `CreateSwapChain(hwnd, width, height)`, its configuration choices: the tearing query
        result is stored and decides the swap-chain flag, `NUM_BACKBUFFERS` buffers are
        requested, the factory is a debug factory exactly when the setting asks, and the
        direct queue member is passed as it stands, even when it was never created. */
    method CreateSwapChain(width: nat, height: nat, tearing: TearingQuery) returns (factoryFlags: nat)
      modifies this`isTearingSupport, this`swapChainDesc, this`swapChainQueue
      ensures isTearingSupport == CheckTearingSupport(tearing)
      ensures swapChainDesc == Some(SwapChainDesc(width, height, NumBackBuffers, SwapChainFlags(isTearingSupport)))
      ensures factoryFlags == FactoryFlags(needGraphicsDebugLayer)
      ensures swapChainQueue == directQueue
    {
      isTearingSupport := CheckTearingSupport(tearing);
      factoryFlags := FactoryFlags(needGraphicsDebugLayer);
      swapChainDesc := Some(SwapChainDesc(width, height, NumBackBuffers, SwapChainFlags(isTearingSupport)));
      swapChainQueue := directQueue;
    }
  }
}
