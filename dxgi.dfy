/** DXGI constants and the configuration choices every renderer variant makes
    from them: factory flags, present arguments, swap-chain flags, the tearing
    feature query and the choice of adapter. */
module Dxgi {
  import opened Helpers

  const DXGI_CREATE_FACTORY_DEBUG: nat := 0x01
  const DXGI_ADAPTER_FLAG_SOFTWARE: nat := 2
  const DXGI_PRESENT_ALLOW_TEARING: nat := 0x200
  const DXGI_SWAP_CHAIN_FLAG_ALLOW_TEARING: nat := 2048
  /** Win32 `TRUE`; a `BOOL` compares equal to it only when it holds exactly 1. */
  const TRUE: int := 1

  /** `createFactoryFlags`: the debug factory flag exactly when the debug layer is on. */
  function FactoryFlags(debug: bool): (flags: nat)
    ensures flags == DXGI_CREATE_FACTORY_DEBUG <==> debug
    ensures flags == 0 <==> !debug
  {
    if debug then DXGI_CREATE_FACTORY_DEBUG else 0
  }

  /** `syncInterval`: wait for one vertical blank exactly when vsync is on. */
  function SyncInterval(vsync: bool): (interval: nat)
    ensures interval == 1 <==> vsync
    ensures interval == 0 <==> !vsync
  {
    if vsync then 1 else 0
  }

  /** `presentFlags`: tearing is requested exactly when it is allowed and vsync is off. */
  function PresentFlags(tearing: bool, vsync: bool): (flags: nat)
    ensures flags == DXGI_PRESENT_ALLOW_TEARING <==> tearing && !vsync
    ensures flags == 0 <==> !(tearing && !vsync)
  {
    if tearing && !vsync then DXGI_PRESENT_ALLOW_TEARING else 0
  }

  /** `swapChainDesc.Flags`: the swap chain allows tearing exactly when the output supports it. */
  function SwapChainFlags(tearingSupported: bool): (flags: nat)
    ensures flags == DXGI_SWAP_CHAIN_FLAG_ALLOW_TEARING <==> tearingSupported
    ensures flags == 0 <==> !tearingSupported
  {
    if tearingSupported then DXGI_SWAP_CHAIN_FLAG_ALLOW_TEARING else 0
  }

  /** What the operating system answers to the three steps of the tearing feature query. */
  datatype TearingQuery = TearingQuery(
    createFactory: int,    // HRESULT of CreateDXGIFactory1
    queryFactory5: int,    // HRESULT of factory4.As(&factory5)
    checkFeature: int,     // HRESULT of CheckFeatureSupport(DXGI_FEATURE_PRESENT_ALLOW_TEARING)
    reported: int)         // the BOOL CheckFeatureSupport writes when it succeeds

  /** `CheckTearingSupport`: the nested query keeps `allowTearing` FALSE unless every step
      succeeds, and then compares the reported BOOL with TRUE. */
  function CheckTearingSupport(q: TearingQuery): (supported: bool)
    ensures supported <==>
      !Failed(q.createFactory) && !Failed(q.queryFactory5) && !Failed(q.checkFeature) && q.reported == TRUE
  {
    var allowTearing :=
      if !Failed(q.createFactory) then
        if !Failed(q.queryFactory5) then
          if Failed(q.checkFeature) then 0 else q.reported
        else 0
      else 0;
    allowTearing == TRUE
  }

  /** What `GetDesc1` and the `D3D12CreateDevice` probe report about one enumerated adapter. */
  datatype AdapterDesc = AdapterDesc(flags: nat, dedicatedVideoMemory: nat, probe: int)

  /** `(Flags & DXGI_ADAPTER_FLAG_SOFTWARE) == 0` and the device probe succeeds. */
  predicate Qualifies(a: AdapterDesc) {
    (a.flags / DXGI_ADAPTER_FLAG_SOFTWARE) % 2 == 0 && !Failed(a.probe)
  }

  /** Adapter `k` is the one the selection loop settles on: it qualifies, it has more
      dedicated memory than every qualifying adapter before it (and than the initial
      maximum 0), and no qualifying adapter after it has more. */
  ghost predicate IsPick(adapters: seq<AdapterDesc>, k: nat) {
    && k < |adapters|
    && Qualifies(adapters[k])
    && adapters[k].dedicatedVideoMemory > 0
    && (forall j | 0 <= j < k && Qualifies(adapters[j]) ::
          adapters[j].dedicatedVideoMemory < adapters[k].dedicatedVideoMemory)
    && (forall j | k < j < |adapters| && Qualifies(adapters[j]) ::
          adapters[j].dedicatedVideoMemory <= adapters[k].dedicatedVideoMemory)
  }

  /** The adapter loop shared by every variant: a strict running maximum of dedicated video
      memory over the qualifying adapters, starting from 0, so ties keep the earliest and an
      adapter without dedicated memory is never chosen. */
  method PickAdapter(adapters: seq<AdapterDesc>) returns (chosen: Option<nat>, maxDedicatedVideoMemory: nat)
    ensures chosen.Some? ==> IsPick(adapters, chosen.value)
    ensures chosen.None? <==>
      forall j | 0 <= j < |adapters| && Qualifies(adapters[j]) :: adapters[j].dedicatedVideoMemory == 0
    ensures chosen.Some? ==> maxDedicatedVideoMemory == adapters[chosen.value].dedicatedVideoMemory
    ensures chosen.None? ==> maxDedicatedVideoMemory == 0
  {
    chosen, maxDedicatedVideoMemory := None, 0;
    var i := 0;
    while i < |adapters|
      invariant i <= |adapters|
      invariant chosen.Some? ==> chosen.value < i
      invariant chosen.Some? ==> IsPick(adapters[..i], chosen.value)
      invariant chosen.Some? ==> maxDedicatedVideoMemory == adapters[chosen.value].dedicatedVideoMemory
      invariant chosen.None? ==> maxDedicatedVideoMemory == 0
      invariant chosen.None? <==>
        forall j | 0 <= j < i && Qualifies(adapters[j]) :: adapters[j].dedicatedVideoMemory == 0
    {
      var desc := adapters[i];
      if Qualifies(desc) && desc.dedicatedVideoMemory > maxDedicatedVideoMemory {
        maxDedicatedVideoMemory := desc.dedicatedVideoMemory;
        chosen := Some(i);
      }
      i := i + 1;
    }
    assert adapters[..i] == adapters;
  }
}
