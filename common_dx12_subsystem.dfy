/** `DX12S::DX12Subsystem` of src/Common/DX12Subsystem.cpp: the older subsystem whose `Init`
    takes the debug switch as an argument. */
module CommonDx12Subsystem {
  import opened Helpers
  import opened Dxgi

  class Subsystem {
    /** `m_enableGDL`. */
    var enableGDL: bool
    /** How many times the debug layer was switched on. */
    var debugLayerRequests: nat
    var createFactoryFlags: nat
    /** `m_DXGIAdapter4`: the enumerated adapter picked, or empty. */
    var adapter: Option<nat>
    var deviceCreated: bool

    /** `DX12Subsystem()`: `m_enableGDL` starts false. */
    constructor ()
      ensures !enableGDL && debugLayerRequests == 0 && !deviceCreated && adapter.None?
    {
      enableGDL := false;
      debugLayerRequests := 0;
      createFactoryFlags := 0;
      adapter := None;
      deviceCreated := false;
    }

    /** `Init(isDebug)`: only a true argument sets `m_enableGDL` and enables the debug layer; a
        false argument leaves an earlier true in place. The factory is a debug factory exactly
        when `m_enableGDL` is set. `Init` reports success whenever it returns. */
    method Init(isDebug: bool, adapters: seq<AdapterDesc>) returns (ok: bool)
      modifies this
      ensures ok && deviceCreated
      ensures enableGDL == (old(enableGDL) || isDebug)
      ensures debugLayerRequests == old(debugLayerRequests) + (if isDebug then 1 else 0)
      ensures createFactoryFlags == FactoryFlags(enableGDL)
      ensures (exists j | 0 <= j < |adapters| && Qualifies(adapters[j]) :: adapters[j].dedicatedVideoMemory > 0) ==>
        adapter.Some? && IsPick(adapters, adapter.value)
      ensures (forall j | 0 <= j < |adapters| && Qualifies(adapters[j]) :: adapters[j].dedicatedVideoMemory == 0) ==>
        adapter == old(adapter)
    {
      if isDebug {
        enableGDL := isDebug;
        debugLayerRequests := debugLayerRequests + 1;
      }
      createFactoryFlags := FactoryFlags(enableGDL);
      var chosen, _ := PickAdapter(adapters);
      if chosen.Some? {
        adapter := chosen;
      }
      deviceCreated := true;
      ok := true;
    }

    /** `Finish()`: always reports success and changes nothing. */
    method Finish() returns (ok: bool)
      ensures ok
    {
      ok := true;
    }
  }
}
