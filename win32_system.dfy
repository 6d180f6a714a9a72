/** `Win32OS::Win32System` (src/Common/Win32System.cpp): the platform layer that creates
    the window, initialises the DX12 and event subsystems in order, runs the message loop
    around an application and shuts the subsystems down once. */
module Win32System {
  import opened Helpers
  import opened Dxgi
  import opened WindowPlacement
  import Dx12Subsystem

  /** The defaults of `m_windowWidth` and `m_windowHeight`. */
  const DefaultWindowWidth: int := 1280
  const DefaultWindowHeight: int := 720

  /** `NUM_FRAMES`. */
  const NumFrames: nat := 3

  /** The messages `PeekMessage` can hand out: `WM_QUIT` or any other. */
  datatype Message = Quit | Other(id: nat)

  /** What the message loop does with the application and the window procedure. */
  datatype AppCall = AppInit | Dispatch(message: Message) | AppUpdate | AppFinish

  /** The subsystem calls `Init` and `Finish` make, in order. */
  datatype Step = CreateWindowStep | Dx12Init | EventsInit | ShowWindow | Dx12Finish | EventsFinish

  /** One pass of the message loop: a retrieved message is translated and dispatched, then
      the application updates whether or not a message was there. */
  function IterationCalls(peeked: Option<Message>): (calls: seq<AppCall>)
    ensures |calls| == if peeked.Some? then 2 else 1
    ensures calls[|calls| - 1] == AppUpdate
    ensures peeked.Some? ==> calls[0] == Dispatch(peeked.value)
  {
    (if peeked.Some? then [Dispatch(peeked.value)] else []) + [AppUpdate]
  }

  /** The passes of the message loop over the given `PeekMessage` results. */
  function LoopCalls(peeks: seq<Option<Message>>): seq<AppCall> {
    if |peeks| == 0 then [] else LoopCalls(peeks[..|peeks| - 1]) + IterationCalls(peeks[|peeks| - 1])
  }

  /** The number of `app.Update()` calls in a call sequence. */
  function Updates(calls: seq<AppCall>): nat {
    if |calls| == 0 then 0 else Updates(calls[..|calls| - 1]) + (if calls[|calls| - 1] == AppUpdate then 1 else 0)
  }

  lemma {:induction false} UpdatesAppend(a: seq<AppCall>, b: seq<AppCall>)
    ensures Updates(a + b) == Updates(a) + Updates(b)
    decreases |b|
  {
    if |b| == 0 {
      assert a + b == a;
    } else {
      assert (a + b)[..|a + b| - 1] == a + b[..|b| - 1];
      UpdatesAppend(a, b[..|b| - 1]);
    }
  }

  /** The loop never calls `Init` or `Finish` of the application, updates once per pass,
      and dispatches `WM_QUIT` exactly when `PeekMessage` retrieved it. */
  lemma {:induction false} LoopCallsShape(peeks: seq<Option<Message>>)
    ensures AppInit !in LoopCalls(peeks) && AppFinish !in LoopCalls(peeks)
    ensures Updates(LoopCalls(peeks)) == |peeks|
    ensures Dispatch(Quit) in LoopCalls(peeks) <==> Some(Quit) in peeks
  {
    if |peeks| > 0 {
      var init := peeks[..|peeks| - 1];
      LoopCallsShape(init);
      var last := IterationCalls(peeks[|peeks| - 1]);
      UpdatesAppend(LoopCalls(init), last);
      assert Updates(last) == 1 by {
        if peeks[|peeks| - 1].Some? {
          assert last[..1] == [Dispatch(peeks[|peeks| - 1].value)];
          assert Updates(last[..1]) == Updates([]) + 0;
        } else {
          assert last[..0] == [];
        }
      }
      assert peeks == init + [peeks[|peeks| - 1]];
    }
  }

  /** The position of the first `WM_QUIT` that `PeekMessage` retrieves. */
  function FirstQuit(peeks: seq<Option<Message>>): (k: nat)
    requires Some(Quit) in peeks
    ensures k < |peeks| && peeks[k] == Some(Quit)
    ensures forall j | 0 <= j < k :: peeks[j] != Some(Quit)
  {
    if peeks[0] == Some(Quit) then 0 else 1 + FirstQuit(peeks[1..])
  }

  /** Wrapping the loop's calls in `app.Init` and `app.Finish` puts each of them exactly at
      one end and adds no update. */
  lemma WrappedLoopShape(loop: seq<AppCall>)
    requires AppInit !in loop && AppFinish !in loop
    ensures var calls := [AppInit] + loop + [AppFinish];
      && AppInit !in calls[1..] && AppFinish !in calls[..|calls| - 1]
      && Updates(calls) == Updates(loop)
  {
    var calls := [AppInit] + loop + [AppFinish];
    assert calls[1..] == loop + [AppFinish];
    assert calls[..|calls| - 1] == [AppInit] + loop;
    UpdatesAppend([AppInit], loop);
    UpdatesAppend([AppInit] + loop, [AppFinish]);
    assert [AppInit][..0] == [];
    assert [AppFinish][..0] == [];
  }

  class System {
    var isInitialized: bool
    var isFullscreen: bool
    /** `m_hwnd` is non-null. */
    var hasWindow: bool
    /** `m_windowWidth`, `m_windowHeight` (int) and where `createWindow` put the window. */
    var windowWidth: int
    var windowHeight: int
    var windowX: int
    var windowY: int
    var isTearingSupport: bool
    /** `m_dx12`. */
    const dx12: Dx12Subsystem.Subsystem
    /** `m_eventSubsystem` holds initialised state. */
    var eventsInitialized: bool
    /** Every subsystem call `Init` and `Finish` made, in order. */
    var steps: seq<Step>
    /** What `createSwapChain` asked for, and the queue it passed. */
    var swapChainDesc: Option<Dx12Subsystem.SwapChainDesc>
    var swapChainQueue: Option<nat>
    var createFactoryFlags: nat

    ghost predicate Valid()
      reads this, dx12
    {
      && dx12.Valid()
      && (isInitialized ==> dx12.isInitialized && eventsInitialized)
    }

    /** `Win32System()`: no window, nothing initialised, the default 1280x720 size. */
    constructor (needGraphicsDebugLayer: bool)
      ensures Valid() && fresh(dx12)
      ensures !isInitialized && !isFullscreen && !hasWindow && !isTearingSupport && !eventsInitialized
      ensures windowWidth == DefaultWindowWidth && windowHeight == DefaultWindowHeight
      ensures !dx12.isInitialized && steps == []
    {
      isInitialized, isFullscreen, hasWindow := false, false, false;
      windowWidth, windowHeight := DefaultWindowWidth, DefaultWindowHeight;
      windowX, windowY := 0, 0;
      isTearingSupport := false;
      dx12 := new Dx12Subsystem.Subsystem(needGraphicsDebugLayer);
      eventsInitialized := false;
      steps := [];
      swapChainDesc, swapChainQueue := None, None;
      createFactoryFlags := 0;
    }

    /** `Init(desc)`: the window, then the DX12 subsystem, then the event subsystem, stopping
        at the first step that fails; only when all three succeed is the window shown and
        the system marked initialised. The window and the DX12 subsystem report success
        unconditionally, so the event subsystem (`eventsOk`) decides. The screen size and
        the frame `AdjustWindowRect` adds come from the operating system. */
    method Init(adapters: seq<AdapterDesc>, eventsOk: bool,
                screenWidth: int, screenHeight: int, frameWidth: nat, frameHeight: nat) returns (ok: bool)
      requires Valid()
      requires 0 <= screenWidth && screenWidth * 3 < 0x8000_0000
      requires 0 <= screenHeight && screenHeight * 3 < 0x8000_0000
      modifies this, dx12`debugLayerEnabled, dx12`createFactoryFlags, dx12`adapter, dx12`deviceCreated, dx12`isInitialized
      ensures Valid()
      ensures ok == eventsOk
      ensures ok ==> isInitialized
      ensures !ok ==> isInitialized == old(isInitialized)
      ensures hasWindow && dx12.isInitialized && eventsInitialized == (old(eventsInitialized) || eventsOk)
      ensures windowWidth == DesiredExtent(screenWidth, 3, 4) + frameWidth
      ensures windowHeight == DesiredExtent(screenHeight, 3, 4) + frameHeight
      ensures windowX == CenteredOrigin(screenWidth, windowWidth) && windowX >= 0
      ensures windowY == CenteredOrigin(screenHeight, windowHeight) && windowY >= 0
      ensures steps == old(steps) + [CreateWindowStep, Dx12Init, EventsInit] + (if ok then [ShowWindow] else [])
      ensures isFullscreen == old(isFullscreen) && isTearingSupport == old(isTearingSupport)
      ensures swapChainDesc == old(swapChainDesc) && swapChainQueue == old(swapChainQueue)
      ensures createFactoryFlags == old(createFactoryFlags)
    {
      var created := CreateWindow(screenWidth, screenHeight, frameWidth, frameHeight);
      if !created {
        return false;
      }
      steps := steps + [Dx12Init];
      var dx12Ok := dx12.Init(adapters);
      if !dx12Ok {
        return false;
      }
      steps := steps + [EventsInit];
      if !eventsOk {
        return false;
      }
      eventsInitialized := true;
      steps := steps + [ShowWindow];
      isInitialized := true;
      return true;
    }

    /** `createWindow(desc)`: a client area of three quarters of the screen, grown by the
        window frame, centred and clamped to the top-left corner. */
    method CreateWindow(screenWidth: int, screenHeight: int, frameWidth: nat, frameHeight: nat) returns (ok: bool)
      requires 0 <= screenWidth && screenWidth * 3 < 0x8000_0000
      requires 0 <= screenHeight && screenHeight * 3 < 0x8000_0000
      modifies this`windowWidth, this`windowHeight, this`windowX, this`windowY, this`hasWindow, this`steps
      ensures ok && hasWindow
      ensures windowWidth == DesiredExtent(screenWidth, 3, 4) + frameWidth
      ensures windowHeight == DesiredExtent(screenHeight, 3, 4) + frameHeight
      ensures windowX == CenteredOrigin(screenWidth, windowWidth)
      ensures windowY == CenteredOrigin(screenHeight, windowHeight)
      ensures steps == old(steps) + [CreateWindowStep]
    {
      var desiredWidth := DesiredExtent(screenWidth, 3, 4);
      var desiredHeight := DesiredExtent(screenHeight, 3, 4);
      windowWidth := desiredWidth + frameWidth;
      windowHeight := desiredHeight + frameHeight;
      windowX := CenteredOrigin(screenWidth, windowWidth);
      windowY := CenteredOrigin(screenHeight, windowHeight);
      hasWindow := true;
      steps := steps + [CreateWindowStep];
      ok := true;
    }

    /** `Run(app)`: `app.Init` once, then passes of the message loop until a retrieved
        message is `WM_QUIT` (the pass that retrieves it still updates the application),
        then `app.Finish` once. `peeks` are the successive `PeekMessage` results; a loop
        that never retrieves `WM_QUIT` does not end, so one is required. */
    method Run(peeks: seq<Option<Message>>) returns (calls: seq<AppCall>)
      requires Some(Quit) in peeks
      ensures calls == [AppInit] + LoopCalls(peeks[..FirstQuit(peeks) + 1]) + [AppFinish]
      ensures calls[0] == AppInit && calls[|calls| - 1] == AppFinish
      ensures AppInit !in calls[1..] && AppFinish !in calls[..|calls| - 1]
      ensures Updates(calls) == FirstQuit(peeks) + 1
    {
      var loop := MessageLoop(peeks);
      calls := [AppInit] + loop + [AppFinish];
      LoopCallsShape(peeks[..FirstQuit(peeks) + 1]);
      WrappedLoopShape(loop);
    }

    /** The `while (msg.message != WM_QUIT)` loop of `Run`. `msg` starts zeroed, which is not
        `WM_QUIT`, and keeps its value on a pass where nothing was retrieved. */
    method MessageLoop(peeks: seq<Option<Message>>) returns (calls: seq<AppCall>)
      requires Some(Quit) in peeks
      ensures calls == LoopCalls(peeks[..FirstQuit(peeks) + 1])
    {
      var last := FirstQuit(peeks);
      calls := [];
      var msg := Other(0);
      var i := 0;
      while msg != Quit
        invariant 0 <= i <= last + 1
        invariant msg == Quit <==> i == last + 1
        invariant calls == LoopCalls(peeks[..i])
        decreases last + 1 - i
      {
        var peeked := peeks[i];
        if peeked.Some? {
          msg := peeked.value;
        }
        assert peeks[..i + 1][..i] == peeks[..i];
        calls := calls + IterationCalls(peeked);
        i := i + 1;
      }
    }

    /** `Finish()` (and the destructor, which calls it): shuts the DX12 and event subsystems
        down only when initialised and clears the flag; always reports success, so a second
        call does nothing. */
    method Finish() returns (ok: bool)
      requires Valid()
      modifies this`isInitialized, this`eventsInitialized, this`steps
      ensures Valid() && ok && !isInitialized
      ensures old(isInitialized) ==> steps == old(steps) + [Dx12Finish, EventsFinish] && !eventsInitialized
      ensures !old(isInitialized) ==> steps == old(steps) && eventsInitialized == old(eventsInitialized)
    {
      if isInitialized {
        var _, outcome := dx12.Finish();
        assert outcome == Pass;
        eventsInitialized := false;
        steps := steps + [Dx12Finish, EventsFinish];
        isInitialized := false;
      }
      return true;
    }

    /** `IsInitialized()`. */
    function IsInitialized(): (initialized: bool)
      reads this
      ensures initialized <==> isInitialized
    {
      isInitialized
    }

    /** `IsFullscreen()`. */
    function IsFullscreen(): (fullscreen: bool)
      reads this
      ensures fullscreen <==> isFullscreen
    {
      isFullscreen
    }

    /** `GetWindowSize(width, height)`: the stored size, 1280x720 until a window exists. */
    method GetWindowSize() returns (width: int, height: int)
      ensures width == windowWidth && height == windowHeight
      ensures !hasWindow && windowWidth == DefaultWindowWidth && windowHeight == DefaultWindowHeight ==>
        width == 1280 && height == 720
    {
      width, height := windowWidth, windowHeight;
    }

    /** `createSwapChain(desc)`: records whether tearing is supported, builds the
        description from the window size with `NUM_FRAMES` buffers and the tearing flag, and
        creates the swap chain on the direct queue, which asserts an initialised DX12
        subsystem. `debug` is `desc.DX12SubsystemDebug`; `queueCreated` is whether the
        queue getter's `CreateCommandQueue` succeeds when it has to create the queue, and
        `swapChainHr` is what `CreateSwapChainForHwnd` returns, which `ThrowIfFailed`
        checks. The queue is passed as the getter returns it, empty if its creation failed. */
    method CreateSwapChain(debug: bool, tearing: TearingQuery, queueCreated: bool, swapChainHr: int)
      returns (outcome: Outcome)
      requires Valid()
      requires 0 <= windowWidth && 0 <= windowHeight
      modifies this`isTearingSupport, this`createFactoryFlags, this`swapChainDesc, this`swapChainQueue,
        dx12`directQueue, dx12`createdQueues
      ensures Valid()
      ensures isTearingSupport == CheckTearingSupport(tearing)
      ensures createFactoryFlags == FactoryFlags(debug)
      ensures outcome == Pass <==> dx12.isInitialized && !Failed(swapChainHr)
      ensures !dx12.isInitialized ==>
        outcome == Thrown(AssertionFailed) && swapChainDesc == old(swapChainDesc) && swapChainQueue == old(swapChainQueue)
      ensures dx12.isInitialized ==>
        && outcome == ThrowIfFailed(swapChainHr)
        && swapChainDesc == Some(Dx12Subsystem.SwapChainDesc(windowWidth, windowHeight, NumFrames,
             SwapChainFlags(CheckTearingSupport(tearing))))
        && swapChainQueue == dx12.directQueue
        && (swapChainQueue.Some? <==> old(dx12.directQueue).Some? || queueCreated)
    {
      isTearingSupport := CheckTearingSupport(tearing);
      createFactoryFlags := FactoryFlags(debug);
      var queue, queueOutcome := dx12.GetDirectCommandQueue(queueCreated);
      if queueOutcome != Pass {
        return queueOutcome;
      }
      swapChainDesc := Some(Dx12Subsystem.SwapChainDesc(windowWidth, windowHeight, NumFrames,
        SwapChainFlags(isTearingSupport)));
      swapChainQueue := queue;
      return ThrowIfFailed(swapChainHr);
    }
  }
}
