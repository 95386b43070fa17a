/**
 * `Sdl3Window`: window creation flags, the close protocol (a Quit request that
 * `CloseRequested` handlers may veto), the poll/update/render main loop, and disposal.
 *
 * SDL's event queue is a parameter: the main loop receives one batch of events per
 * iteration (`frames`), and `PollEvents` drains one batch.
 */
module Windows {
  import opened Wrappers
  import opened Sdl
  import opened Delegates
  import InputContext

  // SDL_WindowFlags (SDL_video.h)
  const WindowOpenGL: bv64 := 0x2
  const WindowHidden: bv64 := 0x8
  const WindowResizable: bv64 := 0x20
  const WindowHighPixelDensity: bv64 := 0x2000
  const WindowVulkan: bv64 := 0x1000_0000
  const WindowMetal: bv64 := 0x2000_0000

  // SpecializedWindowType, by underlying value
  const WindowTypeNone: int := 0
  const WindowTypeOpenGLCompatible: int := 1
  const WindowTypeVulkanCompatible: int := 2
  const WindowTypeMetalCompatible: int := 3

  /** `WindowInitParameters.BackendParameters`: absent, SDL3's own record, or another backend's. */
  datatype BackendParameters = NoBackendParameters | OtherBackendParameters | Sdl3Parameters(windowType: int32)

  /** The `WindowInitParameters` fields window creation reads. */
  datatype WindowInitParameters = WindowInitParameters(hidden: bool, resizable: bool, backendParameters: BackendParameters)

  datatype WindowError =
    | ArgumentOutOfRange      // a `SpecializedWindowType` outside the enum
    | NativeWindowException   // SDL could not create the window, or the handle is zero

  /** The window type in effect: SDL3's parameters when given, otherwise the record's default, `None`. */
  function WindowTypeOf(p: BackendParameters): int
  {
    if p.Sdl3Parameters? then p.windowType else WindowTypeNone
  }

  /** The flags `CreateWindowInternal` passes to `SDL_CreateWindow`, or the error its `switch` throws. */
  function WindowFlags(init: WindowInitParameters): Result<bv64, WindowError>
  {
    var flags := WindowHighPixelDensity
                 | (if init.hidden then WindowHidden else 0)
                 | (if init.resizable then WindowResizable else 0);
    var windowType := WindowTypeOf(init.backendParameters);
    if windowType == WindowTypeNone then Ok(flags)
    else if windowType == WindowTypeOpenGLCompatible then Ok(flags | WindowOpenGL)
    else if windowType == WindowTypeVulkanCompatible then Ok(flags | WindowVulkan)
    else if windowType == WindowTypeMetalCompatible then Ok(flags | WindowMetal)
    else Err(ArgumentOutOfRange)
  }

  /**
   * High pixel density is always requested; Hidden and Resizable exactly when asked for;
   * OpenGL, Vulkan or Metal exactly for the matching window type and none for `None` or
   * missing SDL3 parameters; no other flag is ever set; any other type is refused.
   */
  lemma WindowFlagsMeaning(init: WindowInitParameters)
    ensures var t := WindowTypeOf(init.backendParameters);
            && (WindowFlags(init).Ok? <==> 0 <= t <= 3)
            && (WindowFlags(init).Err? ==> WindowFlags(init).error == ArgumentOutOfRange)
            && (WindowFlags(init).Ok? ==>
                  var f := WindowFlags(init).value;
                  && f & WindowHighPixelDensity != 0
                  && (f & WindowHidden != 0 <==> init.hidden)
                  && (f & WindowResizable != 0 <==> init.resizable)
                  && (f & WindowOpenGL != 0 <==> t == WindowTypeOpenGLCompatible)
                  && (f & WindowVulkan != 0 <==> t == WindowTypeVulkanCompatible)
                  && (f & WindowMetal != 0 <==> t == WindowTypeMetalCompatible)
                  && f & !(WindowHighPixelDensity | WindowHidden | WindowResizable
                           | WindowOpenGL | WindowVulkan | WindowMetal) == 0)
  {
  }

  // ---------------------------------------------------------------- closing

  /**
   * A `CloseRequested` subscriber. It receives `args` by reference; `decide` maps the
   * `ShouldClose` it sees to the one it leaves.
   */
  datatype CloseHandler = CloseHandler(id: HandlerId, decide: bool -> bool)
  {
    function Apply(shouldClose: bool): bool
    {
      decide(shouldClose)
    }
  }

  /** `ShouldClose` after the invocation list has run, starting from `shouldClose`. */
  function ShouldClose(handlers: seq<CloseHandler>, shouldClose: bool): bool
  {
    if handlers == [] then shouldClose
    else handlers[|handlers| - 1].Apply(ShouldClose(handlers[..|handlers| - 1], shouldClose))
  }

  function Ids(handlers: seq<CloseHandler>): (ids: seq<HandlerId>)
    ensures |ids| == |handlers|
    ensures forall i | 0 <= i < |ids| :: ids[i] == handlers[i].id
  {
    if handlers == [] then [] else Ids(handlers[..|handlers| - 1]) + [handlers[|handlers| - 1].id]
  }

  /** Handlers that leave `ShouldClose` alone let the window close; one that always vetoes, placed last, keeps it open. */
  lemma {:induction false} ShouldCloseVeto(handlers: seq<CloseHandler>, shouldClose: bool)
    ensures (forall i, b | 0 <= i < |handlers| :: handlers[i].Apply(b) == b) ==>
              ShouldClose(handlers, shouldClose) == shouldClose
    ensures handlers != [] && !handlers[|handlers| - 1].Apply(false) && !handlers[|handlers| - 1].Apply(true) ==>
              !ShouldClose(handlers, shouldClose)
  {
    if handlers != [] {
      ShouldCloseVeto(handlers[..|handlers| - 1], shouldClose);
    }
  }

  /** What the window raises. `Update` and `Render` always receive a zero time span. */
  datatype WindowNotification =
    | Loaded
    | Updated(deltaTicks: int)
    | Rendered(deltaTicks: int)
    | CloseRequestedRaised(shouldClose: bool)
    | Closing
    | EventProcessed(event: Event)

  /** The close flag after a close request: a forced one always sets it, a plain one unless the handlers veto. */
  function CloseFlagAfter(closed: bool, handlers: seq<CloseHandler>, skipEventCallback: bool): bool
  {
    closed || skipEventCallback || ShouldClose(handlers, true)
  }

  /** What a plain close request logs: one `CloseRequested` raise when anyone listens. */
  function CloseLog(handlers: seq<CloseHandler>, skipEventCallback: bool): seq<Notification<WindowNotification>>
  {
    if skipEventCallback then [] else Raise(Ids(handlers), CloseRequestedRaised(true))
  }

  /** The close flag after one polled batch: each Quit event is a plain close request. */
  function CloseFlagAfterBatch(closed: bool, handlers: seq<CloseHandler>, batch: seq<Event>): bool
  {
    closed || (Quit in batch && ShouldClose(handlers, true))
  }

  /** What polling one batch logs: per event, the close request of a Quit, then `EventProcess`. */
  function BatchLog(handlers: seq<CloseHandler>, eventProcess: seq<HandlerId>, batch: seq<Event>)
    : seq<Notification<WindowNotification>>
  {
    if batch == [] then []
    else
      var e := batch[|batch| - 1];
      BatchLog(handlers, eventProcess, batch[..|batch| - 1])
      + (if e.Quit? then CloseLog(handlers, false) else [])
      + Raise(eventProcess, EventProcessed(e))
  }

  /** How many iterations the main loop runs: until the close flag is set, or the frames run out. */
  function FramesRun(closed: bool, handlers: seq<CloseHandler>, frames: seq<seq<Event>>): nat
    decreases |frames|
  {
    if closed || frames == [] then 0
    else 1 + FramesRun(CloseFlagAfterBatch(closed, handlers, frames[0]), handlers, frames[1..])
  }

  /** The index of the first batch holding a Quit event, or `|frames|`. */
  function FirstQuitFrame(frames: seq<seq<Event>>): (k: nat)
    ensures k <= |frames|
    ensures k < |frames| ==> Quit in frames[k]
    ensures forall j | 0 <= j < k :: Quit !in frames[j]
  {
    if frames == [] then 0 else if Quit in frames[0] then 0 else 1 + FirstQuitFrame(frames[1..])
  }

  /**
   * The loop runs no iteration once closed. Otherwise, if the handlers veto a close it
   * runs every frame; if they accept, it stops right after the first frame with a Quit.
   */
  lemma {:induction false} FramesRunStopsAtFirstQuit(closed: bool, handlers: seq<CloseHandler>, frames: seq<seq<Event>>)
    ensures closed ==> FramesRun(closed, handlers, frames) == 0
    ensures !closed && !ShouldClose(handlers, true) ==> FramesRun(closed, handlers, frames) == |frames|
    ensures !closed && ShouldClose(handlers, true) ==>
              FramesRun(closed, handlers, frames) == if FirstQuitFrame(frames) < |frames| then FirstQuitFrame(frames) + 1 else |frames|
    decreases |frames|
  {
    if !closed && frames != [] {
      FramesRunStopsAtFirstQuit(CloseFlagAfterBatch(closed, handlers, frames[0]), handlers, frames[1..]);
    }
  }

  /** What the main loop logs over the frames it runs: the batch, then `Update`, then `Render`. */
  function MainLoopLog(handlers: seq<CloseHandler>, eventProcess: seq<HandlerId>, update: seq<HandlerId>,
                       render: seq<HandlerId>, frames: seq<seq<Event>>): seq<Notification<WindowNotification>>
  {
    if frames == [] then []
    else
      MainLoopLog(handlers, eventProcess, update, render, frames[..|frames| - 1])
      + BatchLog(handlers, eventProcess, frames[|frames| - 1])
      + Raise(update, Updated(0)) + Raise(render, Rendered(0))
  }

  /** Unfolds `FramesRun` one open frame further, for `RunMainLoop`'s invariant. */
  lemma FramesRunStep(closed: bool, handlers: seq<CloseHandler>, frames: seq<seq<Event>>, k: nat)
    requires !closed && k < |frames|
    ensures FramesRun(closed, handlers, frames[k..])
            == 1 + FramesRun(CloseFlagAfterBatch(closed, handlers, frames[k]), handlers, frames[k + 1..])
  {
    assert frames[k..][1..] == frames[k + 1..];
  }

  /** Unfolds `MainLoopLog` one frame further, for `RunMainLoop`'s invariant. */
  lemma MainLoopLogStep(handlers: seq<CloseHandler>, eventProcess: seq<HandlerId>, update: seq<HandlerId>,
                        render: seq<HandlerId>, frames: seq<seq<Event>>, k: nat)
    requires k < |frames|
    ensures MainLoopLog(handlers, eventProcess, update, render, frames[..k + 1])
            == MainLoopLog(handlers, eventProcess, update, render, frames[..k])
               + (BatchLog(handlers, eventProcess, frames[k])
               + Raise(update, Updated(0)) + Raise(render, Rendered(0)))
  {
    assert frames[..k + 1][..k] == frames[..k];
  }

  // ---------------------------------------------------------------- the window

  class Sdl3Window {
    /** `NativeHandle`: the `SDL_Window` handle, zero when there is no window. */
    var nativeHandle: int
    var closeRequested: bool
    const initParameters: WindowInitParameters
    /** The invocation lists of `Loaded`, `Update`, `Render`, `Closing`, `EventProcess` and `CloseRequested`. */
    var loaded: seq<HandlerId>
    var update: seq<HandlerId>
    var render: seq<HandlerId>
    var closing: seq<HandlerId>
    var eventProcess: seq<HandlerId>
    var closeHandlers: seq<CloseHandler>
    var log: seq<Notification<WindowNotification>>
    /** The handles passed to `SDL_DestroyWindow`, in order. */
    var destroyed: seq<int>

    twostate predicate SubscriptionsUnchanged()
      reads this
    {
      && loaded == old(loaded) && update == old(update) && render == old(render) && closing == old(closing)
      && eventProcess == old(eventProcess) && closeHandlers == old(closeHandlers)
    }

    constructor (initParams: WindowInitParameters)
      ensures nativeHandle == 0 && !closeRequested && initParameters == initParams
      ensures loaded == [] && update == [] && render == [] && closing == [] && eventProcess == []
      ensures closeHandlers == [] && log == [] && destroyed == []
    {
      nativeHandle := 0;
      closeRequested := false;
      initParameters := initParams;
      loaded, update, render, closing, eventProcess := [], [], [], [], [];
      closeHandlers := [];
      log := [];
      destroyed := [];
    }

    method ThrowIfNativeHandleInvalid() returns (r: Outcome<WindowError>)
      ensures r.Fail? <==> nativeHandle == 0
      ensures r.Fail? ==> r.error == NativeWindowException
    {
      if nativeHandle == 0 {
        return Fail(NativeWindowException);
      }
      return Pass;
    }

    /** `CreateInput`: refused without a window, otherwise a new, empty input context subscribed to this window. */
    method CreateInput() returns (r: Result<InputContext.Sdl3InputContext, WindowError>)
      ensures r.Err? <==> nativeHandle == 0
      ensures r.Ok? ==> fresh(r.value) && r.value.Valid() && r.value.State() == InputContext.EmptyRegistry
      ensures r.Ok? ==>
                && r.value.subscribed && r.value.notifications == []
                && r.value.textInput == [] && r.value.deviceAdded == [] && r.value.deviceRemoved == []
    {
      var valid := ThrowIfNativeHandleInvalid();
      if valid.Fail? {
        return Err(valid.error);
      }
      var context := new InputContext.Sdl3InputContext();
      return Ok(context);
    }

    /**
     * `CreateWindowInternal`. `createWindow` stands for `SDL_CreateWindow` with the title and
     * size: it maps the flags to the new handle, zero on failure.
     */
    method CreateWindowInternal(createWindow: bv64 -> int) returns (r: Outcome<WindowError>)
      modifies this
      ensures WindowFlags(initParameters).Err? ==> r == Fail(ArgumentOutOfRange) && nativeHandle == old(nativeHandle)
      ensures WindowFlags(initParameters).Ok? ==>
                && nativeHandle == createWindow(WindowFlags(initParameters).value)
                && (r.Fail? <==> nativeHandle == 0)
                && (r.Fail? ==> r.error == NativeWindowException)
      ensures closeRequested == old(closeRequested) && log == old(log) && destroyed == old(destroyed)
      ensures SubscriptionsUnchanged()
    {
      var backendParams := initParameters.backendParameters;
      if !backendParams.Sdl3Parameters? {
        backendParams := Sdl3Parameters(WindowTypeNone);
      }
      var flags := WindowHighPixelDensity;
      if initParameters.hidden {
        flags := flags | WindowHidden;
      }
      if initParameters.resizable {
        flags := flags | WindowResizable;
      }
      var windowType := backendParams.windowType;
      if windowType == WindowTypeNone {
      } else if windowType == WindowTypeOpenGLCompatible {
        flags := flags | WindowOpenGL;
      } else if windowType == WindowTypeVulkanCompatible {
        flags := flags | WindowVulkan;
      } else if windowType == WindowTypeMetalCompatible {
        flags := flags | WindowMetal;
      } else {
        return Fail(ArgumentOutOfRange);
      }
      nativeHandle := createWindow(flags);
      if nativeHandle == 0 {
        return Fail(NativeWindowException);
      }
      return Pass;
    }

    /** `ProcessQuitEvent`: a forced request sets the close flag; a plain one asks `CloseRequested` first. */
    method ProcessQuitEvent(skipEventCallback: bool)
      modifies this
      ensures closeRequested == CloseFlagAfter(old(closeRequested), closeHandlers, skipEventCallback)
      ensures log == old(log) + CloseLog(closeHandlers, skipEventCallback)
      ensures nativeHandle == old(nativeHandle) && destroyed == old(destroyed) && SubscriptionsUnchanged()
    {
      if skipEventCallback {
        closeRequested := true;
        return;
      }
      var shouldClose := true;
      log := log + Raise(Ids(closeHandlers), CloseRequestedRaised(true));
      for i := 0 to |closeHandlers|
        invariant shouldClose == ShouldClose(closeHandlers[..i], true)
      {
        assert closeHandlers[..i + 1][..i] == closeHandlers[..i];
        shouldClose := closeHandlers[i].Apply(shouldClose);
      }
      assert closeHandlers[..|closeHandlers|] == closeHandlers;
      if shouldClose {
        closeRequested := true;
      }
    }

    method Close(force: bool)
      modifies this
      ensures closeRequested == CloseFlagAfter(old(closeRequested), closeHandlers, force)
      ensures log == old(log) + CloseLog(closeHandlers, force)
      ensures nativeHandle == old(nativeHandle) && destroyed == old(destroyed) && SubscriptionsUnchanged()
    {
      ProcessQuitEvent(force);
    }

    /** `PollEvents`: drains one batch; a Quit event is a plain close request, handled before `EventProcess` sees it. */
    method PollEvents(batch: seq<Event>)
      modifies this
      ensures closeRequested == CloseFlagAfterBatch(old(closeRequested), closeHandlers, batch)
      ensures log == old(log) + BatchLog(closeHandlers, eventProcess, batch)
      ensures nativeHandle == old(nativeHandle) && destroyed == old(destroyed) && SubscriptionsUnchanged()
    {
      for i := 0 to |batch|
        invariant closeRequested == CloseFlagAfterBatch(old(closeRequested), closeHandlers, batch[..i])
        invariant log == old(log) + BatchLog(closeHandlers, eventProcess, batch[..i])
        invariant nativeHandle == old(nativeHandle) && destroyed == old(destroyed) && SubscriptionsUnchanged()
      {
        assert batch[..i + 1][..i] == batch[..i];
        var e := batch[i];
        if e.Quit? {
          ProcessQuitEvent(false);
        }
        log := log + Raise(eventProcess, EventProcessed(e));
      }
      assert batch[..|batch|] == batch;
    }

    /** One iteration of the main loop's body. */
    method RunIteration(batch: seq<Event>)
      modifies this
      ensures closeRequested == CloseFlagAfterBatch(old(closeRequested), closeHandlers, batch)
      ensures log == old(log) + (BatchLog(closeHandlers, eventProcess, batch)
                                 + Raise(update, Updated(0)) + Raise(render, Rendered(0)))
      ensures nativeHandle == old(nativeHandle) && destroyed == old(destroyed) && SubscriptionsUnchanged()
    {
      PollEvents(batch);
      log := log + Raise(update, Updated(0)) + Raise(render, Rendered(0));
    }

    /** `RunMainLoop`: poll, update, render, until the close flag is set (or the frames run out). */
    method RunMainLoop(frames: seq<seq<Event>>) returns (framesRun: nat)
      modifies this
      ensures framesRun <= |frames|
      ensures framesRun == FramesRun(old(closeRequested), closeHandlers, frames)
      ensures framesRun < |frames| ==> closeRequested
      ensures log == old(log) + MainLoopLog(closeHandlers, eventProcess, update, render, frames[..framesRun])
      ensures nativeHandle == old(nativeHandle) && destroyed == old(destroyed) && SubscriptionsUnchanged()
    {
      framesRun := 0;
      while !closeRequested && framesRun < |frames|
        invariant framesRun <= |frames|
        invariant FramesRun(old(closeRequested), closeHandlers, frames)
                  == framesRun + FramesRun(closeRequested, closeHandlers, frames[framesRun..])
        invariant log == old(log) + MainLoopLog(closeHandlers, eventProcess, update, render, frames[..framesRun])
        invariant nativeHandle == old(nativeHandle) && destroyed == old(destroyed) && SubscriptionsUnchanged()
        decreases |frames| - framesRun
      {
        FramesRunStep(closeRequested, closeHandlers, frames, framesRun);
        MainLoopLogStep(closeHandlers, eventProcess, update, render, frames, framesRun);
        ghost var done := old(log) + MainLoopLog(closeHandlers, eventProcess, update, render, frames[..framesRun]);
        ghost var step := BatchLog(closeHandlers, eventProcess, frames[framesRun])
                          + Raise(update, Updated(0)) + Raise(render, Rendered(0));
        RunIteration(frames[framesRun]);
        assert log == done + step;
        assert old(log) + MainLoopLog(closeHandlers, eventProcess, update, render, frames[..framesRun + 1]) == done + step;
        framesRun := framesRun + 1;
      }
    }

    /** `Run`: create the window, raise `Loaded`, run the main loop, raise `Closing`. */
    method Run(createWindow: bv64 -> int, frames: seq<seq<Event>>) returns (r: Outcome<WindowError>, framesRun: nat)
      modifies this
      ensures framesRun <= |frames|
      ensures r.Fail? ==> framesRun == 0 && closeRequested == old(closeRequested) && log == old(log)
      ensures r.Pass? <==> WindowFlags(initParameters).Ok? && createWindow(WindowFlags(initParameters).value) != 0
      ensures r.Pass? ==>
                && nativeHandle == createWindow(WindowFlags(initParameters).value)
                && framesRun == FramesRun(old(closeRequested), closeHandlers, frames)
                && (framesRun < |frames| ==> closeRequested)
                && log == old(log) + Raise(loaded, Loaded)
                          + MainLoopLog(closeHandlers, eventProcess, update, render, frames[..framesRun])
                          + Raise(closing, Closing)
      ensures destroyed == old(destroyed) && SubscriptionsUnchanged()
    {
      framesRun := 0;
      r := CreateWindowInternal(createWindow);
      if r.Fail? {
        return;
      }
      log := log + Raise(loaded, Loaded);
      framesRun := RunMainLoop(frames);
      log := log + Raise(closing, Closing);
    }

    /** `Dispose`: destroys the window once and zeroes the handle; a second call does nothing. */
    method Dispose()
      modifies this
      ensures nativeHandle == 0
      ensures destroyed == old(destroyed) + (if old(nativeHandle) != 0 then [old(nativeHandle)] else [])
      ensures closeRequested == old(closeRequested) && log == old(log) && SubscriptionsUnchanged()
    {
      if nativeHandle != 0 {
        destroyed := destroyed + [nativeHandle];
        nativeHandle := 0;
      }
    }
  }
}
