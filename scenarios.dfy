/**
 * Concrete drivers run through the backend: what an instance ends with when the
 * driver supports only ES, supports nothing, or supports everything and a shared
 * context is spawned and torn down in either order, as written and as corrected.
 */
module Scenarios {
  import opened Wrappers
  import opened Sdl
  import opened EGLSDL2

  const Desktop := WindowSystemInfo(X11, 1, 2, 0)

  /** Only OpenGL ES 3.0 works: initialisation succeeds in ES mode and is not headless. */
  method EsOnlyDriver() returns (ok: bool, mode: Mode, mask: int, headless: bool)
    ensures ok && mode == OpenGLES && mask == PROFILE_ES && !headless
  {
    var sdl := new Driver(Env(true, false, false, true));
    var gl := new GLContextEGLSDL2(sdl);
    ok := gl.Initialize(Desktop);
    mode := gl.openglMode;
    mask := Attr(sdl.state.attrs, ContextProfileMask);
    headless := gl.IsHeadless();
  }

  /**
   * No profile works: detection falls back to Compatibility, the real context fails,
   * and the window opened for it stays open, even after DestroyContext.
   */
  method NoProfileDriver() returns (ok: bool, mode: Mode, mask: int, windowStillOpen: bool)
    ensures !ok && mode == OpenGL && mask == PROFILE_COMPATIBILITY && windowStillOpen
  {
    var sdl := new Driver(Env(true, false, false, false));
    var gl := new GLContextEGLSDL2(sdl);
    ok := gl.Initialize(Desktop);
    mode := gl.openglMode;
    mask := Attr(sdl.state.attrs, ContextProfileMask);
    var w := gl.window;
    gl.DestroyContext();
    windowStillOpen := LiveWindow(sdl.state, w);
  }

  /** Without a window the shared-context call fails, and the share flag is 0 again. */
  method SharedBeforeInitialize() returns (created: bool, share: int, liveContexts: set<ContextId>)
    ensures !created && share == 0 && liveContexts == {}
  {
    var sdl := new Driver(Env(true, true, true, true));
    var gl := new GLContextEGLSDL2(sdl);
    var shared := gl.CreateSharedContext();
    created := shared != null;
    share := Attr(sdl.state.attrs, ShareWithCurrentContext);
    liveContexts := sdl.state.contexts;
  }

  /**
   * A shared instance renders into the parent's window with a context of its own.
   * Destroying the shared instance first also destroys that window: the parent can no
   * longer be made current, its swap presents nothing, and its MakeCurrent, Swap and
   * own DestroyContext each hand SDL the freed window.
   */
  method SharedInstanceTakesParentWindow()
    returns (sameWindow: bool, distinctContexts: bool, parentWindowOpen: bool,
             parentContextLive: bool, parentBinds: bool, parentPresented: nat,
             window: Option<WindowId>, parentContext: Option<ContextId>, staleCalls: seq<Call>)
    ensures sameWindow && distinctContexts && !parentWindowOpen && parentContextLive
    ensures !parentBinds && parentPresented == 0
    ensures staleCalls == [Call.MakeCurrent(window, parentContext), Call.SwapWindow(window),
                           Call.DestroyWindow(window)]
  {
    var sdl := new Driver(Env(true, true, true, true));
    var gl := new GLContextEGLSDL2(sdl);
    var ok := gl.Initialize(Desktop);
    assert ok && Attr(sdl.state.attrs, ContextProfileMask) == PROFILE_CORE;
    var shared := gl.CreateSharedContext();
    assert shared != null;
    sameWindow := shared.window == gl.window;
    distinctContexts := shared.eglContext != gl.eglContext;
    window, parentContext := gl.window, gl.eglContext;
    shared.DestroyContext();
    parentWindowOpen := LiveWindow(sdl.state, gl.window);
    parentContextLive := gl.eglContext.Some? && gl.eglContext.value in sdl.state.contexts;
    parentBinds := gl.MakeCurrent();
    gl.Swap();
    parentPresented := |sdl.state.presented|;
    gl.DestroyContext();
    staleCalls := sdl.state.staleUses;
  }

  /**
   * Destroying the parent first destroys the window the shared instance still holds;
   * the shared instance's DestroyContext then hands SDL that freed window.
   */
  method ParentFirstTeardown()
    returns (window: Option<WindowId>, sharedContextLive: bool, staleCalls: seq<Call>,
             liveContexts: set<ContextId>)
    ensures sharedContextLive && liveContexts == {}
    ensures staleCalls == [Call.DestroyWindow(window)]
  {
    var sdl := new Driver(Env(true, true, true, true));
    var gl := new GLContextEGLSDL2(sdl);
    var ok := gl.Initialize(Desktop);
    assert ok && Attr(sdl.state.attrs, ContextProfileMask) == PROFILE_CORE;
    var shared := gl.CreateSharedContext();
    assert shared != null;
    window := gl.window;
    gl.DestroyContext();
    sharedContextLive := shared.eglContext.Some? && shared.eglContext.value in sdl.state.contexts;
    shared.DestroyContext();
    staleCalls := sdl.state.staleUses;
    liveContexts := sdl.state.contexts;
  }

  /**
   * With the corrected teardown, destroying the shared instance first leaves the
   * parent's window open: the parent still binds and presents, and its own teardown
   * destroys the window once, with no call on a freed window.
   */
  method SharedFirstTeardownCorrected()
    returns (parentWindowOpen: bool, parentBinds: bool, parentPresented: nat,
             liveWindows: set<WindowId>, liveContexts: set<ContextId>, staleCalls: seq<Call>)
    ensures parentWindowOpen && parentBinds && parentPresented == 1
    ensures liveWindows == {} && liveContexts == {} && staleCalls == []
  {
    var sdl := new Driver(Env(true, true, true, true));
    var gl := new GLContextEGLSDL2(sdl);
    var ok := gl.Initialize(Desktop);
    assert ok && Attr(sdl.state.attrs, ContextProfileMask) == PROFILE_CORE;
    var shared := gl.CreateSharedContext();
    assert shared != null;
    shared.DestroyOwnedContext();
    parentWindowOpen := LiveWindow(sdl.state, gl.window);
    parentBinds := gl.MakeCurrent();
    gl.Swap();
    parentPresented := |sdl.state.presented|;
    gl.DestroyOwnedContext();
    liveWindows, liveContexts, staleCalls := sdl.state.windows, sdl.state.contexts, sdl.state.staleUses;
  }

  /**
   * With the corrected teardown, destroying the parent first destroys the window once;
   * the shared instance then deletes only its context.
   */
  method ParentFirstTeardownCorrected()
    returns (liveWindows: set<WindowId>, liveContexts: set<ContextId>, staleCalls: seq<Call>)
    ensures liveWindows == {} && liveContexts == {} && staleCalls == []
  {
    var sdl := new Driver(Env(true, true, true, true));
    var gl := new GLContextEGLSDL2(sdl);
    var ok := gl.Initialize(Desktop);
    assert ok && Attr(sdl.state.attrs, ContextProfileMask) == PROFILE_CORE;
    var shared := gl.CreateSharedContext();
    assert shared != null;
    gl.DestroyOwnedContext();
    shared.DestroyOwnedContext();
    liveWindows, liveContexts, staleCalls := sdl.state.windows, sdl.state.contexts, sdl.state.staleUses;
  }

  /** Destroying twice: the second call leaves the driver and the instance as they were. */
  method DestroyTwice() returns (contextsAfterFirst: set<ContextId>, sameAfterSecond: bool)
    ensures contextsAfterFirst == {} && sameAfterSecond
  {
    var sdl := new Driver(Env(true, true, false, false));
    var gl := new GLContextEGLSDL2(sdl);
    var ok := gl.Initialize(Desktop);
    gl.DestroyContext();
    contextsAfterFirst := sdl.state.contexts;
    var before := sdl.state;
    gl.DestroyContext();
    sameAfterSecond := sdl.state == before && gl.eglContext == None && gl.window == None;
  }

  /** Setting the interval to 1 and then 0 leaves 0 in force. */
  method SwapIntervalLastWriteWins() returns (interval: int)
    ensures interval == 0
  {
    var sdl := new Driver(Env(true, true, true, true));
    var gl := new GLContextEGLSDL2(sdl);
    var ok := gl.Initialize(Desktop);
    gl.SwapInterval(1);
    gl.SwapInterval(0);
    interval := sdl.state.swapInterval;
  }
}
