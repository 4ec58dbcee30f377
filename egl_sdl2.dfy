/**
 * The OpenGL context backend that goes through SDL2 (GLContextEGLSDL2): profile
 * detection by trial context creation, and the lifecycle of one window and one GL
 * context per instance, over the shared SDL driver of module Sdl.
 */
module EGLSDL2 {
  import opened Wrappers
  import opened Sdl

  /** GLContext::Mode: which GL flavour the instance renders with. */
  datatype Mode = Detect | OpenGL | OpenGLES

  datatype WindowSystemType = Headless | Windows | MacOS | Android | X11 | Wayland

  /** WindowSystemInfo; the handles are opaque, 0 standing for null. */
  datatype WindowSystemInfo = WindowSystemInfo(
    kind: WindowSystemType,
    displayConnection: nat,
    renderWindow: nat,
    renderSurface: nat)

  /** A default-constructed WindowSystemInfo. */
  const DefaultWsi := WindowSystemInfo(Headless, 0, 0, 0)

  /** The outcome of detection: the mode and the profile mask left in the attribute table. */
  datatype Selection = Selection(mode: Mode, profileMask: int)

  /** How much detection prefers a profile: Core over Compatibility over ES. */
  function Preference(mask: int): nat
  {
    if mask == PROFILE_CORE then 3
    else if mask == PROFILE_COMPATIBILITY then 2
    else if mask == PROFILE_ES then 1
    else 0
  }

  /** Whether the probe under `mask` succeeded, given the three probe outcomes. */
  predicate ProbeSucceeded(core: bool, compatibility: bool, es: bool, mask: int)
  {
    || (mask == PROFILE_CORE && core)
    || (mask == PROFILE_COMPATIBILITY && compatibility)
    || (mask == PROFILE_ES && es)
  }

  /**
   * The selection at the end of detection, from the outcomes of the Core,
   * Compatibility and ES probes: the most preferred profile whose probe succeeded,
   * or Compatibility when none did; ES is the only profile rendered as OpenGLES.
   */
  function SelectProfile(core: bool, compatibility: bool, es: bool): (sel: Selection)
    ensures sel.mode == (if sel.profileMask == PROFILE_ES then OpenGLES else OpenGL)
    ensures || ProbeSucceeded(core, compatibility, es, sel.profileMask)
            || (!core && !compatibility && !es && sel.profileMask == PROFILE_COMPATIBILITY)
    ensures core ==> Preference(PROFILE_CORE) <= Preference(sel.profileMask)
    ensures compatibility ==> Preference(PROFILE_COMPATIBILITY) <= Preference(sel.profileMask)
    ensures es ==> Preference(PROFILE_ES) <= Preference(sel.profileMask)
  {
    if core then Selection(OpenGL, PROFILE_CORE)
    else if compatibility then Selection(OpenGL, PROFILE_COMPATIBILITY)
    else if es then Selection(OpenGLES, PROFILE_ES)
    else Selection(OpenGL, PROFILE_COMPATIBILITY)
  }

  /** The decision table written out row by row. */
  lemma SelectionTable(core: bool, compatibility: bool, es: bool)
    ensures core ==> SelectProfile(core, compatibility, es) == Selection(OpenGL, PROFILE_CORE)
    ensures !core && compatibility ==>
              SelectProfile(core, compatibility, es) == Selection(OpenGL, PROFILE_COMPATIBILITY)
    ensures !core && !compatibility && es ==>
              SelectProfile(core, compatibility, es) == Selection(OpenGLES, PROFILE_ES)
    ensures !core && !compatibility && !es ==>
              SelectProfile(core, compatibility, es) == Selection(OpenGL, PROFILE_COMPATIBILITY)
  {
  }

  /** ES is chosen exactly when its probe alone succeeded. */
  lemma EsOnlyAsLastResort(core: bool, compatibility: bool, es: bool)
    ensures SelectProfile(core, compatibility, es).mode == OpenGLES <==> es && !core && !compatibility
  {
  }

  /** The chosen profile is one that works exactly when some probe succeeded. */
  lemma SelectionUsable(core: bool, compatibility: bool, es: bool)
    ensures ProbeSucceeded(core, compatibility, es, SelectProfile(core, compatibility, es).profileMask)
            <==> core || compatibility || es
  {
  }

  /** Whether a probe context can be created on `w` under `mask`. */
  predicate ProbeWorks(s: DriverState, w: Option<WindowId>, mask: int)
  {
    LiveWindow(s, w) && ProfileSupported(s.env, mask)
  }

  /** The selection when every probe succeeds exactly as the driver allows. */
  function Preferred(env: Env): Selection
  {
    SelectProfile(env.coreSupported, env.compatibilitySupported, env.esSupported)
  }

  /**
   * What DetectMode selects against driver state `s` and window `w`: the preferred
   * selection on a live window, and the fallback when no probe can work.
   */
  function Detected(s: DriverState, w: Option<WindowId>): (sel: Selection)
    ensures sel == SelectProfile(ProbeWorks(s, w, PROFILE_CORE), ProbeWorks(s, w, PROFILE_COMPATIBILITY),
                                 ProbeWorks(s, w, PROFILE_ES))
  {
    if LiveWindow(s, w) then Preferred(s.env) else SelectProfile(false, false, false)
  }

  /** The attributes DetectMode leaves set, with `mask` as the profile mask. */
  function DetectionAttributes(mask: int): map<GLAttr, int>
  {
    map[RedSize := 8, GreenSize := 8, BlueSize := 8, AlphaSize := 8, AcceleratedVisual := 1,
        ContextMajorVersion := 3, ContextMinorVersion := 0, ContextProfileMask := mask]
  }

  /**
   * Setting the fixed attributes, then the three probe masks and then the selected
   * mask, gives DetectionAttributes of the selected mask over the old table.
   */
  lemma DetectionAttributesAfterSets(a0: map<GLAttr, int>, p1: int, p2: int, p3: int, mask: int)
    ensures a0[RedSize := 8][GreenSize := 8][BlueSize := 8][AlphaSize := 8][AcceleratedVisual := 1]
              [ContextMajorVersion := 3][ContextMinorVersion := 0]
              [ContextProfileMask := p1][ContextProfileMask := p2][ContextProfileMask := p3]
              [ContextProfileMask := mask]
            == a0 + DetectionAttributes(mask)
  {
  }

  /** The window handle, as a set: empty for null. */
  function WindowSet(w: Option<WindowId>): set<WindowId>
  {
    if w.Some? then {w.value} else {}
  }

  /** The record the three probes leave when the window has been freed. */
  function StaleProbes(w: Option<WindowId>): seq<Call>
  {
    [Call.CreateContext(w), Call.CreateContext(w), Call.CreateContext(w)]
  }

  /** The three probes DetectMode makes, in the order it makes them. */
  function Probes(w: Option<WindowId>, share: int): seq<Attempt>
  {
    [Attempt(w, PROFILE_ES, share), Attempt(w, PROFILE_CORE, share),
     Attempt(w, PROFILE_COMPATIBILITY, share)]
  }

  class GLContextEGLSDL2 {
    /** The SDL library state, shared with every other instance. */
    const sdl: Driver

    var wsi: WindowSystemInfo
    var window: Option<WindowId>
    var eglContext: Option<ContextId>
    var openglMode: Mode
    var isShared: bool
    var supportsSurfaceless: bool

    /** A fresh instance, with the member defaults of GLContext and of this class. */
    constructor (sdl: Driver)
      ensures this.sdl == sdl && wsi == DefaultWsi
      ensures window == None && eglContext == None && openglMode == Detect
      ensures !isShared && !supportsSurfaceless
    {
      this.sdl := sdl;
      wsi := DefaultWsi;
      window := None;
      eglContext := None;
      openglMode := Detect;
      isShared := false;
      supportsSurfaceless := false;
    }

    /**
     * Reads the window-system type only, not whether a window or context is held: the
     * `reads` frame, which names `wsi` alone, is what states that.
     */
    function IsHeadless(): (headless: bool)
      reads this`wsi
      ensures headless <==> wsi.kind == Headless
    {
      wsi.kind == Headless
    }

    /** Presents the back buffer of the window, if the instance has one. */
    method Swap()
      requires sdl.Valid()
      modifies sdl
      ensures sdl.Valid()
      ensures sdl.state == if LiveWindow(old(sdl.state), window) && old(sdl.state.current.window) == window
                           then old(sdl.state).(presented := old(sdl.state).presented + [window.value])
                           else Touch(old(sdl.state), window, Call.SwapWindow(window))
    {
      if window != None {
        sdl.SwapWindow(window);
      }
    }

    /** Sets the present interval; the last value set is the one in force. */
    method SwapInterval(interval: int)
      requires sdl.Valid()
      modifies sdl
      ensures sdl.Valid() && sdl.state == old(sdl.state).(swapInterval := interval)
    {
      sdl.SetSwapInterval(interval);
    }

    /**
     * One probe of DetectMode: sets the profile mask, tries a context on the window
     * and deletes it again if it was created.
     */
    method Probe(mask: int) returns (supported: bool)
      requires sdl.Valid()
      modifies sdl
      ensures sdl.Valid()
      ensures supported == ProbeWorks(old(sdl.state), window, mask)
      ensures sdl.state == old(sdl.state).(
                attrs := old(sdl.state.attrs)[ContextProfileMask := mask],
                attempts := old(sdl.state.attempts)
                            + [Attempt(window, mask, Attr(old(sdl.state.attrs), ShareWithCurrentContext))],
                current := if supported then NoBinding else old(sdl.state.current),
                nextHandle := sdl.state.nextHandle,
                staleUses := Touch(old(sdl.state), window, Call.CreateContext(window)).staleUses)
    {
      sdl.SetAttribute(ContextProfileMask, mask);
      var probeContext := sdl.CreateContext(window);
      supported := probeContext != None;
      if supported {
        sdl.DeleteContext(probeContext.value);
      }
    }

    /** Probes ES, Core and Compatibility in turn, deletes each probe context, and selects. */
    method DetectMode()
      requires sdl.Valid()
      modifies this`openglMode, sdl
      ensures sdl.Valid()
      ensures openglMode == Detected(old(sdl.state), window).mode
      ensures sdl.state.attrs == old(sdl.state.attrs) + DetectionAttributes(Detected(old(sdl.state), window).profileMask)
      ensures sdl.state.attempts
              == old(sdl.state.attempts) + Probes(window, Attr(old(sdl.state.attrs), ShareWithCurrentContext))
      ensures sdl.state.contexts == old(sdl.state.contexts)
      ensures sdl.state.current == if LiveWindow(old(sdl.state), window) && AnyProfileSupported(old(sdl.state).env)
                                   then NoBinding else old(sdl.state.current)
      ensures sdl.state.staleUses == old(sdl.state.staleUses)
                                     + if Freed(old(sdl.state), window) then StaleProbes(window) else []
      ensures sdl.state == old(sdl.state).(attrs := sdl.state.attrs, attempts := sdl.state.attempts,
                                           current := sdl.state.current, nextHandle := sdl.state.nextHandle,
                                           staleUses := sdl.state.staleUses)
    {
      ghost var a0 := sdl.state.attrs;
      var supportsGLCore, supportsGLCompatibility, supportsGLES3 := false, false, false;

      sdl.SetAttribute(RedSize, 8);
      sdl.SetAttribute(GreenSize, 8);
      sdl.SetAttribute(BlueSize, 8);
      sdl.SetAttribute(AlphaSize, 8);
      sdl.SetAttribute(AcceleratedVisual, 1);

      sdl.SetAttribute(ContextMajorVersion, 3);
      sdl.SetAttribute(ContextMinorVersion, 0);
      supportsGLES3 := Probe(PROFILE_ES);
      supportsGLCore := Probe(PROFILE_CORE);
      supportsGLCompatibility := Probe(PROFILE_COMPATIBILITY);
      assert sdl.state.attempts == old(sdl.state.attempts) + Probes(window, Attr(old(sdl.state.attrs), ShareWithCurrentContext));

      if supportsGLCore {
        openglMode := OpenGL;
        sdl.SetAttribute(ContextProfileMask, PROFILE_CORE);
      } else if supportsGLCompatibility {
        openglMode := OpenGL;
        sdl.SetAttribute(ContextProfileMask, PROFILE_COMPATIBILITY);
      } else if supportsGLES3 {
        openglMode := OpenGLES;
        sdl.SetAttribute(ContextProfileMask, PROFILE_ES);
      } else {
        openglMode := OpenGL;
        sdl.SetAttribute(ContextProfileMask, PROFILE_COMPATIBILITY);
      }
      DetectionAttributesAfterSets(a0, PROFILE_ES, PROFILE_CORE, PROFILE_COMPATIBILITY,
                                   Detected(old(sdl.state), window).profileMask);
    }
  
    /**
     * Opens the window, detects the profile, creates the real context and makes it
     * current. A failed window leaves the window null and touches no GL state; a failed
     * real context leaves the window open.
     */
    method Initialize(wsi: WindowSystemInfo) returns (ok: bool)
      requires sdl.Valid()
      modifies this, sdl
      ensures sdl.Valid()
      ensures this.wsi == wsi && isShared == old(isShared) && supportsSurfaceless == old(supportsSurfaceless)
      ensures sdl.state.env == old(sdl.state.env) && sdl.state.presented == old(sdl.state.presented)
      ensures sdl.state.swapInterval == old(sdl.state.swapInterval)
      ensures sdl.state.destroyed == old(sdl.state.destroyed) && sdl.state.staleUses == old(sdl.state.staleUses)
      ensures ok <==> old(sdl.state).env.displayAvailable && AnyProfileSupported(old(sdl.state).env)
      ensures !old(sdl.state).env.displayAvailable ==>
                && window == None && eglContext == old(eglContext) && openglMode == old(openglMode)
                && sdl.state == old(sdl.state)
      ensures old(sdl.state).env.displayAvailable ==>
                && window.Some? && window.value !in old(sdl.state.windows)
                && sdl.state.windows == old(sdl.state.windows) + {window.value}
                && openglMode == Preferred(old(sdl.state).env).mode
                && sdl.state.attrs == old(sdl.state.attrs) + DetectionAttributes(Preferred(old(sdl.state).env).profileMask)
                && (ok <==> eglContext.Some?)
                && (!ok ==> sdl.state.contexts == old(sdl.state.contexts))
      ensures old(sdl.state).env.displayAvailable ==>
                sdl.state.attempts
                == old(sdl.state.attempts) + Probes(window, Attr(old(sdl.state.attrs), ShareWithCurrentContext))
                   + [Attempt(window, Preferred(old(sdl.state).env).profileMask,
                              Attr(old(sdl.state.attrs), ShareWithCurrentContext))]
      ensures !ok ==> sdl.state.current == old(sdl.state.current)
      ensures ok ==>
                && eglContext.value !in old(sdl.state.contexts)
                && sdl.state.contexts == old(sdl.state.contexts) + {eglContext.value}
                && sdl.state.current == Binding(window, eglContext)
    {
      this.wsi := wsi;

      window := sdl.CreateWindow();
      if window == None {
        return false;
      }

      DetectMode();
      SelectionUsable(sdl.state.env.coreSupported, sdl.state.env.compatibilitySupported,
                      sdl.state.env.esSupported);

      eglContext := sdl.CreateContext(window);
      if eglContext == None {
        return false;
      }

      ok := MakeCurrent();
    }

    /**
     * A second context on the same window, created with the share flag set so that it
     * shares objects with the current context; the flag is cleared again either way.
     */
    method CreateSharedContext() returns (shared: GLContextEGLSDL2?)
      requires sdl.Valid()
      modifies sdl
      ensures sdl.Valid() && unchanged(this)
      ensures Attr(sdl.state.attrs, ShareWithCurrentContext) == 0
      ensures sdl.state.attrs == old(sdl.state.attrs)[ShareWithCurrentContext := 0]
      ensures sdl.state.attempts
              == old(sdl.state.attempts) + [Attempt(window, Attr(old(sdl.state.attrs), ContextProfileMask), 1)]
      ensures shared == null <==> !CanCreateContext(old(sdl.state), window)
      ensures sdl.state == old(sdl.state).(attrs := sdl.state.attrs, attempts := sdl.state.attempts,
                                           contexts := sdl.state.contexts, current := sdl.state.current,
                                           nextHandle := sdl.state.nextHandle,
                                           staleUses := Touch(old(sdl.state), window,
                                                              Call.CreateContext(window)).staleUses)
      ensures shared == null ==>
                sdl.state.contexts == old(sdl.state.contexts) && sdl.state.current == old(sdl.state.current)
      ensures shared != null ==>
                && fresh(shared) && shared.sdl == sdl
                && shared.openglMode == openglMode && shared.window == window
                && shared.supportsSurfaceless == supportsSurfaceless && shared.isShared
                && shared.wsi == DefaultWsi.(displayConnection := wsi.displayConnection)
                && shared.eglContext.Some? && shared.eglContext.value !in old(sdl.state.contexts)
                && sdl.state.contexts == old(sdl.state.contexts) + {shared.eglContext.value}
                && sdl.state.current == Binding(window, shared.eglContext)
    {
      sdl.SetAttribute(ShareWithCurrentContext, 1);
      var newEglContext := sdl.CreateContext(window);
      sdl.SetAttribute(ShareWithCurrentContext, 0);
      if newEglContext == None {
        return null;
      }

      var newContext := new GLContextEGLSDL2(sdl);
      newContext.openglMode := openglMode;
      newContext.eglContext := newEglContext;
      newContext.wsi := newContext.wsi.(displayConnection := wsi.displayConnection);
      newContext.window := window;
      newContext.supportsSurfaceless := supportsSurfaceless;
      newContext.isShared := true;

      return newContext;
    }

    /** Binds this instance's window and context; succeeds as SDL_GL_MakeCurrent does. */
    method MakeCurrent() returns (ok: bool)
      requires sdl.Valid()
      modifies sdl
      ensures sdl.Valid()
      ensures ok == CanMakeCurrent(old(sdl.state), window, eglContext)
      ensures sdl.state == if ok then old(sdl.state).(current := Bound(window, eglContext))
                           else Touch(old(sdl.state), window, Call.MakeCurrent(window, eglContext))
    {
      var status := sdl.MakeCurrent(window, eglContext);
      ok := status == 0;
    }

    /** Binds no context; SDL then leaves nothing current, even when the window is gone. */
    method ClearCurrent() returns (ok: bool)
      requires sdl.Valid()
      modifies sdl
      ensures sdl.Valid()
      ensures ok && sdl.state == old(sdl.state).(current := NoBinding)
    {
      var status := sdl.MakeCurrent(window, None);
      ok := status == 0;
    }

    /** Records the new render surface and rebinds, keeping the same context. */
    method UpdateSurface(windowHandle: nat)
      requires sdl.Valid()
      modifies this`wsi, sdl
      ensures sdl.Valid()
      ensures wsi == old(wsi).(renderSurface := windowHandle)
      ensures sdl.state == if CanMakeCurrent(old(sdl.state), window, eglContext)
                           then old(sdl.state).(current := Bound(window, eglContext))
                           else Touch(old(sdl.state).(current := NoBinding), window,
                                      Call.MakeCurrent(window, eglContext))
    {
      wsi := wsi.(renderSurface := windowHandle);
      var cleared := ClearCurrent();
      var bound := MakeCurrent();
    }

    /**
     * Deletes the context and destroys the window, whether or not this instance is
     * shared; does nothing once the context is null, so a second call is a no-op.
     * A shared instance holds its parent's window, so whichever of the two is
     * destroyed second hands SDL a window it has already freed.
     */
    method DestroyContext()
      requires sdl.Valid()
      modifies this`eglContext, this`window, sdl
      ensures sdl.Valid()
      ensures eglContext == None && IsHeadless() == old(IsHeadless())
      ensures old(eglContext).None? ==> window == old(window) && sdl.state == old(sdl.state)
      ensures old(eglContext).Some? ==>
                && window == None
                && sdl.state == old(sdl.state).(
                     contexts := old(sdl.state.contexts) - {old(eglContext).value},
                     windows := old(sdl.state.windows) - WindowSet(old(window)),
                     destroyed := old(sdl.state.destroyed) + (old(sdl.state.windows) * WindowSet(old(window))),
                     current := if || old(sdl.state.current.context) == old(eglContext)
                                   || (LiveWindow(old(sdl.state), old(window))
                                       && old(sdl.state.current.window) == old(window))
                                then NoBinding else old(sdl.state.current),
                     staleUses := Touch(old(sdl.state), old(window), Call.DestroyWindow(old(window))).staleUses)
    {
      if eglContext == None {
        return;
      }
      sdl.DeleteContext(eglContext.value);
      eglContext := None;
      sdl.DestroyWindow(window);
      window := None;
    }

    /**
     * DestroyContext as it is evidently meant: only the instance that opened the window
     * destroys it, so a shared instance deletes its own context and leaves the window
     * to its parent.
     */
    method DestroyOwnedContext()
      requires sdl.Valid()
      modifies this`eglContext, this`window, sdl
      ensures sdl.Valid()
      ensures eglContext == None && IsHeadless() == old(IsHeadless())
      ensures old(eglContext).None? ==> window == old(window) && sdl.state == old(sdl.state)
      ensures old(eglContext).Some? && isShared ==>
                && window == None
                && sdl.state == old(sdl.state).(
                     contexts := old(sdl.state.contexts) - {old(eglContext).value},
                     current := if old(sdl.state.current.context) == old(eglContext) then NoBinding
                                else old(sdl.state.current))
      ensures old(eglContext).Some? && !isShared ==>
                && window == None
                && sdl.state == old(sdl.state).(
                     contexts := old(sdl.state.contexts) - {old(eglContext).value},
                     windows := old(sdl.state.windows) - WindowSet(old(window)),
                     destroyed := old(sdl.state.destroyed) + (old(sdl.state.windows) * WindowSet(old(window))),
                     current := if || old(sdl.state.current.context) == old(eglContext)
                                   || (LiveWindow(old(sdl.state), old(window))
                                       && old(sdl.state.current.window) == old(window))
                                then NoBinding else old(sdl.state.current),
                     staleUses := Touch(old(sdl.state), old(window), Call.DestroyWindow(old(window))).staleUses)
    {
      if eglContext == None {
        return;
      }
      sdl.DeleteContext(eglContext.value);
      eglContext := None;
      if !isShared {
        sdl.DestroyWindow(window);
      }
      window := None;
    }
  }
}
