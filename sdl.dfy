/**
 * An abstract model of the part of SDL2 that the EGL/SDL2 OpenGL backend drives:
 * the process-wide GL attribute table, the live windows and GL contexts, the single
 * current (window, context) binding, and the logs of context-creation attempts and
 * buffer swaps. What the real driver and display can do is fixed by an `Env` oracle.
 *
 * Every SDL entry point is a `Call`; `Apply` is its effect on the driver state and
 * `Run` the effect of a sequence of calls. The class `Driver` is the mutable global
 * that the GL context instances share.
 *
 * A window SDL has destroyed is freed memory: handing it to SDL again is undefined
 * behaviour. The model leaves the driver as it is on such a call and records the call
 * in `staleUses`, so that a use after free shows up in the state.
 */
module Sdl {
  import opened Wrappers

  type WindowId = nat
  type ContextId = nat

  /** The SDL_GLattr names this backend sets. */
  datatype GLAttr =
    | RedSize | GreenSize | BlueSize | AlphaSize
    | AcceleratedVisual
    | ContextMajorVersion | ContextMinorVersion
    | ContextProfileMask
    | ShareWithCurrentContext

  /** SDL_GLprofile values for SDL_GL_CONTEXT_PROFILE_MASK. */
  const PROFILE_CORE: int := 0x0001
  const PROFILE_COMPATIBILITY: int := 0x0002
  const PROFILE_ES: int := 0x0004

  /**
   * The environment: whether a window can be opened on the desktop display, and under
   * which profile masks the GL driver can create a context.
   */
  datatype Env = Env(
    displayAvailable: bool,
    coreSupported: bool,
    compatibilitySupported: bool,
    esSupported: bool)

  predicate ProfileSupported(env: Env, mask: int)
  {
    if mask == PROFILE_CORE then env.coreSupported
    else if mask == PROFILE_COMPATIBILITY then env.compatibilitySupported
    else if mask == PROFILE_ES then env.esSupported
    else false
  }

  predicate AnyProfileSupported(env: Env)
  {
    env.coreSupported || env.compatibilitySupported || env.esSupported
  }

  /** The value of an attribute; one never set reads as SDL's default of 0. */
  function Attr(attrs: map<GLAttr, int>, a: GLAttr): int
  {
    if a in attrs then attrs[a] else 0
  }

  /** The window and context current on the (single modelled) thread. */
  datatype Binding = Binding(window: Option<WindowId>, context: Option<ContextId>)

  const NoBinding := Binding(None, None)

  /** One SDL_GL_CreateContext call, with the profile mask and share flag in force. */
  datatype Attempt = Attempt(window: Option<WindowId>, profileMask: int, share: int)

  datatype DriverState = DriverState(
    env: Env,
    attrs: map<GLAttr, int>,
    windows: set<WindowId>,
    contexts: set<ContextId>,
    current: Binding,
    nextHandle: nat,
    attempts: seq<Attempt>,
    presented: seq<WindowId>,
    swapInterval: int,
    destroyed: set<WindowId>,
    staleUses: seq<Call>)

  predicate LiveWindow(s: DriverState, w: Option<WindowId>)
  {
    w.Some? && w.value in s.windows
  }

  /** A window SDL has already destroyed: the handle is a dangling pointer. */
  predicate Freed(s: DriverState, w: Option<WindowId>)
  {
    w.Some? && w.value in s.destroyed
  }

  /**
   * Handles are drawn from one counter, so every live or freed handle lies below it; a
   * freed window is never live again; and either nothing is current or a live context
   * is current on a live window.
   */
  predicate WellFormed(s: DriverState)
  {
    && (forall w :: w in s.windows ==> w < s.nextHandle)
    && (forall c :: c in s.contexts ==> c < s.nextHandle)
    && (forall w :: w in s.destroyed ==> w < s.nextHandle)
    && s.windows !! s.destroyed
    && (|| s.current == NoBinding
        || (LiveWindow(s, s.current.window)
            && s.current.context.Some? && s.current.context.value in s.contexts))
  }

  /** The driver right after start-up: nothing open, nothing current, no attribute set. */
  function Boot(env: Env): (s: DriverState)
    ensures WellFormed(s) && s.env == env
    ensures s.windows == {} && s.contexts == {} && s.current == NoBinding
  {
    DriverState(env, map[], {}, {}, NoBinding, 0, [], [], 0, {}, [])
  }

  /** SDL_GL_CreateContext succeeds on a live window under a supported profile mask. */
  predicate CanCreateContext(s: DriverState, w: Option<WindowId>)
  {
    LiveWindow(s, w) && ProfileSupported(s.env, Attr(s.attrs, ContextProfileMask))
  }

  /**
   * SDL_GL_MakeCurrent(w, null) always succeeds, whatever `w` is; a context needs a
   * live window.
   */
  predicate CanMakeCurrent(s: DriverState, w: Option<WindowId>, c: Option<ContextId>)
  {
    c.None? || (LiveWindow(s, w) && c.value in s.contexts)
  }

  datatype Call =
    | SetAttribute(attr: GLAttr, value: int)
    | CreateContext(window: Option<WindowId>)
    | DeleteContext(deleted: ContextId)
    | CreateWindow
    | DestroyWindow(window: Option<WindowId>)
    | MakeCurrent(window: Option<WindowId>, context: Option<ContextId>)
    | SwapWindow(window: Option<WindowId>)
    | SetSwapInterval(interval: int)

  /** What SDL_GL_CreateContext returns. */
  function NewContext(s: DriverState, w: Option<WindowId>): Option<ContextId>
  {
    if CanCreateContext(s, w) then Some(s.nextHandle) else None
  }

  /** What opening the desktop-sized window returns. */
  function NewWindow(s: DriverState): Option<WindowId>
  {
    if s.env.displayAvailable then Some(s.nextHandle) else None
  }

  /**
   * The binding SDL_GL_MakeCurrent leaves when it succeeds: SDL drops the window when
   * the context is null, so that nothing is current.
   */
  function Bound(w: Option<WindowId>, c: Option<ContextId>): (b: Binding)
    ensures b.context == c
    ensures b.window == if c.None? then None else w
  {
    if c.None? then NoBinding else Binding(w, c)
  }

  /** A call that hands SDL the window `w` is recorded when `w` is a dangling pointer. */
  function Touch(s: DriverState, w: Option<WindowId>, call: Call): DriverState
  {
    if Freed(s, w) then s.(staleUses := s.staleUses + [call]) else s
  }

  /** What SDL_GL_MakeCurrent returns: 0 on success, negative on failure. */
  function MakeCurrentStatus(s: DriverState, w: Option<WindowId>, c: Option<ContextId>): int
  {
    if CanMakeCurrent(s, w, c) then 0 else -1
  }

  /**
   * The effect of one call. A created context becomes current; deleting the current
   * context, or destroying the current window, leaves nothing current; deleting,
   * destroying or swapping a handle that is not live changes nothing but the record of
   * calls on freed windows; only the current window can be swapped.
   */
  function Apply(s: DriverState, call: Call): (r: DriverState)
    ensures r.env == s.env && r.nextHandle >= s.nextHandle
    ensures s.destroyed <= r.destroyed && s.staleUses <= r.staleUses
    ensures WellFormed(s) ==> WellFormed(r)
    ensures forall c :: c in r.contexts && c !in s.contexts ==> c >= s.nextHandle
    ensures forall w :: w in r.windows && w !in s.windows ==> w >= s.nextHandle
  {
    match call
    case SetAttribute(a, v) =>
      s.(attrs := s.attrs[a := v])
    case CreateContext(w) =>
      var logged := Touch(s, w, call).(attempts := s.attempts + [Attempt(w, Attr(s.attrs, ContextProfileMask),
                                                          Attr(s.attrs, ShareWithCurrentContext))]);
      if CanCreateContext(s, w) then
        logged.(contexts := s.contexts + {s.nextHandle}, nextHandle := s.nextHandle + 1,
                current := Binding(w, Some(s.nextHandle)))
      else
        logged
    case DeleteContext(c) =>
      s.(contexts := s.contexts - {c},
         current := if s.current.context == Some(c) then NoBinding else s.current)
    case CreateWindow =>
      if s.env.displayAvailable then
        s.(windows := s.windows + {s.nextHandle}, nextHandle := s.nextHandle + 1)
      else
        s
    case DestroyWindow(w) =>
      if LiveWindow(s, w) then
        s.(windows := s.windows - {w.value}, destroyed := s.destroyed + {w.value},
           current := if s.current.window == w then NoBinding else s.current)
      else
        Touch(s, w, call)
    case MakeCurrent(w, c) =>
      if CanMakeCurrent(s, w, c) then s.(current := Bound(w, c)) else Touch(s, w, call)
    case SwapWindow(w) =>
      if LiveWindow(s, w) && s.current.window == w then s.(presented := s.presented + [w.value])
      else Touch(s, w, call)
    case SetSwapInterval(n) =>
      s.(swapInterval := n)
  }

  /** The effect of a sequence of calls, issued in order by any number of instances. */
  function Run(s: DriverState, calls: seq<Call>): DriverState
    decreases |calls|
  {
    if calls == [] then s else Run(Apply(s, calls[0]), calls[1..])
  }

  /**
   * Whatever the instances do, the binding never names a deleted context or a destroyed
   * window, a destroyed window stays destroyed, and a handle that becomes live was never
   * live before: a deleted context's id is not handed out again.
   */
  lemma {:induction false} RunKeepsWellFormed(s: DriverState, calls: seq<Call>)
    requires WellFormed(s)
    ensures WellFormed(Run(s, calls))
    ensures Run(s, calls).env == s.env && Run(s, calls).nextHandle >= s.nextHandle
    ensures s.destroyed <= Run(s, calls).destroyed && s.staleUses <= Run(s, calls).staleUses
    ensures forall c :: c in Run(s, calls).contexts && c !in s.contexts ==> c >= s.nextHandle
    ensures forall w :: w in Run(s, calls).windows && w !in s.windows ==> w >= s.nextHandle
    decreases |calls|
  {
    if calls != [] {
      RunKeepsWellFormed(Apply(s, calls[0]), calls[1..]);
    }
  }

  /** The SDL library state shared by every GL context of the process. */
  class Driver {
    var state: DriverState

    predicate Valid()
      reads this
    {
      WellFormed(state)
    }

    constructor (env: Env)
      ensures Valid() && state == Boot(env)
    {
      state := Boot(env);
    }

    /** SDL_GL_SetAttribute. */
    method SetAttribute(a: GLAttr, v: int)
      requires Valid()
      modifies this
      ensures Valid() && state == Apply(old(state), Call.SetAttribute(a, v))
      ensures state == old(state).(attrs := old(state.attrs)[a := v])
    {
      state := Apply(state, Call.SetAttribute(a, v));
    }

    /** SDL_GL_CreateContext: a fresh context under the current attributes, or null. */
    method CreateContext(w: Option<WindowId>) returns (c: Option<ContextId>)
      requires Valid()
      modifies this
      ensures Valid() && state == Apply(old(state), Call.CreateContext(w))
      ensures c == NewContext(old(state), w)
      ensures c.Some? ==> c.value !in old(state.contexts) && state.contexts == old(state.contexts) + {c.value}
      ensures c.None? ==> state.contexts == old(state.contexts)
    {
      c := NewContext(state, w);
      state := Apply(state, Call.CreateContext(w));
    }

    /** SDL_GL_DeleteContext. */
    method DeleteContext(c: ContextId)
      requires Valid()
      modifies this
      ensures Valid() && state == Apply(old(state), Call.DeleteContext(c))
      ensures state == old(state).(contexts := old(state.contexts) - {c},
                                   current := if old(state.current.context) == Some(c) then NoBinding
                                              else old(state.current))
    {
      state := Apply(state, Call.DeleteContext(c));
    }

    /** Opening the desktop-sized window: a fresh window, or null when the display fails. */
    method CreateWindow() returns (w: Option<WindowId>)
      requires Valid()
      modifies this
      ensures Valid() && state == Apply(old(state), Call.CreateWindow)
      ensures w == NewWindow(old(state))
      ensures w.Some? ==> w.value !in old(state.windows) && state.windows == old(state.windows) + {w.value}
    {
      w := NewWindow(state);
      state := Apply(state, Call.CreateWindow);
    }

    /** SDL_DestroyWindow. */
    method DestroyWindow(w: Option<WindowId>)
      requires Valid()
      modifies this
      ensures Valid() && state == Apply(old(state), Call.DestroyWindow(w))
    {
      state := Apply(state, Call.DestroyWindow(w));
    }

    /** SDL_GL_MakeCurrent. */
    method MakeCurrent(w: Option<WindowId>, c: Option<ContextId>) returns (status: int)
      requires Valid()
      modifies this
      ensures Valid() && state == Apply(old(state), Call.MakeCurrent(w, c))
      ensures status == MakeCurrentStatus(old(state), w, c)
    {
      status := MakeCurrentStatus(state, w, c);
      state := Apply(state, Call.MakeCurrent(w, c));
    }

    /** SDL_GL_SwapWindow. */
    method SwapWindow(w: Option<WindowId>)
      requires Valid()
      modifies this
      ensures Valid() && state == Apply(old(state), Call.SwapWindow(w))
    {
      state := Apply(state, Call.SwapWindow(w));
    }

    /** SDL_GL_SetSwapInterval. */
    method SetSwapInterval(n: int)
      requires Valid()
      modifies this
      ensures Valid() && state == Apply(old(state), Call.SetSwapInterval(n))
    {
      state := Apply(state, Call.SetSwapInterval(n));
    }
  }
}
