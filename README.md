# GLContextEGLSDL2: profile detection and context lifecycle over SDL2

This project models Dolphin's SDL2-based OpenGL context backend, `GLContextEGLSDL2`,
and proves properties of the model in Dafny.

- **Profile detection** (`DetectMode`). It sets the fixed attributes: 8-bit RGBA,
  an accelerated visual, version 3.0. It then probes for a context under the ES,
  Core and Compatibility profile masks, in that order, and always runs all three.
  It deletes every probe context it created. Finally it picks Core over
  Compatibility over ES, or falls back to Compatibility when no probe worked. The
  chosen mask is left in the attribute table and the mode in `openglMode`.
- **Context lifecycle**. `Initialize`, `MakeCurrent`, `ClearCurrent`,
  `UpdateSurface`, `Swap`, `SwapInterval`, `CreateSharedContext` and
  `DestroyContext` work on the instance fields `window` and `eglContext`, plus the
  inherited `openglMode`, `wsi`, `isShared` and `supportsSurfaceless`.

SDL2 is modelled as an abstract driver (module `Sdl`). Its state holds:

- the GL attribute table;
- the live windows and the live GL contexts;
- the single current (window, context) binding;
- a log of context-creation attempts, each with the profile mask and share flag in force;
- a log of presented swaps;
- the swap interval.

An `Env` oracle fixes what the machine can do. It says whether a window can be
opened, and under which of the three profile masks a context can be created.

Each SDL entry point is a `Call`. `Apply` gives its effect on the state. The class
`Driver` is the process-wide SDL state that every instance shares, and each of its
methods is tied to `Apply`. The SDL behaviours the model relies on are these:

- Creating a context makes it current.
- Deleting the current context leaves nothing current.
- Destroying the current window leaves nothing current.
- `SDL_GL_MakeCurrent(w, null)` always succeeds and leaves nothing current. SDL
  drops the window when the context is null.
- Binding a context needs a live window and a live context.
- `SDL_GL_SwapWindow` presents a frame only on a live window that is the current
  GL window. SDL rejects any other window.
- Deleting, destroying or swapping a handle that is not live changes no window,
  context or binding.
- A destroyed window is freed memory, so passing it to SDL again is undefined
  behaviour. The model does not try to say what SDL does then. It assumes such a
  call changes no window, context or binding, and it records the call in the
  driver's `staleUses` log. That log is how the model shows a use after free.

Files:

- `wrappers.dfy`: `Option`, which stands for a nullable pointer.
- `sdl.dfy`: the driver model and its well-formedness invariant.
- `egl_sdl2.dfy`: the backend class and the profile decision table.
- `scenarios.dfy`: concrete drivers run through the backend.

## Behaviour of the code worth knowing

- **Probe order.** The code probes ES, then Core, then Compatibility
  (`EGLSDL2.cpp:50-84`), and it never stops early. The preference is applied
  afterwards, when the profile is selected (`EGLSDL2.cpp:87-113`). So the attempt
  log always holds three attempts, and the selected profile is the most preferred
  one that worked.
- **A shared instance destroys the window too.** `DestroyContext` destroys
  `m_window` for every instance and never reads `m_is_shared`
  (`EGLSDL2.cpp:203-211`). A shared instance holds its parent's window
  (`EGLSDL2.cpp:178`), so both instances destroy the same window. Whichever goes
  second hands SDL a freed window. This is recorded under "## Findings".
- **A failed Initialize keeps its window.** When the real context cannot be
  created, the code returns false and leaves the window open in `m_window`
  (`EGLSDL2.cpp:153-158`). `DestroyContext` then returns early because the context
  is null, so the window is never destroyed. `Scenarios.NoProfileDriver` shows this.
- **IsHeadless.** It only compares `m_wsi.type` with `Headless`
  (`EGLSDL2.cpp:20`). It does not depend on whether a window or context is held,
  and `DestroyContext` leaves it unchanged.
- **Calling Initialize again.** The code has no guard against it. A second call
  opens another window and may create another context. The earlier ones stay
  live, and the model does the same.
- **Shared context before Initialize.** This is not rejected explicitly. Context
  creation fails on the null window, so the call returns null, and the share flag
  is reset (`Scenarios.SharedBeforeInitialize`).

## Model

| member | source | states |
|---|---|---|
| `Sdl.Apply` | Source/Core/Common/GL/GLInterface/EGLSDL2.cpp:185-211 | every SDL call the backend makes keeps the driver well formed. Either nothing is current, or a live context is current on a live window. A destroyed window is never live again. A handle that becomes live lies at or above the handle counter, so it was never live before. The record of destroyed windows and of calls on freed windows only grows |
| `Sdl.RunKeepsWellFormed` | Source/Core/Common/GL/GLInterface/EGLSDL2.cpp:163-211 | the same holds for any sequence of SDL calls issued by any number of instances. A context or window that is live afterwards but was not live at the start has an id at or above the starting counter, so no id is ever reused |
| `EGLSDL2.SelectProfile` | Source/Core/Common/GL/GLInterface/EGLSDL2.cpp:87-113 | the selected profile is the most preferred (Core, then Compatibility, then ES) among those whose probe succeeded, or Compatibility when none did. The mode is OpenGLES exactly for the ES mask, and OpenGL otherwise |
| `EGLSDL2.SelectionTable` | Source/Core/Common/GL/GLInterface/EGLSDL2.cpp:87-113 | the four rows of the decision table. Core gives (OpenGL, CORE). Compatibility without Core gives (OpenGL, COMPATIBILITY). ES alone gives (OpenGLES, ES). Nothing gives the fallback (OpenGL, COMPATIBILITY) |
| `EGLSDL2.EsOnlyAsLastResort` | Source/Core/Common/GL/GLInterface/EGLSDL2.cpp:87-104 | the mode is OpenGLES if and only if the ES probe succeeded and neither the Core nor the Compatibility probe did |
| `EGLSDL2.SelectionUsable` | Source/Core/Common/GL/GLInterface/EGLSDL2.cpp:105-113 | the selected profile is one whose probe succeeded exactly when at least one probe succeeded, so the fallback is the only selection the driver rejects |
| `EGLSDL2.Detected` | Source/Core/Common/GL/GLInterface/EGLSDL2.cpp:53-113 | the selection DetectMode makes on a window is the decision table applied to the three probe outcomes, where a probe works exactly when the window is live and the driver supports its mask |
| `EGLSDL2.DetectionAttributesAfterSets` | Source/Core/Common/GL/GLInterface/EGLSDL2.cpp:44-53 | setting the fixed attributes, then the three probe masks, then the selected mask, leaves the old table overridden by RGBA 8, accelerated visual 1, version 3.0 and the selected mask |
| `EGLSDL2.GLContextEGLSDL2.Probe` | Source/Core/Common/GL/GLInterface/EGLSDL2.cpp:53-84 | one probe sets the profile mask and logs one creation attempt under it. It reports success exactly when the window is live and the mask is supported. The live contexts are unchanged afterwards, and a created probe context no longer leaves anything current |
| `EGLSDL2.GLContextEGLSDL2.DetectMode` | Source/Core/Common/GL/GLInterface/EGLSDL2.cpp:39-114 | three attempts are logged on the instance's window, in the order ES, Core, Compatibility, whatever their outcomes. The live contexts and windows are the same as before. The attributes are the old table plus RGBA 8, accelerated visual 1, version 3.0 and the selected mask. `openglMode` is the selection's mode |
| `EGLSDL2.GLContextEGLSDL2.constructor` | Source/Core/Common/GL/GLInterface/EGLSDL2.h:41-42 | a new instance has a null window and a null context, mode Detect, is not shared, and shares the one SDL driver. `m_egl_context` has no initialiser in the header; it starts null because instances are made with `std::make_unique` (`EGLSDL2.cpp:174`), which value-initialises them |
| `EGLSDL2.GLContextEGLSDL2.IsHeadless` | Source/Core/Common/GL/GLInterface/EGLSDL2.cpp:18-21 | true exactly when the window-system type is Headless, whatever window or context is held: it reads only `wsi` |
| `EGLSDL2.GLContextEGLSDL2.Initialize` | Source/Core/Common/GL/GLInterface/EGLSDL2.cpp:132-161 | it succeeds exactly when a window can be opened and some profile is supported. If the window fails, the window field is null and no GL state changes. Otherwise a fresh window is live, and the attempt log gains the three probes (ES, Core, Compatibility) and then the real creation under the selected mask. A failed call leaves the binding as it was. On success a fresh context is live and current with the window. On a failed context the window stays open and no context is added |
| `EGLSDL2.GLContextEGLSDL2.CreateSharedContext` | Source/Core/Common/GL/GLInterface/EGLSDL2.cpp:163-183 | the share flag is 0 on return in every case, and one attempt is logged with the flag at 1. The result is null exactly when the driver cannot create a context on the window, and then no context is added. Otherwise the new instance is fresh and marked shared. It has the parent's mode, window and surfaceless flag, and a context id unlike any live before. The parent is unchanged |
| `EGLSDL2.GLContextEGLSDL2.MakeCurrent` | Source/Core/Common/GL/GLInterface/EGLSDL2.cpp:185-188 | it succeeds exactly when SDL can bind the pair: a null context, or a live context on a live window. On success the binding is (window, context), or nothing for a null context. On failure nothing changes except that a freed window is recorded |
| `EGLSDL2.GLContextEGLSDL2.ClearCurrent` | Source/Core/Common/GL/GLInterface/EGLSDL2.cpp:197-200 | it always succeeds and leaves nothing current, even when the window has been destroyed |
| `EGLSDL2.GLContextEGLSDL2.UpdateSurface` | Source/Core/Common/GL/GLInterface/EGLSDL2.cpp:190-195 | the render surface is recorded and the window and context fields are unchanged. The binding ends as (window, context) when that can be bound, and as nothing otherwise |
| `EGLSDL2.GLContextEGLSDL2.Swap` | Source/Core/Common/GL/GLInterface/EGLSDL2.cpp:23-27 | a live window that is the current window gets one more presented frame. Any other window changes nothing. A null window changes nothing, and a freed window is only recorded as a use after free |
| `EGLSDL2.GLContextEGLSDL2.SwapInterval` | Source/Core/Common/GL/GLInterface/EGLSDL2.cpp:29-32 | the driver's swap interval becomes the given value and nothing else changes |
| `EGLSDL2.GLContextEGLSDL2.DestroyContext` | Source/Core/Common/GL/GLInterface/EGLSDL2.cpp:203-211 | with a null context nothing changes, so a second call is a no-op. Otherwise exactly that context is deleted and the window is destroyed, even for a shared instance. A window that was already freed is recorded as a use after free. Both fields become null, the binding is cleared if it named either handle, and IsHeadless is unchanged |
| `EGLSDL2.GLContextEGLSDL2.DestroyOwnedContext` | Source/Core/Common/GL/GLInterface/EGLSDL2.cpp:203-211 | the corrected teardown. A shared instance deletes only its own context and leaves every window, and the record of freed-window calls, as it was. A non-shared instance behaves exactly as DestroyContext |
| `Scenarios.EsOnlyDriver` | Source/Core/Common/GL/GLInterface/EGLSDL2.cpp:99-104 | on a driver that supports only ES 3.0, Initialize succeeds with mode OpenGLES and the ES mask, and the instance is not headless |
| `Scenarios.NoProfileDriver` | Source/Core/Common/GL/GLInterface/EGLSDL2.cpp:105-113 | on a driver with no profile, detection falls back to OpenGL with the Compatibility mask, Initialize fails, and the window stays open even after DestroyContext |
| `Scenarios.SharedBeforeInitialize` | Source/Core/Common/GL/GLInterface/EGLSDL2.cpp:165-172 | with no window, CreateSharedContext returns null, the share flag is back at 0, and no context is live |
| `Scenarios.SharedInstanceTakesParentWindow` | Source/Core/Common/GL/GLInterface/EGLSDL2.cpp:174-211 | a shared instance has the parent's window and a different context. Destroying it destroys the parent's window but not the parent's context. After that the parent cannot be made current and its swap presents nothing. The parent's MakeCurrent, Swap and DestroyContext each pass the freed window to SDL |
| `Scenarios.ParentFirstTeardown` | Source/Core/Common/GL/GLInterface/EGLSDL2.cpp:203-211 | destroying the parent first leaves the shared context live. The shared instance's DestroyContext then destroys the already freed window, which is the only use after free, and no context is left live |
| `Scenarios.SharedFirstTeardownCorrected` | Source/Core/Common/GL/GLInterface/EGLSDL2.cpp:203-211 | with the corrected teardown, after the shared instance is gone the parent's window is open, the parent binds and presents one frame, and its own teardown leaves no window or context live and no call on a freed window |
| `Scenarios.ParentFirstTeardownCorrected` | Source/Core/Common/GL/GLInterface/EGLSDL2.cpp:203-211 | with the corrected teardown in the other order, no window or context is left live and no call is made on a freed window |
| `Scenarios.DestroyTwice` | Source/Core/Common/GL/GLInterface/EGLSDL2.cpp:205-206 | after a first DestroyContext no context is live, and a second call changes neither the driver nor the instance |
| `Scenarios.SwapIntervalLastWriteWins` | Source/Core/Common/GL/GLInterface/EGLSDL2.cpp:29-32 | setting the interval to 1 and then to 0 leaves 0 in force |

## Findings

| source | as written | input that shows it | evidently intended | confidence | as-written member | corrected member |
|---|---|---|---|---|---|---|
| Source/Core/Common/GL/GLInterface/EGLSDL2.cpp:203-211 | `DestroyContext` calls `SDL_DestroyWindow(m_window)` on a shared instance too, and a shared instance holds its parent's window | a driver with Core support: `Initialize`, `CreateSharedContext`, then `DestroyContext` on the shared instance. The parent's `MakeCurrent`, `Swap` and `DestroyContext` (or its destructor) then pass the freed window to SDL | only the instance that opened the window destroys it; a shared instance checks `m_is_shared` and deletes only its context | not executed; high | `Scenarios.SharedInstanceTakesParentWindow` | `EGLSDL2.GLContextEGLSDL2.DestroyOwnedContext` |
| Source/Core/Common/GL/GLInterface/EGLSDL2.cpp:203-211 | the same call, when the parent is destroyed before its shared instance | as above, but `DestroyContext` on the parent first, then on the shared instance: the second `SDL_DestroyWindow` gets the freed window | as above | not executed; high | `Scenarios.ParentFirstTeardown` | `EGLSDL2.GLContextEGLSDL2.DestroyOwnedContext` |

`DestroyOwnedContext` is used by `Scenarios.SharedFirstTeardownCorrected` and
`Scenarios.ParentFirstTeardownCorrected`, which prove that neither order makes a
call on a freed window. The other members model the code as written.

## Left out

- `SDL_Init` (`EGLSDL2.cpp:136-140`): a failure there is only logged, and the
  code carries on. The video subsystem is not modelled.
- `OpenSDL2Window` (`EGLSDL2.cpp:116-128`): the desktop display-mode query and
  window creation are windowing I/O. They are modelled as one oracle,
  `Env.displayAvailable`, that returns a fresh window id or null. The window's
  size, position and flags are not modelled.
- `GetFuncAddress` (`EGLSDL2.cpp:34-37`): it passes a symbol name straight to the
  driver and returns a foreign pointer, so there is nothing to model.
- The destructor (`EGLSDL2.cpp:13-16`): Dafny has no destructors. The destructor
  only calls `DestroyContext`, which is modelled. A scenario that ends with an
  explicit `DestroyContext` stands for the destructor running there.
- Calls on a freed window: what SDL does with a dangling `SDL_Window*` is undefined.
  The model assumes the driver state is left as it was and records the call in
  `staleUses`.
- Logging (`INFO_LOG`, `ERROR_LOG`): diagnostics only, with no effect on state.
- The `stereo` and `core` parameters of `Initialize`: the code does not use them.
- Thread affinity: the current binding is one global value, not one per thread.
- Context creation depends only on the window being live and on the profile mask.
  The colour sizes, the version and the share flag are recorded but do not decide
  success. The sharing of GL objects between contexts is not modelled.
- `WindowSystemInfo` keeps its type and three handles as opaque numbers.
  `GLContext` and `WindowSystemInfo` are not part of this model. Their member
  defaults (mode Detect, not shared, no surfaceless support, headless) are taken
  as plain field initialisers.
- EGLSDL2.GLContextEGLSDL2.SwapInterval: it always sets the interval. What SDL
  does when no context is current is not modelled.
