# Quranium site: scene coordination, theme and scroll state, in Dafny

This project models the stateful logic of the Quranium marketing site. All of it
runs on one UI thread and is modelled as immediate, sequential state updates:

- **Scene coordinator** (`SplineContext`, `SplineScene`). It keeps a registry from
  scene key to renderer handle, a per-scene loaded flag and a one-way readiness
  flag. It also routes `reset` and `animate` calls to the handle of the current
  path. The renderer handle is abstract: named scene objects, each with an
  optional transform whose existing setters are a map from property to value,
  plus a list of opaque material colours.
  - Calling a setter that does not exist throws. Inside `animate`, that exception
    is caught, so the rest of that animation case is skipped (`RunSetters`).
  - `reset` checks each setter before calling it, so it never throws.
  - An animation type that is not one of the four strings changes nothing. This
    covers the object that the hero, scroll and theme-toggle components pass.
- **Scene component** (`SplineObject`). Every branch of the scene-URL choice names
  the same resource. `onLoad` stores the handle, registers it and then marks its
  key loaded.
- **Animation hook** (`SplineAnimation`). An idle/animating record, with auto-reset
  timers modelled as explicit later events.
- **Theme provider** (`ThemeContext`). The theme chosen at mount, the toggle, and
  the apply step that keeps the `dark` class and the stored value in line with the
  theme.
- **Scroll hook** (`ScrollAnimation`). The clamped visible fraction, written out
  with floating-point division by zero (±Infinity, and NaN for `0 / 0`). Also the
  observer callback's trigger-once gate and the scroll handler.
- **Button ripples** (`Button`). The ripple list, the queue of scheduled removals,
  and the click handler's order of effects.
- **Numeric helpers** (`Utils`). `clamp` and `lerp`.

JavaScript numbers are exact reals. Browser state (local storage, the document's
class list, the system colour preference, bounding rectangles, the clock) is
either plain fields or method inputs.

Every path other than "/" sends animations to the "about" scene
(`SceneCoordinator.TargetKey`).

## Model

| member | source | states |
|---|---|---|
| Utils.Clamp | src/lib/utils.js:72-74 | For an ordered range, the result lies in it. A value inside the range is returned unchanged. Values below or above the range go to the nearer bound. An inverted range yields `max`. |
| Utils.Min | src/lib/utils.js:73 | `Math.min`: the result is one of the two inputs and lies at or below both. |
| Utils.Max | src/lib/utils.js:73 | `Math.max`: the result is one of the two inputs and lies at or above both. |
| Utils.ClampIdempotent | src/lib/utils.js:72-74 | Clamping twice is the same as clamping once. |
| Utils.Lerp | src/lib/utils.js:61-63 | `t = 0` gives start and `t = 1` gives end. Equal ends give that value for every `t`. The offset from start is `(end - start) * t`. |
| Utils.LerpMonotone | src/lib/utils.js:61-63 | For start ≤ end, lerp is non-decreasing in `t`. |
| Utils.LerpBetween | src/lib/utils.js:61-63 | For `t` in [0, 1] and start ≤ end, the result lies between the ends. |
| SplineScene.RunSetters | src/context/SplineContext.js:93-113 | Setter calls run in order and stop at the first missing setter. The set of setters is unchanged. Properties that no call names keep their value. The run completes exactly when every named setter exists. When it completes with distinct properties, each property holds its call's value. |
| SplineScene.ResetTransform | src/context/SplineContext.js:54-74 | Every existing setter receives its default-table value (0, and 1 for scale); missing setters are skipped. |
| SplineScene.DefaultTransformTable | src/context/SplineContext.js:54-62 | The default table has seven entries that name every property once: position and rotation 0, scale 1. |
| SplineScene.Play | src/context/SplineContext.js:129-132 | An object with a `play` function has its play count raised by one, and nothing else in the scene changes. Without such an object the scene is unchanged. |
| SplineScene.SceneHandle.CallSetter | src/context/SplineContext.js:96-100 | A present setter writes only its own property on the named object. A missing one throws and changes nothing. |
| SplineScene.SceneHandle.PlayIfAvailable | src/context/SplineContext.js:129-132 | The handle's objects follow `Play`; the materials are untouched. |
| SplineScene.SceneHandle.SetMaterialColor | src/context/SplineContext.js:139-146 | Only material `i` changes colour. |
| SplineContext.RequiredScenes | src/context/SplineContext.js:32-33 | "/" needs exactly hero and loader; every other path needs exactly about and loader. |
| SplineContext.Every | src/context/SplineContext.js:34 | The left-to-right `every` scan is true exactly when every required scene is present with a true flag. |
| SplineContext.SplineLoadedStep | src/context/SplineContext.js:26-41 | The scene becomes loaded and every other entry is unchanged. Readiness is the old readiness, or every required scene of the path is now loaded. |
| SplineContext.SplineLoadedIdempotent | src/context/SplineContext.js:28-29 | Marking a scene loaded twice equals marking it once. |
| SplineContext.SplineLoadedMonotone | src/context/SplineContext.js:28-38 | Readiness and loaded flags are never cleared, and the map only ever holds true flags. |
| SplineContext.EveryMonotone | src/context/SplineContext.js:34 | Loading more scenes never falsifies the `every` check. |
| SplineContext.SplineLoadedCommutes | src/context/SplineContext.js:28-38 | On one path, the order of two load reports does not change the loaded map or readiness. |
| SplineContext.LandingReadinessScenario | src/context/SplineContext.js:32-38 | On "/", marking loader leaves readiness false, and then marking hero makes it true. |
| SplineContext.AboutNeedsAboutScene | src/context/SplineContext.js:32-34 | Off "/", hero and loader alone never make the coordinator ready. |
| SplineContext.ReplayMonotone | src/context/SplineContext.js:36-38 | After any sequence of load calls, across route changes, readiness is never cleared, no loaded flag is cleared, and every reported scene is loaded. |
| SplineContext.KindOf | src/context/SplineContext.js:92-150 | Only the four exact strings select a case. Every other string, and an object argument, falls to the empty default. |
| SplineContext.IfDefined | src/context/SplineContext.js:97-100 | At most one setter call is made, exactly when the parameter is defined. It targets that parameter's property and carries its value. |
| SplineContext.Truthy | src/context/SplineContext.js:120 | A JavaScript number test: `undefined` and 0 are falsy, and every other number is truthy. |
| SplineContext.ScalesOnClick | src/context/SplineContext.js:114-125 | A 200 ms scale-back is scheduled exactly when a click with a truthy scale reaches a MainObject with a transform and the scale call does not throw. The new scale is then on MainObject. |
| SplineContext.ClickPlays | src/context/SplineContext.js:114-132 | A click on MainObject plays a playable ButtonClickAnimation exactly once when the scale call (if made) finds its setter. A ButtonClickAnimation without a `play` function is left as it was. When a truthy scale finds no setter, the scene is unchanged. |
| SplineContext.SetterCallsFor | src/context/SplineContext.js:93-126 | rotate writes rotateX/rotateY, each only if defined. scroll writes scale/rotateZ, each only if defined. click writes scale only if it is truthy. Each call carries its parameter, and no property is written twice. |
| SplineContext.ThemeColor | src/context/SplineContext.js:141-145 | The dark tint is chosen exactly when `params.theme` is "dark", and the light tint otherwise. |
| SplineContext.Recolored | src/context/SplineContext.js:139-146 | Every material gets the same colour, and the list length is kept. |
| SplineContext.Animated | src/context/SplineContext.js:82-157 | An unknown kind changes nothing. colorShift recolours every material and leaves the objects alone. The other kinds keep the materials. Objects other than MainObject and ButtonClickAnimation never change, and only click touches ButtonClickAnimation. For rotate, scroll and click, MainObject's transform is exactly the result of running that kind's setter calls; without a transform, the scene is unchanged. |
| SplineContext.AnimatedWritesOnlyItsProps | src/context/SplineContext.js:93-126 | On MainObject, a kind changes only the properties it may write. With those setters present, each defined parameter lands on its property. |
| SplineContext.RotateSetsBothAngles | src/context/SplineContext.js:93-102 | rotate with both angles sets exactly rotateX and rotateY on MainObject. |
| SplineContext.RotateAbortsOnMissingSetter | src/context/SplineContext.js:90-102 | If the rotateX setter is missing, the throw also skips rotateY, so nothing changes. |
| SplineContext.Reset | src/context/SplineContext.js:47-79 | Only MainObject's existing setters take the default transform. Without a MainObject transform, nothing changes. |
| SplineContext.UseSplineContext | src/context/SplineContext.js:172-178 | Outside a provider the hook throws its error, and inside it returns the context. |
| SplineContext.RunOnMainObject | src/context/SplineContext.js:93-113 | Up to two setter calls on MainObject act exactly as `RunSetters` on the two lists joined, and the materials are untouched. |
| SplineContext.RecolorMaterials | src/context/SplineContext.js:136-147 | The `forEach` loop leaves the materials equal to `Recolored` and the objects unchanged. |
| SplineContext.SceneCoordinator.constructor | src/context/SplineContext.js:14-18 | The registry is empty, nothing is loaded and readiness is false. |
| SplineContext.SceneCoordinator.TargetKey | src/context/SplineContext.js:85 | The target is always "hero" or "about". It is "hero" exactly on "/". |
| SplineContext.SceneCoordinator.RegisterSplineObject | src/context/SplineContext.js:21-23 | `registry[key]` is overwritten and every other key is unchanged. "Loaded implies registered" is preserved. |
| SplineContext.SceneCoordinator.SplineLoaded | src/context/SplineContext.js:26-44 | The state follows `SplineLoadedStep` on the current path, and readiness is never cleared. |
| SplineContext.SceneCoordinator.Navigate | src/context/SplineContext.js:18 | A route change moves only the path, so readiness survives it. |
| SplineContext.SceneCoordinator.ResetSplineObject | src/context/SplineContext.js:47-79 | With no handle under the page key (always so for "home"), nothing can change. Otherwise the handle follows `Reset`. |
| SplineContext.SceneCoordinator.AnimateSplineObject | src/context/SplineContext.js:82-157 | The current route's handle follows `Animated`, and every other registered handle is untouched. With no handle, nothing changes. One scale-back is scheduled exactly when a click's scale call ran. |
| SplineContext.SceneCoordinator.ScaleBackFires | src/context/SplineContext.js:123-125 | The oldest pending scale-back sets MainObject's scale to 1 on the handle it captured. If that handle has no MainObject transform or no scale setter, its objects stay unchanged. |
| SplineObject.GetSceneUrl | src/components/home/SplineObject.js:14-28 | Every scene key and every theme yield the same scene URL. |
| SplineObject.SplineView.constructor | src/components/home/SplineObject.js:8-11 | `splineRef` starts empty. |
| SplineObject.SplineView.OnLoad | src/components/home/SplineObject.js:30-34 | The handle is kept in `splineRef`, registered under the scene prop, and then that key is marked loaded. The key is afterwards both registered and loaded, and "loaded implies registered" is preserved. |
| SplineAnimation.ResolveOptions | src/hooks/useSplineAnimation.js:13 | autoReset defaults to true and resetDelay to 1000. Given values are kept. |
| SplineAnimation.AnimationHook.constructor | src/hooks/useSplineAnimation.js:6-13 | The hook starts not animating, with a null type and nothing scheduled. |
| SplineAnimation.AnimationHook.TriggerAnimation | src/hooks/useSplineAnimation.js:16-37 | The hook is animating with the given type. The coordinator's target changes exactly as `Animated(type, params)` with params defaulting to `{}`. One reset is scheduled only when autoReset is on. The coordinator queues a scale-back exactly when `ScalesOnClick` holds for the target before the call. |
| SplineAnimation.AnimationHook.AutoResetFires | src/hooks/useSplineAnimation.js:28-33 | A pending timer resets to idle unconditionally. |
| SplineAnimation.AnimationHook.ResetAnimation | src/hooks/useSplineAnimation.js:40-45 | The hook is back to not animating with a null type. |
| SplineAnimation.AnimationHook.Unmount | src/hooks/useSplineAnimation.js:48-54 | The cleanup resets only while animating with autoReset on. |
| SplineAnimation.NoAutoResetStaysAnimating | src/hooks/useSplineAnimation.js:27-34 | Without autoReset nothing is scheduled. No event except `resetAnimation` ends the animation. |
| SplineAnimation.Step | src/hooks/useSplineAnimation.js:17-54 | One event keeps the invariant that not animating implies a null type. It schedules at most one timer, and schedules one exactly on a trigger with autoReset. Without autoReset nothing is ever scheduled. |
| SplineAnimation.RunKeepsIdleInvariant | src/hooks/useSplineAnimation.js:17-45 | After any events, not animating implies a null type. |
| SplineAnimation.EarlierTimerEndsLaterAnimation | src/hooks/useSplineAnimation.js:28-33 | The first trigger's timer is not cancelled by a second trigger. It ends the second animation early. |
| ThemeContext.InitialTheme | src/context/ThemeContext.js:16-27 | A truthy saved value is used verbatim. Otherwise the theme is "dark" exactly when the system prefers dark, else "light". |
| ThemeContext.Toggled | src/context/ThemeContext.js:47 | The result is "dark" exactly when the previous theme is "light". Any other value, including an unexpected stored string, becomes "light". |
| ThemeContext.ToggleTwice | src/context/ThemeContext.js:47 | Toggling twice from "light" or "dark" returns the original theme. |
| ThemeContext.ToggleNormalises | src/context/ThemeContext.js:47 | One toggle always yields "light" or "dark", and toggling then alternates between them. |
| ThemeContext.UseTheme | src/context/ThemeContext.js:62-68 | Outside a provider the hook throws its error, and inside it returns the context. |
| ThemeContext.ThemeProvider.constructor | src/context/ThemeContext.js:8-9 | Before mount the theme is "light", it is not mounted, and the browser state is untouched. |
| ThemeContext.ThemeProvider.RendersChildren | src/context/ThemeContext.js:51-59 | Children render exactly when the provider is mounted. |
| ThemeContext.ThemeProvider.Apply | src/context/ThemeContext.js:31-44 | Before mount nothing is written. After mount the `dark` class is present exactly when the theme is "dark", and `theme` is stored. |
| ThemeContext.ThemeProvider.Mount | src/context/ThemeContext.js:12-28 | The theme becomes `InitialTheme` of the stored value and the system preference. It is then applied and persisted. |
| ThemeContext.ThemeProvider.ToggleTheme | src/context/ThemeContext.js:46-48 | Only callable once mounted, since the provider renders nothing earlier. The theme becomes `Toggled`. The class agrees with it again, and it is saved to storage. |
| ScrollAnimation.Divide | src/hooks/useScrollAnimation.js:36 | Floating-point division: a finite quotient for a non-zero divisor. Division by zero gives ±Infinity by the dividend's sign, and NaN for 0 / 0. |
| ScrollAnimation.ClampUnit | src/hooks/useScrollAnimation.js:38 | The result is NaN exactly for NaN and otherwise lies in [0, 1]. A quotient already in [0, 1] is kept. |
| ScrollAnimation.CalculateScrollProgress | src/hooks/useScrollAnimation.js:20-39 | No target gives 0. A bottom at or below 0 gives 1, checked before the below-viewport test. A top at or beyond the window height gives 0. Every numeric result lies in [0, 1]. |
| ScrollAnimation.ProgressIsFraction | src/hooks/useScrollAnimation.js:33-38 | A positive height always gives a number. |
| ScrollAnimation.FullyVisibleIsOne | src/hooks/useScrollAnimation.js:33-38 | An element wholly inside the viewport has progress 1. |
| ScrollAnimation.AboveTakesPrecedence | src/hooks/useScrollAnimation.js:26-30 | When both the above and below tests hold, the result is 1. |
| ScrollAnimation.ZeroHeightInsideIsNaN | src/hooks/useScrollAnimation.js:33-38 | A zero-height element inside the viewport gets NaN progress from 0 / 0. |
| ScrollAnimation.ResolveScrollOptions | src/hooks/useScrollAnimation.js:6-11 | The defaults are threshold 0.1, root null, rootMargin "0px" and triggerOnce false. Given values are kept. |
| ScrollAnimation.ObserveEntry | src/hooks/useScrollAnimation.js:46-56 | Once triggered with trigger-once set, an entry changes nothing. Otherwise `isInView` follows the entry, and an intersecting entry recomputes the progress. The trigger is set exactly when it was set or the entry intersects. A non-intersecting entry never changes the progress. |
| ScrollAnimation.ObserveEntries | src/hooks/useScrollAnimation.js:45-57 | A batch never clears the trigger. A batch with no intersecting entry leaves the progress unchanged. |
| ScrollAnimation.TriggeredExactlyWhenIntersected | src/hooks/useScrollAnimation.js:45-57 | After a batch, the trigger flag is set exactly when it was set before or some entry intersected. |
| ScrollAnimation.TriggerOnceFreezes | src/hooks/useScrollAnimation.js:47 | With triggerOnce set and the trigger fired, later entries change neither isInView nor progress. |
| ScrollAnimation.LastEntryWins | src/hooks/useScrollAnimation.js:45-50 | Without triggerOnce, isInView equals the last entry's intersection. |
| ScrollAnimation.TriggerOnceFirstHitWins | src/hooks/useScrollAnimation.js:45-57 | With triggerOnce set and no trigger yet, the element ends in view exactly when some entry intersected. |
| ScrollAnimation.ScrollTracker.constructor | src/hooks/useScrollAnimation.js:13-18 | The hook starts out of view with progress 0 and no trigger. |
| ScrollAnimation.ScrollTracker.OnIntersect | src/hooks/useScrollAnimation.js:43-58 | The `forEach` over the entries leaves the state equal to `ObserveEntries`, and the trigger flag is never cleared. |
| ScrollAnimation.ScrollTracker.OnScroll | src/hooks/useScrollAnimation.js:77-81 | Progress is recomputed exactly when the element is in view or has triggered, and is kept otherwise. |
| Button.ResolveProps | src/components/ui/Button.js:88-96 | The defaults are variant "primary", size "md" and withRipple true. |
| Button.WithoutId | src/components/ui/Button.js:139-141 | A ripple survives exactly when it was present and its id differs. |
| Button.WithoutIdAppend | src/components/ui/Button.js:139-141 | Filtering distributes over concatenation, so the kept ripples stay in order. |
| Button.WithoutAbsentId | src/components/ui/Button.js:139-141 | Removing an id that no ripple carries changes nothing. |
| Button.SameMillisecondRipplesRemovedTogether | src/components/ui/Button.js:130-141 | Two ripples from the same millisecond share an id, and the first removal drops both. |
| Button.RippleButton.constructor | src/components/ui/Button.js:97-98 | There are no ripples and nothing is scheduled. |
| Button.RippleButton.Attach | src/components/ui/Button.js:151-152 | The button element becomes attached to its ref. |
| Button.RippleButton.CreateRipple | src/components/ui/Button.js:118-143 | Nothing happens without withRipple or an attached element. Otherwise one ripple `{id, x, y, size}` is appended and its removal is queued. Every live ripple keeps a scheduled removal. |
| Button.RippleButton.RemovalFires | src/components/ui/Button.js:138-142 | The oldest scheduled removal drops every ripple with its id and keeps the rest in order. |
| Button.RippleButton.HandleClick | src/components/ui/Button.js:145-148 | The ripple is created first, and then `onClick` runs if present. |

## Left out

- JSX markup, framer-motion variants, Tailwind classes and the pages: presentation only. The button's variant and size class tables are presentation too; only the prop defaults are modelled.
- The renderer itself. Scene lookup, `getMaterials` and `play` are total here. The only failure modelled is a missing transform setter, which is the one the code guards against in `reset`. The `console.error` logging in the catch blocks is not modelled.
- Floating point. Numbers are exact reals, so there is no rounding. NaN and infinities appear only where division by zero produces them in the scroll progress. `Utils.Clamp` does not model NaN propagation through `Math.min`/`Math.max`.
- Timer delays (200 ms scale-back, 800 ms ripple removal, the hook's reset delay). Timers are explicit later events. Timers with the same delay fire in the order they were scheduled.
- Parameter values other than numbers or undefined (for example `null` for a rotation) are not modelled.
- Aliasing inside handles. Scene objects are values inside one handle, so objects shared between two handles are not modelled. "Other handles untouched" is stated for handle objects distinct from the target.
- SplineContext.SceneCoordinator.ScaleBackFires: it finds MainObject by name when the timer fires, not through a captured reference. Nothing in the model renames objects, so the two agree.
- React scheduling. Updates are immediate. The mount-time pair of effects is one `Mount` step, in which the apply effect's first, pre-mount run does nothing. The hook's effect cleanup also runs when `isAnimating` or `autoReset` changes. It reads the previous render's `isAnimating`, so it changes nothing while the options stay fixed. Options are fixed per hook here (`AnimationHook.options` is a constant), so switching `autoReset` off during an animation, which ends it, is not modelled. `Unmount` models only the run at unmount.
- Which observer entries the browser delivers, and with which threshold or margin, is an input. Re-subscribing the observer on an option change is not modelled.
- `debounce`, the DOM-based `createRipple` and `getViewportDimensions` in `src/lib/utils.js` are not modelled: they are browser timing or DOM helpers.
- The page components are not modelled. The loader only reads the readiness flag, and the header makes no coordinator call. The callers of `animateSplineObject` (src/components/home/HeroSection.js:37, 50 and 57, src/components/home/ScrollAnimationSection.js:74, src/components/shared/ThemeToggle.js:13) pass an object as the animation type, which `SplineContext.KindOf` maps to the no-op default.
