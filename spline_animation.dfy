/** The `useSplineAnimation` hook of `src/hooks/useSplineAnimation.js`: an
    idle / animating record, forwarding to the coordinator, and a timed
    auto-reset modelled as an explicit later event. */
module SplineAnimation {
  import opened Wrappers
  import opened SplineContext

  /** The hook's `animationState` record. */
  datatype AnimationState = AnimationState(isAnimating: bool, animationType: Option<AnimationArg>)

  /** Not animating, no animation type. */
  const Idle := AnimationState(false, None)

  /** The hook's options; `None` is an undefined option. */
  datatype HookOptions = HookOptions(autoReset: Option<bool>, resetDelay: Option<int>)

  /** The options after their defaults are applied. */
  datatype ResolvedOptions = ResolvedOptions(autoReset: bool, resetDelay: int)

  /** Destructuring with defaults: auto-reset on, 1000 ms delay. */
  function ResolveOptions(o: HookOptions): (r: ResolvedOptions)
    ensures o.autoReset.None? ==> r.autoReset
    ensures o.autoReset.Some? ==> r.autoReset == o.autoReset.value
    ensures o.resetDelay.None? ==> r.resetDelay == 1000
    ensures o.resetDelay.Some? ==> r.resetDelay == o.resetDelay.value
  {
    ResolvedOptions(o.autoReset.GetOr(true), o.resetDelay.GetOr(1000))
  }

  /** The hook's events, with timers as explicit later events. */
  datatype HookEvent = Triggered(kind: AnimationArg) | ResetCalled | TimerFired | Unmounted

  /** The hook's state and pending-timer count after one event; a timer
      event with nothing pending does nothing. */
  function Step(st: AnimationState, pending: nat, autoReset: bool, e: HookEvent): (r: (AnimationState, nat))
    ensures (!st.isAnimating ==> st.animationType == None) ==> (!r.0.isAnimating ==> r.0.animationType == None)
    ensures r.1 <= pending + 1 && (r.1 == pending + 1 <==> e.Triggered? && autoReset)
    ensures !autoReset ==> r.1 <= pending
  {
    match e
    case Triggered(k) => (AnimationState(true, Some(k)), if autoReset then pending + 1 else pending)
    case ResetCalled => (Idle, pending)
    case TimerFired => if pending > 0 then (Idle, pending - 1) else (st, pending)
    case Unmounted => (if st.isAnimating && autoReset then Idle else st, pending)
  }

  /** One mounted use of the hook. `pendingResets` counts scheduled
      auto-reset timers that have not fired yet. */
  class AnimationHook {
    const coordinator: SceneCoordinator
    const options: ResolvedOptions
    var state: AnimationState
    var pendingResets: nat

    /** Not animating means no animation type; without auto-reset nothing is
        ever scheduled. */
    predicate Valid()
      reads this
    {
      (!state.isAnimating ==> state.animationType == None)
      && (!options.autoReset ==> pendingResets == 0)
    }

    constructor (coordinator: SceneCoordinator, options: HookOptions)
      ensures Valid()
      ensures this.coordinator == coordinator && this.options == ResolveOptions(options)
      ensures state == Idle && pendingResets == 0
    {
      this.coordinator := coordinator;
      this.options := ResolveOptions(options);
      state := Idle;
      pendingResets := 0;
    }

    /** `triggerAnimation(type, params)`: become animating with that type,
        forward exactly `(type, params)` (params defaulting to `{}`) to the
        coordinator, and schedule one reset when auto-reset is on. */
    method TriggerAnimation(animationType: AnimationArg, params: Option<Params>)
      requires Valid()
      modifies this`state, this`pendingResets,
               coordinator.HandleFrame(coordinator.TargetKey()), coordinator`scaleBacks
      ensures Valid()
      ensures (state, pendingResets) == Step(old(state), old(pendingResets), options.autoReset, Triggered(animationType))
      ensures state == AnimationState(true, Some(animationType))
      ensures pendingResets == old(pendingResets) + (if options.autoReset then 1 else 0)
      ensures var key := coordinator.TargetKey();
              key in coordinator.registry ==>
                coordinator.registry[key].Snapshot()
                  == Animated(old(coordinator.registry[key].Snapshot()), animationType, params.GetOr(NoParams))
      ensures var key := coordinator.TargetKey();
              coordinator.scaleBacks == old(coordinator.scaleBacks) +
                if ScalesOnClick(old(coordinator.HandleSnapshot(key)), animationType, params.GetOr(NoParams))
                then [coordinator.registry[key]] else []
    {
      state := AnimationState(true, Some(animationType));
      coordinator.AnimateSplineObject(animationType, params.GetOr(NoParams));
      if options.autoReset {
        pendingResets := pendingResets + 1;
      }
    }

    /** A scheduled auto-reset fires: it resets unconditionally, even when a
        later trigger started a newer animation. */
    method AutoResetFires()
      requires Valid() && pendingResets > 0
      modifies this`state, this`pendingResets
      ensures Valid()
      ensures (state, pendingResets) == Step(old(state), old(pendingResets), options.autoReset, TimerFired)
      ensures state == Idle && pendingResets == old(pendingResets) - 1
    {
      state := Idle;
      pendingResets := pendingResets - 1;
    }

    /** `resetAnimation()`: back to idle; scheduled resets stay scheduled. */
    method ResetAnimation()
      requires Valid()
      modifies this`state
      ensures Valid()
      ensures (state, pendingResets) == Step(old(state), pendingResets, options.autoReset, ResetCalled)
      ensures state == Idle
    {
      state := Idle;
    }

    /** The unmount cleanup: resets only while animating with auto-reset on. */
    method Unmount()
      requires Valid()
      modifies this`state
      ensures Valid()
      ensures (state, pendingResets) == Step(old(state), pendingResets, options.autoReset, Unmounted)
      ensures state == if old(state.isAnimating) && options.autoReset then Idle else old(state)
    {
      if state.isAnimating && options.autoReset {
        ResetAnimation();
      }
    }
  }

  function Run(st: AnimationState, pending: nat, autoReset: bool, events: seq<HookEvent>): (AnimationState, nat)
    decreases |events|
  {
    if events == [] then (st, pending)
    else
      var next := Step(st, pending, autoReset, events[0]);
      Run(next.0, next.1, autoReset, events[1..])
  }

  /** Without auto-reset, an animation lasts until an explicit reset: no
      timer, unmount or later trigger makes the hook idle. */
  lemma {:induction false} NoAutoResetStaysAnimating(st: AnimationState, pending: nat, events: seq<HookEvent>)
    requires st.isAnimating && pending == 0
    requires ResetCalled !in events
    ensures Run(st, pending, false, events).0.isAnimating
    ensures Run(st, pending, false, events).1 == 0
    decreases |events|
  {
    if events != [] {
      var next := Step(st, pending, false, events[0]);
      assert events[0] != ResetCalled;
      assert ResetCalled !in events[1..] by {
        forall i | 0 <= i < |events[1..]| ensures events[1..][i] != ResetCalled {
          assert events[1..][i] == events[i + 1];
        }
      }
      NoAutoResetStaysAnimating(next.0, next.1, events[1..]);
    }
  }

  /** The invariant "not animating means no type" holds after any events. */
  lemma {:induction false} RunKeepsIdleInvariant(st: AnimationState, pending: nat, autoReset: bool, events: seq<HookEvent>)
    requires !st.isAnimating ==> st.animationType == None
    ensures var r := Run(st, pending, autoReset, events).0;
            !r.isAnimating ==> r.animationType == None
    decreases |events|
  {
    if events != [] {
      var next := Step(st, pending, autoReset, events[0]);
      RunKeepsIdleInvariant(next.0, next.1, autoReset, events[1..]);
    }
  }

  /** Two triggers in a row with auto-reset on: the first trigger's timer
      fires first and makes the hook idle although the second animation
      has just begun. */
  lemma EarlierTimerEndsLaterAnimation(a: AnimationArg, b: AnimationArg)
    ensures Run(Idle, 0, true, [Triggered(a), Triggered(b), TimerFired]) == (Idle, 1)
  {
    var events := [Triggered(a), Triggered(b), TimerFired];
    assert events[1..] == [Triggered(b), TimerFired];
    assert events[1..][1..] == [TimerFired];
    assert Run(Idle, 1, true, [TimerFired]) == (Idle, 0);
    assert Run(AnimationState(true, Some(b)), 2, true, [TimerFired]) == (Idle, 1);
  }
}
