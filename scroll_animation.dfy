/** The `useScrollAnimation` hook of `src/hooks/useScrollAnimation.js`: the
    visible-fraction computation, the intersection-observer callback with
    its trigger-once gate, and the scroll handler. The target's bounding
    rectangle and the window height are inputs. */
module ScrollAnimation {
  import opened Wrappers
  import opened Utils

  /** What the progress computation reads: whether the target element is
      attached, its bounding rectangle and the window's inner height. */
  datatype Geometry = Geometry(hasTarget: bool, top: real, bottom: real, height: real, windowHeight: real)

  /** A JavaScript number as it comes out of a division. */
  datatype Quotient = Finite(value: real) | PositiveInfinity | NegativeInfinity | NaN

  /** `a / b` in floating point: dividing by zero gives an infinity, or NaN
      for `0 / 0`. */
  function Divide(a: real, b: real): (q: Quotient)
    ensures b != 0.0 ==> q == Finite(a / b)
    ensures b == 0.0 ==> (q == PositiveInfinity <==> a > 0.0) && (q == NaN <==> a == 0.0)
                          && (q == NegativeInfinity <==> a < 0.0)
  {
    if b != 0.0 then Finite(a / b)
    else if a > 0.0 then PositiveInfinity
    else if a < 0.0 then NegativeInfinity
    else NaN
  }

  /** A progress value: a number, or NaN. */
  datatype Progress = Fraction(value: real) | NotANumber

  /** `Math.max(0, Math.min(1, q))`: NaN stays NaN, the infinities clamp. */
  function ClampUnit(q: Quotient): (p: Progress)
    ensures p.NotANumber? <==> q.NaN?
    ensures p.Fraction? ==> 0.0 <= p.value <= 1.0
    ensures q.Finite? && 0.0 <= q.value <= 1.0 ==> p == Fraction(q.value)
  {
    match q
    case Finite(v) => Fraction(Max(0.0, Min(1.0, v)))
    case PositiveInfinity => Fraction(1.0)
    case NegativeInfinity => Fraction(0.0)
    case NaN => NotANumber
  }

  /** `calculateScrollProgress()`. */
  function CalculateScrollProgress(g: Geometry): (p: Progress)
    ensures !g.hasTarget ==> p == Fraction(0.0)
    ensures g.hasTarget && g.bottom <= 0.0 ==> p == Fraction(1.0)
    ensures g.hasTarget && g.bottom > 0.0 && g.top >= g.windowHeight ==> p == Fraction(0.0)
    ensures p.Fraction? ==> 0.0 <= p.value <= 1.0
  {
    if !g.hasTarget then Fraction(0.0)
    else if g.bottom <= 0.0 then Fraction(1.0)
    else if g.top >= g.windowHeight then Fraction(0.0)
    else
      var visibleHeight := Min(g.bottom, g.windowHeight) - Max(g.top, 0.0);
      ClampUnit(Divide(visibleHeight, g.height))
  }

  /** With a positive height the progress is always a number in [0, 1]. */
  lemma ProgressIsFraction(g: Geometry)
    requires g.height > 0.0
    ensures CalculateScrollProgress(g).Fraction?
  {
  }

  /** An element that lies wholly inside the viewport is fully visible. */
  lemma FullyVisibleIsOne(g: Geometry)
    requires g.hasTarget && g.height > 0.0
    requires 0.0 <= g.top && g.bottom <= g.windowHeight && g.height == g.bottom - g.top
    ensures CalculateScrollProgress(g) == Fraction(1.0)
  {
    if g.bottom > 0.0 && g.top < g.windowHeight {
      var visibleHeight := Min(g.bottom, g.windowHeight) - Max(g.top, 0.0);
      assert Min(g.bottom, g.windowHeight) == g.bottom;
      assert Max(g.top, 0.0) == g.top;
      assert visibleHeight == g.height;
      assert g.height / g.height == 1.0;
      assert Divide(visibleHeight, g.height) == Finite(1.0);
      assert ClampUnit(Finite(1.0)) == Fraction(1.0);
    }
  }

  /** The above-viewport test comes first: an element above a viewport it
      would also be "below" (window height not above its top) still counts as
      scrolled past. */
  lemma AboveTakesPrecedence(g: Geometry)
    requires g.hasTarget && g.bottom <= 0.0 && g.top >= g.windowHeight
    ensures CalculateScrollProgress(g) == Fraction(1.0)
  {
  }

  /** A zero-height element strictly inside the viewport has no visible
      height either, and `0 / 0` makes the progress NaN. */
  lemma ZeroHeightInsideIsNaN(g: Geometry)
    requires g.hasTarget && g.height == 0.0 && g.top == g.bottom
    requires 0.0 < g.bottom < g.windowHeight
    ensures CalculateScrollProgress(g) == NotANumber
  {
    assert Min(g.bottom, g.windowHeight) - Max(g.top, 0.0) == 0.0;
  }

  /** The hook's options; `None` is an undefined option. The observer root is
      an element id, `None` inside `Some` standing for `null`. */
  datatype ScrollOptions = ScrollOptions(threshold: Option<real>, root: Option<Option<nat>>,
                                         rootMargin: Option<string>, triggerOnce: Option<bool>)

  datatype ResolvedScrollOptions = ResolvedScrollOptions(threshold: real, root: Option<nat>,
                                                         rootMargin: string, triggerOnce: bool)

  /** Destructuring with defaults: threshold 0.1, root `null`, margin "0px",
      no trigger-once. */
  function ResolveScrollOptions(o: ScrollOptions): (r: ResolvedScrollOptions)
    ensures o.threshold.None? ==> r.threshold == 0.1
    ensures o.root.None? ==> r.root.None?
    ensures o.rootMargin.None? ==> r.rootMargin == "0px"
    ensures o.triggerOnce.None? ==> !r.triggerOnce
    ensures o.threshold.Some? ==> r.threshold == o.threshold.value
    ensures o.root.Some? ==> r.root == o.root.value
    ensures o.rootMargin.Some? ==> r.rootMargin == o.rootMargin.value
    ensures o.triggerOnce.Some? ==> r.triggerOnce == o.triggerOnce.value
  {
    ResolvedScrollOptions(
      if o.threshold.Some? then o.threshold.value else 0.1,
      if o.root.Some? then o.root.value else None,
      if o.rootMargin.Some? then o.rootMargin.value else "0px",
      if o.triggerOnce.Some? then o.triggerOnce.value else false)
  }

  /** `isInView`, `scrollProgress` and `hasTriggeredRef.current`. */
  datatype ScrollState = ScrollState(isInView: bool, progress: Progress, hasTriggered: bool)

  const InitialScrollState := ScrollState(false, Fraction(0.0), false)

  /** One observer entry: skipped once triggered when trigger-once is set;
      otherwise `isInView` follows the entry, and an intersecting entry sets
      the trigger and recomputes the progress. */
  function ObserveEntry(s: ScrollState, isIntersecting: bool, triggerOnce: bool, g: Geometry): (r: ScrollState)
    ensures triggerOnce && s.hasTriggered ==> r == s
    ensures r.hasTriggered <==> s.hasTriggered || isIntersecting
    ensures !isIntersecting ==> r.progress == s.progress
    ensures !(triggerOnce && s.hasTriggered) ==>
              r.isInView == isIntersecting && (isIntersecting ==> r.progress == CalculateScrollProgress(g))
  {
    if triggerOnce && s.hasTriggered then s
    else ScrollState(isIntersecting,
                     if isIntersecting then CalculateScrollProgress(g) else s.progress,
                     s.hasTriggered || isIntersecting)
  }

  /** The entries of one callback, processed in order (last one last). */
  function ObserveEntries(s: ScrollState, entries: seq<bool>, triggerOnce: bool, g: Geometry): (r: ScrollState)
    ensures s.hasTriggered ==> r.hasTriggered
    ensures (forall i :: 0 <= i < |entries| ==> !entries[i]) ==> r.progress == s.progress
    decreases |entries|
  {
    if entries == [] then s
    else ObserveEntry(ObserveEntries(s, entries[..|entries| - 1], triggerOnce, g),
                      entries[|entries| - 1], triggerOnce, g)
  }

  /** The trigger flag is set exactly when it was set before or some entry
      intersected; it is never cleared. */
  lemma {:induction false} TriggeredExactlyWhenIntersected(s: ScrollState, entries: seq<bool>, triggerOnce: bool, g: Geometry)
    ensures ObserveEntries(s, entries, triggerOnce, g).hasTriggered <==> s.hasTriggered || true in entries
    decreases |entries|
  {
    if entries != [] {
      var init := entries[..|entries| - 1];
      TriggeredExactlyWhenIntersected(s, init, triggerOnce, g);
      assert entries == init + [entries[|entries| - 1]];
    }
  }

  /** With trigger-once set and the trigger fired, later entries change
      nothing. */
  lemma {:induction false} TriggerOnceFreezes(s: ScrollState, entries: seq<bool>, g: Geometry)
    requires s.hasTriggered
    ensures ObserveEntries(s, entries, true, g) == s
    decreases |entries|
  {
    if entries != [] {
      TriggerOnceFreezes(s, entries[..|entries| - 1], g);
    }
  }

  /** Without trigger-once, `isInView` is the last entry's intersection. */
  lemma LastEntryWins(s: ScrollState, entries: seq<bool>, g: Geometry)
    requires entries != []
    ensures ObserveEntries(s, entries, false, g).isInView == entries[|entries| - 1]
  {
  }

  /** With trigger-once set and not yet triggered, a batch leaves the element
      in view exactly when some entry intersected: the first intersecting
      entry wins and freezes the state. */
  lemma {:induction false} TriggerOnceFirstHitWins(s: ScrollState, entries: seq<bool>, g: Geometry)
    requires !s.hasTriggered && entries != []
    ensures ObserveEntries(s, entries, true, g).isInView <==> true in entries
    decreases |entries|
  {
    var init := entries[..|entries| - 1];
    var last := entries[|entries| - 1];
    assert entries == init + [last];
    if init == [] {
    } else {
      TriggerOnceFirstHitWins(s, init, g);
      TriggeredExactlyWhenIntersected(s, init, true, g);
    }
  }

  /** The mounted hook. */
  class ScrollTracker {
    const options: ResolvedScrollOptions
    var isInView: bool
    var scrollProgress: Progress
    var hasTriggered: bool

    function State(): ScrollState
      reads this
    {
      ScrollState(isInView, scrollProgress, hasTriggered)
    }

    constructor (options: ScrollOptions)
      ensures this.options == ResolveScrollOptions(options)
      ensures State() == InitialScrollState
    {
      this.options := ResolveScrollOptions(options);
      isInView := false;
      scrollProgress := Fraction(0.0);
      hasTriggered := false;
    }

    /** The observer callback over one batch of entries. */
    method OnIntersect(entries: seq<bool>, g: Geometry)
      modifies this`isInView, this`scrollProgress, this`hasTriggered
      ensures State() == ObserveEntries(old(State()), entries, options.triggerOnce, g)
      ensures old(hasTriggered) ==> hasTriggered
    {
      ghost var s0 := State();
      var i := 0;
      while i < |entries|
        invariant 0 <= i <= |entries|
        invariant State() == ObserveEntries(s0, entries[..i], options.triggerOnce, g)
        invariant s0.hasTriggered ==> hasTriggered
      {
        assert entries[..i + 1][..i] == entries[..i];
        var isIntersecting := entries[i];
        if !(options.triggerOnce && hasTriggered) {
          isInView := isIntersecting;
          if isIntersecting {
            hasTriggered := true;
            scrollProgress := CalculateScrollProgress(g);
          }
        }
        i := i + 1;
      }
      assert entries[..|entries|] == entries;
    }

    /** The scroll handler: recompute only while in view or once triggered. */
    method OnScroll(g: Geometry)
      modifies this`scrollProgress
      ensures isInView || hasTriggered ==> scrollProgress == CalculateScrollProgress(g)
      ensures !(isInView || hasTriggered) ==> scrollProgress == old(scrollProgress)
    {
      if isInView || hasTriggered {
        scrollProgress := CalculateScrollProgress(g);
      }
    }
  }
}
