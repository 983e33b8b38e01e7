/** The ripple bookkeeping of `src/components/ui/Button.js`: the list of live
    ripples, the queue of scheduled removals, and the click handler's order
    of effects. Click coordinates, the button's box and the clock reading
    are inputs. */
module Button {
  import opened Wrappers
  import opened Utils

  /** One ripple; its id is the millisecond clock reading at creation
      (`Date.now().toString()`, which is injective on clock readings). */
  datatype Ripple = Ripple(id: nat, x: real, y: real, size: real)

  /** The click's viewport coordinates. */
  datatype ClickEvent = ClickEvent(clientX: real, clientY: real)

  /** The button's bounding-rectangle corner and client size. */
  datatype ButtonBox = ButtonBox(left: real, top: real, clientWidth: real, clientHeight: real)

  /** Props as passed; `None` is an undefined prop. `hasOnClick` says whether
      an `onClick` handler was given. */
  datatype ButtonProps = ButtonProps(variant: Option<string>, size: Option<string>,
                                     withRipple: Option<bool>, hasOnClick: bool)

  datatype ResolvedProps = ResolvedProps(variant: string, size: string, withRipple: bool, hasOnClick: bool)

  /** Destructuring with defaults: variant "primary", size "md", ripples on. */
  function ResolveProps(p: ButtonProps): (r: ResolvedProps)
    ensures r.variant == (if p.variant.Some? then p.variant.value else "primary")
    ensures r.size == (if p.size.Some? then p.size.value else "md")
    ensures r.withRipple == (p.withRipple.None? || p.withRipple.value)
    ensures r.hasOnClick == p.hasOnClick
  {
    ResolvedProps(p.variant.GetOr("primary"), p.size.GetOr("md"), p.withRipple.GetOr(true), p.hasOnClick)
  }

  /** `prev.filter((ripple) => ripple.id !== id)`. */
  function WithoutId(ripples: seq<Ripple>, id: nat): (r: seq<Ripple>)
    ensures |r| <= |ripples|
    ensures forall x :: x in r <==> x in ripples && x.id != id
    decreases |ripples|
  {
    if ripples == [] then []
    else if ripples[0].id == id then WithoutId(ripples[1..], id)
    else [ripples[0]] + WithoutId(ripples[1..], id)
  }

  /** Filtering distributes over concatenation, so the kept ripples stay in
      their original order. */
  lemma {:induction false} WithoutIdAppend(a: seq<Ripple>, b: seq<Ripple>, id: nat)
    ensures WithoutId(a + b, id) == WithoutId(a, id) + WithoutId(b, id)
    decreases |a|
  {
    if a != [] {
      assert (a + b)[1..] == a[1..] + b;
      WithoutIdAppend(a[1..], b, id);
    } else {
      assert a + b == b;
    }
  }

  /** Removing an id no ripple carries changes nothing. */
  lemma {:induction false} WithoutAbsentId(ripples: seq<Ripple>, id: nat)
    requires forall i :: 0 <= i < |ripples| ==> ripples[i].id != id
    ensures WithoutId(ripples, id) == ripples
    decreases |ripples|
  {
    if ripples != [] {
      WithoutAbsentId(ripples[1..], id);
    }
  }

  /** Two ripples created in the same millisecond share an id: the first
      removal takes both. */
  lemma SameMillisecondRipplesRemovedTogether(prev: seq<Ripple>, r1: Ripple, r2: Ripple)
    requires r1.id == r2.id
    ensures WithoutId(prev + [r1, r2], r1.id) == WithoutId(prev, r1.id)
  {
    WithoutIdAppend(prev, [r1, r2], r1.id);
    assert [r1, r2][1..] == [r2];
  }

  /** What a click handler did, in order. */
  datatype ClickEffect = RippleCreated(id: nat) | OnClickCalled

  /** The mounted button. */
  class RippleButton {
    const props: ResolvedProps
    var attached: bool
    var ripples: seq<Ripple>
    var pendingRemovals: seq<nat>
    var effects: seq<ClickEffect>

    /** Every live ripple still has its removal scheduled. */
    predicate Valid()
      reads this
    {
      forall r :: r in ripples ==> r.id in pendingRemovals
    }

    /** Before mount: no element, no ripples, nothing scheduled. */
    constructor (p: ButtonProps)
      ensures Valid()
      ensures props == ResolveProps(p) && !attached
      ensures ripples == [] && pendingRemovals == [] && effects == []
    {
      props := ResolveProps(p);
      attached := false;
      ripples := [];
      pendingRemovals := [];
      effects := [];
    }

    /** The element is attached to `buttonRef`. */
    method Attach()
      modifies this`attached
      ensures attached
    {
      attached := true;
    }

    /** `createRipple(e)`: nothing when ripples are off or the element is not
        attached; otherwise one ripple at the end and its removal scheduled. */
    method CreateRipple(e: ClickEvent, box: ButtonBox, now: nat)
      requires Valid()
      modifies this`ripples, this`pendingRemovals, this`effects
      ensures Valid()
      ensures !(props.withRipple && attached) ==>
                ripples == old(ripples) && pendingRemovals == old(pendingRemovals) && effects == old(effects)
      ensures props.withRipple && attached ==>
                && ripples == old(ripples) + [Ripple(now, e.clientX - box.left, e.clientY - box.top,
                                                     Max(box.clientWidth, box.clientHeight) * 2.5)]
                && pendingRemovals == old(pendingRemovals) + [now]
                && effects == old(effects) + [RippleCreated(now)]
    {
      if !props.withRipple || !attached {
        return;
      }
      var x := e.clientX - box.left;
      var y := e.clientY - box.top;
      var diameter := Max(box.clientWidth, box.clientHeight) * 2.5;
      var uniqueId := now;
      ripples := ripples + [Ripple(uniqueId, x, y, diameter)];
      pendingRemovals := pendingRemovals + [uniqueId];
      effects := effects + [RippleCreated(uniqueId)];
    }

    /** The oldest scheduled removal fires: every ripple with its id goes,
        the others stay in order. */
    method RemovalFires()
      requires Valid() && pendingRemovals != []
      modifies this`ripples, this`pendingRemovals
      ensures Valid()
      ensures pendingRemovals == old(pendingRemovals[1..])
      ensures ripples == WithoutId(old(ripples), old(pendingRemovals[0]))
    {
      var uniqueId := pendingRemovals[0];
      pendingRemovals := pendingRemovals[1..];
      ripples := WithoutId(ripples, uniqueId);
    }

    /** `handleClick(e)`: the ripple first, then `onClick` if present. */
    method HandleClick(e: ClickEvent, box: ButtonBox, now: nat)
      requires Valid()
      modifies this`ripples, this`pendingRemovals, this`effects
      ensures Valid()
      ensures effects == old(effects)
                         + (if props.withRipple && attached then [RippleCreated(now)] else [])
                         + (if props.hasOnClick then [OnClickCalled] else [])
      ensures props.withRipple && attached ==>
                ripples == old(ripples) + [Ripple(now, e.clientX - box.left, e.clientY - box.top,
                                                  Max(box.clientWidth, box.clientHeight) * 2.5)]
                && pendingRemovals == old(pendingRemovals) + [now]
      ensures !(props.withRipple && attached) ==> ripples == old(ripples) && pendingRemovals == old(pendingRemovals)
    {
      CreateRipple(e, box, now);
      if props.hasOnClick {
        effects := effects + [OnClickCalled];
      }
    }
  }
}
