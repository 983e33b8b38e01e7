/** The scene coordinator of `src/context/SplineContext.js`: a registry from
    scene key to renderer handle, a per-scene loaded flag, a one-way readiness
    flag, and the reset / animate operations routed by the current path. */
module SplineContext {
  import opened Wrappers
  import opened SplineScene

  // ---------------------------------------------------------------------
  // Readiness

  /** The loaded-scenes map and the readiness flag. */
  datatype LoadState = LoadState(loaded: map<string, bool>, isLoaded: bool)

  /** Nothing loaded, not ready. */
  const InitialLoadState := LoadState(map[], false)

  /** The scenes that must load before the route is ready. */
  function RequiredScenes(path: string): (r: seq<string>)
    ensures |r| == 2 && r[1] == "loader"
    ensures r[0] in {"hero", "about"} && (r[0] == "hero" <==> path == "/")
  {
    if path == "/" then ["hero", "loader"] else ["about", "loader"]
  }

  /** `updated[s]` is truthy: the key is present with a `true` flag. */
  predicate IsSceneLoaded(loaded: map<string, bool>, s: string) {
    s in loaded && loaded[s]
  }

  /** `required.every((s) => updated[s])`, scanned left to right. */
  function Every(required: seq<string>, loaded: map<string, bool>): (r: bool)
    ensures r <==> forall i :: 0 <= i < |required| ==> IsSceneLoaded(loaded, required[i])
  {
    if required == [] then true
    else IsSceneLoaded(loaded, required[0]) && Every(required[1..], loaded)
  }

  /** `splineLoaded(scene)` on path `path`: mark the scene and, if every
      required scene is now loaded, set readiness (never clear it). */
  function SplineLoadedStep(st: LoadState, path: string, scene: string): (r: LoadState)
    ensures IsSceneLoaded(r.loaded, scene)
    ensures forall k :: k != scene ==> (k in r.loaded <==> k in st.loaded)
    ensures forall k :: k != scene && k in st.loaded ==> r.loaded[k] == st.loaded[k]
    ensures r.isLoaded <==>
              st.isLoaded || forall s :: s in RequiredScenes(path) ==> IsSceneLoaded(r.loaded, s)
  {
    var updated := st.loaded[scene := true];
    LoadState(updated, st.isLoaded || Every(RequiredScenes(path), updated))
  }

  /** Every flag in the map is `true`: the map only ever receives `true`. */
  predicate OnlyTrueFlags(loaded: map<string, bool>) {
    forall k :: k in loaded ==> loaded[k]
  }

  /** Marking a scene loaded twice is the same as marking it once. */
  lemma SplineLoadedIdempotent(st: LoadState, path: string, scene: string)
    ensures SplineLoadedStep(SplineLoadedStep(st, path, scene), path, scene)
         == SplineLoadedStep(st, path, scene)
  {
    var once := SplineLoadedStep(st, path, scene);
    assert once.loaded[scene := true] == once.loaded;
  }

  /** Readiness and loaded flags only grow. */
  lemma SplineLoadedMonotone(st: LoadState, path: string, scene: string)
    ensures st.isLoaded ==> SplineLoadedStep(st, path, scene).isLoaded
    ensures forall k :: IsSceneLoaded(st.loaded, k) ==>
              IsSceneLoaded(SplineLoadedStep(st, path, scene).loaded, k)
    ensures OnlyTrueFlags(st.loaded) ==> OnlyTrueFlags(SplineLoadedStep(st, path, scene).loaded)
  {
  }

  /** Once every required scene of a path is loaded, loading more keeps it so. */
  lemma EveryMonotone(required: seq<string>, small: map<string, bool>, large: map<string, bool>)
    requires forall k :: IsSceneLoaded(small, k) ==> IsSceneLoaded(large, k)
    ensures Every(required, small) ==> Every(required, large)
  {
  }

  /** On one path, the order in which two scenes report loading does not matter. */
  lemma SplineLoadedCommutes(st: LoadState, path: string, a: string, b: string)
    ensures SplineLoadedStep(SplineLoadedStep(st, path, a), path, b)
         == SplineLoadedStep(SplineLoadedStep(st, path, b), path, a)
  {
    var req := RequiredScenes(path);
    var la, lb := st.loaded[a := true], st.loaded[b := true];
    var lab, lba := la[b := true], lb[a := true];
    assert lab == lba;
    EveryMonotone(req, la, lab);
    EveryMonotone(req, lb, lab);
    assert SplineLoadedStep(SplineLoadedStep(st, path, a), path, b)
        == LoadState(lab, st.isLoaded || Every(req, la) || Every(req, lab));
    assert SplineLoadedStep(SplineLoadedStep(st, path, b), path, a)
        == LoadState(lab, st.isLoaded || Every(req, lb) || Every(req, lab));
  }

  /** On the landing path, "loader" then "hero" makes the coordinator ready
      on the second call and not before. */
  lemma LandingReadinessScenario()
    ensures !SplineLoadedStep(InitialLoadState, "/", "loader").isLoaded
    ensures SplineLoadedStep(SplineLoadedStep(InitialLoadState, "/", "loader"), "/", "hero").isLoaded
  {
    var first := SplineLoadedStep(InitialLoadState, "/", "loader");
    assert !IsSceneLoaded(first.loaded, "hero");
    assert RequiredScenes("/")[0] == "hero";
  }

  /** On any other path the landing scene does not count: "hero" and
      "loader" alone never make it ready. */
  lemma AboutNeedsAboutScene(path: string)
    requires path != "/"
    ensures !SplineLoadedStep(SplineLoadedStep(InitialLoadState, path, "loader"), path, "hero").isLoaded
  {
    var both := SplineLoadedStep(SplineLoadedStep(InitialLoadState, path, "loader"), path, "hero");
    assert !IsSceneLoaded(both.loaded, "about");
    assert RequiredScenes(path)[0] == "about";
  }

  /** A `splineLoaded` call together with the path at the time of the call. */
  datatype LoadCall = LoadCall(path: string, scene: string)

  /** The load state after a sequence of calls, route changes included. */
  function Replay(st: LoadState, calls: seq<LoadCall>): LoadState
    decreases |calls|
  {
    if calls == [] then st
    else Replay(SplineLoadedStep(st, calls[0].path, calls[0].scene), calls[1..])
  }

  /** No sequence of calls, across any route changes, clears readiness or a
      loaded flag. */
  lemma {:induction false} ReplayMonotone(st: LoadState, calls: seq<LoadCall>)
    ensures st.isLoaded ==> Replay(st, calls).isLoaded
    ensures forall k :: IsSceneLoaded(st.loaded, k) ==> IsSceneLoaded(Replay(st, calls).loaded, k)
    ensures forall i :: 0 <= i < |calls| ==> IsSceneLoaded(Replay(st, calls).loaded, calls[i].scene)
    decreases |calls|
  {
    if calls != [] {
      var next := SplineLoadedStep(st, calls[0].path, calls[0].scene);
      ReplayMonotone(next, calls[1..]);
      forall i | 0 <= i < |calls| ensures IsSceneLoaded(Replay(st, calls).loaded, calls[i].scene) {
        if i > 0 { assert calls[i] == calls[1..][i - 1]; }
      }
    }
  }

  // ---------------------------------------------------------------------
  // Animation dispatch

  /** What the caller passed as the animation type: a string, or (as the hero,
      scroll and theme-toggle components do) an object of parameters. */
  datatype AnimationArg = Named(name: string) | ObjectArg

  /** The four animation kinds the dispatch recognises. */
  datatype AnimationKind = Rotate | Scroll | Click | ColorShift

  /** The `switch` on the animation type; `None` is the `default: break` case. */
  function KindOf(arg: AnimationArg): (r: Option<AnimationKind>)
    ensures r.Some? <==> arg.Named? && arg.name in {"rotate", "scroll", "click", "colorShift"}
    ensures r == Some(Rotate) <==> arg == Named("rotate")
    ensures r == Some(Scroll) <==> arg == Named("scroll")
    ensures r == Some(Click) <==> arg == Named("click")
    ensures r == Some(ColorShift) <==> arg == Named("colorShift")
  {
    match arg
    case ObjectArg => None
    case Named(n) =>
      if n == "rotate" then Some(Rotate)
      else if n == "scroll" then Some(Scroll)
      else if n == "click" then Some(Click)
      else if n == "colorShift" then Some(ColorShift)
      else None
  }

  /** The parameter bag; `None` is an undefined field. */
  datatype Params = Params(rotateX: Option<real>, rotateY: Option<real>, scale: Option<real>,
                           rotate: Option<real>, theme: Option<string>)

  /** The default `params = {}`. */
  const NoParams := Params(None, None, None, None, None)

  /** A setter call made only when the parameter is defined. */
  function IfDefined(prop: Prop, v: Option<real>): (r: seq<SetterCall>)
    ensures |r| <= 1 && (r != [] <==> v.Some?)
    ensures forall c :: c in r ==> c.prop == prop && Some(c.value) == v
  {
    if v.Some? then [SetterCall(prop, v.value)] else []
  }

  /** A number is truthy when it is defined and not zero. */
  predicate Truthy(v: Option<real>): (b: bool)
    ensures v == None || v == Some(0.0) ==> !b
    ensures v.Some? && v.value != 0.0 ==> b
  {
    v.Some? && v.value != 0.0
  }

  /** The properties each transform-writing kind may write. */
  function WritableProps(kind: AnimationKind): set<Prop> {
    match kind
    case Rotate => {RotateX, RotateY}
    case Scroll => {Scale, RotateZ}
    case Click => {Scale}
    case ColorShift => {}
  }

  /** The transform setter calls a kind makes on "MainObject", in order. */
  function SetterCallsFor(kind: AnimationKind, params: Params): (r: seq<SetterCall>)
    ensures Props(r) <= WritableProps(kind)
    ensures DistinctProps(r)
    ensures kind == Rotate ==>
              (RotateX in Props(r) <==> params.rotateX.Some?) && (RotateY in Props(r) <==> params.rotateY.Some?)
    ensures kind == Scroll ==>
              (Scale in Props(r) <==> params.scale.Some?) && (RotateZ in Props(r) <==> params.rotate.Some?)
    ensures kind == Click ==> (Scale in Props(r) <==> Truthy(params.scale))
    ensures forall i :: 0 <= i < |r| ==> r[i].value == ParamFor(kind, r[i].prop, params)
  {
    match kind
    case Rotate =>
      var a, b := IfDefined(RotateX, params.rotateX), IfDefined(RotateY, params.rotateY);
      PropsOfShort(a, b);
      a + b
    case Scroll =>
      var a, b := IfDefined(Scale, params.scale), IfDefined(RotateZ, params.rotate);
      PropsOfShort(a, b);
      a + b
    case Click =>
      var a := if Truthy(params.scale) then [SetterCall(Scale, params.scale.value)] else [];
      PropsOfShort(a, []);
      assert a + [] == a;
      a
    case ColorShift => []
  }

  /** Which parameter feeds which property; `rotate` feeds `rotateZ`. */
  function ParamFor(kind: AnimationKind, p: Prop, params: Params): real {
    var v := match p
      case RotateX => params.rotateX
      case RotateY => params.rotateY
      case RotateZ => params.rotate
      case Scale => params.scale
      case _ => None;
    v.GetOr(0.0)
  }

  /** The colour every material receives on a colour shift. */
  function ThemeColor(theme: Option<string>): (c: Color)
    ensures c == DarkTint <==> theme == Some("dark")
    ensures c == DarkTint || c == LightTint
  {
    if theme == Some("dark") then DarkTint else LightTint
  }

  /** Every material set to one colour. */
  function Recolored(materials: seq<Color>, c: Color): (r: seq<Color>)
    ensures |r| == |materials| && forall i :: 0 <= i < |r| ==> r[i] == c
  {
    seq(|materials|, _ => c)
  }

  /** The value of the target handle after `animateSplineObject(arg, params)`. */
  function Animated(s: Scene, arg: AnimationArg, params: Params): (r: Scene)
    ensures KindOf(arg).None? ==> r == s
    ensures r.objects.Keys == s.objects.Keys && |r.materials| == |s.materials|
    ensures KindOf(arg) == Some(ColorShift) ==>
              r.objects == s.objects && r.materials == Recolored(s.materials, ThemeColor(params.theme))
    ensures KindOf(arg).Some? && KindOf(arg) != Some(ColorShift) ==> r.materials == s.materials
    ensures forall n :: n in s.objects && n != MainObject && n != ButtonClickAnimation ==>
              r.objects[n] == s.objects[n]
    ensures KindOf(arg) != Some(Click) ==>
              forall n :: n in s.objects && n != MainObject ==> r.objects[n] == s.objects[n]
    ensures KindOf(arg).Some? && KindOf(arg) != Some(ColorShift) ==>
              if MainObject in s.objects && s.objects[MainObject].transform.Some? then
                r.objects[MainObject] == s.objects[MainObject].(transform := Some(RunSetters(
                  s.objects[MainObject].transform.value, SetterCallsFor(KindOf(arg).value, params)).0))
              else r == s
  {
    match KindOf(arg)
    case None => s
    case Some(kind) =>
      if kind == ColorShift then
        s.(materials := Recolored(s.materials, ThemeColor(params.theme)))
      else if MainObject in s.objects && s.objects[MainObject].transform.Some? then
        var main := s.objects[MainObject];
        var run := RunSetters(main.transform.value, SetterCallsFor(kind, params));
        var s1 := s.(objects := s.objects[MainObject := main.(transform := Some(run.0))]);
        if kind == Click && run.1 then Play(s1, ButtonClickAnimation) else s1
      else s
  }

  /** A transform-writing kind changes, on "MainObject", only the properties
      it is allowed to write; with every needed setter present, each defined
      parameter lands on its property. */
  lemma AnimatedWritesOnlyItsProps(s: Scene, arg: AnimationArg, params: Params)
    requires KindOf(arg).Some? && KindOf(arg) != Some(ColorShift)
    requires MainObject in s.objects && s.objects[MainObject].transform.Some?
    ensures var t := s.objects[MainObject].transform.value;
            var r := Animated(s, arg, params).objects[MainObject];
            && r.transform.Some? && r.transform.value.Keys == t.Keys
            && r.canPlay == s.objects[MainObject].canPlay
            && (forall p :: p in t && p !in WritableProps(KindOf(arg).value) ==> r.transform.value[p] == t[p])
            && (WritableProps(KindOf(arg).value) <= t.Keys ==>
                  forall c :: c in SetterCallsFor(KindOf(arg).value, params) ==>
                    r.transform.value[c.prop] == c.value)
  {
    var kind := KindOf(arg).value;
    var calls := SetterCallsFor(kind, params);
    var t := s.objects[MainObject].transform.value;
    var run := RunSetters(t, calls);
    if WritableProps(kind) <= t.Keys {
      forall c | c in calls ensures run.0[c.prop] == c.value {
        var i :| 0 <= i < |calls| && calls[i] == c;
      }
    }
  }

  /** A rotate call with both angles, on a "MainObject" that has both
      rotation setters, sets exactly those two angles. */
  lemma RotateSetsBothAngles(s: Scene, rx: real, ry: real)
    requires MainObject in s.objects && s.objects[MainObject].transform.Some?
    requires RotateX in s.objects[MainObject].transform.value
    requires RotateY in s.objects[MainObject].transform.value
    ensures var t := s.objects[MainObject].transform.value;
            Animated(s, Named("rotate"), NoParams.(rotateX := Some(rx), rotateY := Some(ry))).objects[MainObject]
              == s.objects[MainObject].(transform := Some(t[RotateX := rx][RotateY := ry]))
  {
    var params := NoParams.(rotateX := Some(rx), rotateY := Some(ry));
    var t := s.objects[MainObject].transform.value;
    var calls := SetterCallsFor(Rotate, params);
    assert calls == [SetterCall(RotateX, rx), SetterCall(RotateY, ry)];
    var run := RunSetters(t, calls);
    assert run.0 == t[RotateX := rx][RotateY := ry];
  }

  /** A rotate call whose first setter is missing throws before the second
      one: nothing changes although `rotateY` was given and settable. */
  lemma RotateAbortsOnMissingSetter(s: Scene, rx: real, ry: real)
    requires MainObject in s.objects && s.objects[MainObject].transform.Some?
    requires RotateX !in s.objects[MainObject].transform.value
    ensures Animated(s, Named("rotate"), NoParams.(rotateX := Some(rx), rotateY := Some(ry))) == s
  {
    var t := s.objects[MainObject].transform.value;
    assert s.objects[MainObject := s.objects[MainObject].(transform := Some(t))] == s.objects;
  }

  /** A click whose scale call ran, which schedules the 200 ms scale-back:
      the call was made and did not throw, so the new scale is on the object. */
  predicate ScalesOnClick(target: Option<Scene>, arg: AnimationArg, params: Params): (b: bool)
    ensures b <==> && target.Some? && KindOf(arg) == Some(Click) && Truthy(params.scale)
                   && MainObject in target.value.objects && target.value.objects[MainObject].transform.Some?
                   && RunSetters(target.value.objects[MainObject].transform.value, SetterCallsFor(Click, params)).1
    ensures b ==> Animated(target.value, arg, params).objects[MainObject].transform
                    == Some(target.value.objects[MainObject].transform.value[Scale := params.scale.value])
  {
    && target.Some? && KindOf(arg) == Some(Click) && Truthy(params.scale)
    && MainObject in target.value.objects && target.value.objects[MainObject].transform.Some?
    && Scale in target.value.objects[MainObject].transform.value
  }

  /** A click on a "MainObject" with a transform plays a playable
      "ButtonClickAnimation" exactly once when the scale call (if made)
      found its setter, and leaves one without `play` alone; when a truthy scale finds no setter the throw is
      caught and the scene is left as it was. */
  lemma ClickPlays(s: Scene, params: Params)
    requires MainObject in s.objects && s.objects[MainObject].transform.Some?
    ensures var t := s.objects[MainObject].transform.value;
            var r := Animated(s, Named("click"), params);
            (!Truthy(params.scale) || Scale in t) && ButtonClickAnimation in s.objects
              && s.objects[ButtonClickAnimation].canPlay ==>
              r.objects[ButtonClickAnimation]
                == s.objects[ButtonClickAnimation].(plays := s.objects[ButtonClickAnimation].plays + 1)
    ensures ButtonClickAnimation in s.objects && !s.objects[ButtonClickAnimation].canPlay ==>
              Animated(s, Named("click"), params).objects[ButtonClickAnimation] == s.objects[ButtonClickAnimation]
    ensures Truthy(params.scale) && Scale !in s.objects[MainObject].transform.value ==>
              Animated(s, Named("click"), params) == s
  {
    var t := s.objects[MainObject].transform.value;
    var calls := SetterCallsFor(Click, params);
    if Truthy(params.scale) && Scale !in t {
      assert s.objects[MainObject := s.objects[MainObject].(transform := Some(t))] == s.objects;
    }
  }

  /** The reset operation's effect on a handle value: "MainObject"'s existing
      setters receive the default transform. */
  function Reset(s: Scene): (r: Scene)
    ensures r.materials == s.materials && r.objects.Keys == s.objects.Keys
    ensures forall n :: n in s.objects && n != MainObject ==> r.objects[n] == s.objects[n]
    ensures MainObject in s.objects && s.objects[MainObject].transform.Some? ==>
              var t := s.objects[MainObject].transform.value;
              r.objects[MainObject].transform == Some(ResetTransform(t))
              && forall p :: p in t ==> r.objects[MainObject].transform.value[p] == DefaultValue(p)
    ensures !(MainObject in s.objects && s.objects[MainObject].transform.Some?) ==> r == s
  {
    if MainObject in s.objects && s.objects[MainObject].transform.Some? then
      var main := s.objects[MainObject];
      s.(objects := s.objects[MainObject := main.(transform := Some(ResetTransform(main.transform.value)))])
    else s
  }

  /** The transform after the first `i` entries of the default table. */
  function PartialReset(t: Transform, i: nat): Transform
    requires i <= |DefaultTransform|
  {
    map p | p in t :: if p in Props(DefaultTransform[..i]) then DefaultValue(p) else t[p]
  }

  lemma PartialResetStep(t: Transform, i: nat)
    requires i < |DefaultTransform|
    ensures var e := DefaultTransform[i];
            PartialReset(t, i + 1) == if e.prop in t then PartialReset(t, i)[e.prop := e.value]
                                      else PartialReset(t, i)
  {
    var e := DefaultTransform[i];
    assert DefaultTransform[..i + 1] == DefaultTransform[..i] + [e];
    assert Props(DefaultTransform[..i + 1]) == Props(DefaultTransform[..i]) + {e.prop} by {
      var pre := DefaultTransform[..i + 1];
      forall p | p in Props(pre) ensures p in Props(DefaultTransform[..i]) + {e.prop} {
        var j :| 0 <= j < |pre| && pre[j].prop == p;
        if j < i { assert DefaultTransform[..i][j].prop == p; }
      }
      assert pre[i].prop == e.prop;
      forall p | p in Props(DefaultTransform[..i]) ensures p in Props(pre) {
        var j :| 0 <= j < i && DefaultTransform[..i][j].prop == p;
        assert pre[j].prop == p;
      }
    }
  }

  lemma PartialResetDone(t: Transform)
    ensures PartialReset(t, |DefaultTransform|) == ResetTransform(t)
  {
    var all := DefaultTransform[..|DefaultTransform|];
    assert all == DefaultTransform;
    assert all[0].prop == X && all[1].prop == Y && all[2].prop == Z && all[3].prop == RotateX;
    assert all[4].prop == RotateY && all[5].prop == RotateZ && all[6].prop == Scale;
    forall p: Prop ensures p in Props(all) {
      match p
      case X => assert all[0].prop == p;
      case Y => assert all[1].prop == p;
      case Z => assert all[2].prop == p;
      case RotateX => assert all[3].prop == p;
      case RotateY => assert all[4].prop == p;
      case RotateZ => assert all[5].prop == p;
      case Scale => assert all[6].prop == p;
    }
  }

  lemma PartialResetNone(t: Transform)
    ensures PartialReset(t, 0) == t
  {
    assert DefaultTransform[..0] == [];
  }

  /** `useSplineContext()`: outside a provider it throws instead of returning. */
  function UseSplineContext<C>(context: Option<C>): (r: Result<C, string>)
    ensures r.Ok? <==> context.Some?
    ensures r.Ok? ==> r.value == context.value
    ensures r.Err? ==> r.error == "useSplineContext must be used within a SplineProvider"
  {
    match context
    case Some(c) => Ok(c)
    case None => Err("useSplineContext must be used within a SplineProvider")
  }

  // ---------------------------------------------------------------------
  // The provider's state

  /** The `SplineProvider` state: `splineObjectsRef.current`, `loadedScenes`,
      `isLoaded` and the current `pathname`; `scaleBacks` holds the handles of
      pending 200 ms click scale-back timers, oldest first. */
  class SceneCoordinator {
    var registry: map<string, SceneHandle>
    var loaded: map<string, bool>
    var isLoaded: bool
    var pathname: string
    var scaleBacks: seq<SceneHandle>

    /** The loaded map only ever holds `true` flags. */
    predicate Valid()
      reads this
    {
      OnlyTrueFlags(loaded)
    }

    /** Every scene marked loaded also has a registered handle. */
    predicate LoadedAreRegistered()
      reads this
    {
      forall k :: k in loaded ==> k in registry
    }

    function Load(): LoadState
      reads this
    {
      LoadState(loaded, isLoaded)
    }

    /** Empty registry, nothing loaded, not ready. */
    constructor (pathname: string)
      ensures Valid() && LoadedAreRegistered()
      ensures registry == map[] && Load() == InitialLoadState
      ensures this.pathname == pathname && scaleBacks == []
    {
      registry := map[];
      loaded := map[];
      isLoaded := false;
      this.pathname := pathname;
      scaleBacks := [];
    }

    /** The scene an animation targets: "hero" on the landing path, "about"
        on every other. */
    function TargetKey(): (k: string)
      reads this
      ensures k in {"hero", "about"} && (k == "hero" <==> pathname == "/")
    {
      if pathname == "/" then "hero" else "about"
    }

    /** The handle registered under `key`, as a frame. */
    function HandleFrame(key: string): set<object>
      reads this
    {
      if key in registry then {registry[key]} else {}
    }

    /** The value of the handle under `key`, if any. */
    function HandleSnapshot(key: string): Option<Scene>
      reads this, HandleFrame(key)
    {
      if key in registry then Some(registry[key].Snapshot()) else None
    }

    /** `registerSplineObject(key, obj)`: store or overwrite one entry. */
    method RegisterSplineObject(key: string, obj: SceneHandle)
      modifies this`registry
      ensures registry == old(registry)[key := obj]
      ensures old(LoadedAreRegistered()) ==> LoadedAreRegistered()
    {
      registry := registry[key := obj];
    }

    /** `splineLoaded(scene)`: the state follows `SplineLoadedStep` on the
        current path. */
    method SplineLoaded(scene: string)
      requires Valid()
      modifies this`loaded, this`isLoaded
      ensures Valid()
      ensures Load() == SplineLoadedStep(old(Load()), pathname, scene)
      ensures old(isLoaded) ==> isLoaded
      ensures old(LoadedAreRegistered()) && scene in registry ==> LoadedAreRegistered()
    {
      var updated := loaded[scene := true];
      var allLoaded := Every(RequiredScenes(pathname), updated);
      if allLoaded {
        isLoaded := true;
      }
      loaded := updated;
    }

    /** A route change: only the path changes; readiness is kept. */
    method Navigate(path: string)
      modifies this`pathname
      ensures pathname == path
    {
      pathname := path;
    }

    /** `resetSplineObject(page)`: no handle, no change; otherwise the default
        transform goes to the existing setters of the handle's "MainObject". */
    method ResetSplineObject(page: string)
      modifies HandleFrame(page)
      ensures page in registry ==> registry[page].Snapshot() == Reset(old(registry[page].Snapshot()))
    {
      if page !in registry {
        return;
      }
      var spline := registry[page];
      if spline.HasTransform(MainObject) {
        ghost var o0 := spline.objects;
        var main := spline.objects[MainObject];
        var t0 := main.transform.value;
        PartialResetNone(t0);
        var i := 0;
        while i < |DefaultTransform|
          invariant 0 <= i <= |DefaultTransform|
          invariant spline.materials == old(spline.materials)
          invariant spline.objects == o0[MainObject := main.(transform := Some(PartialReset(t0, i)))]
        {
          var entry := DefaultTransform[i];
          PartialResetStep(t0, i);
          if entry.prop in spline.objects[MainObject].transform.value {
            var _ := spline.CallSetter(MainObject, entry.prop, entry.value);
          }
          i := i + 1;
        }
        PartialResetDone(t0);
      }
    }

    /** `animateSplineObject(arg, params)`: the handle of the current route
        follows `Animated`; no other handle is touched; a successful click
        scale schedules one scale-back. */
    method AnimateSplineObject(arg: AnimationArg, params: Params)
      modifies HandleFrame(TargetKey()), this`scaleBacks
      ensures TargetKey() in registry ==>
                registry[TargetKey()].Snapshot() == Animated(old(registry[TargetKey()].Snapshot()), arg, params)
      ensures forall h :: h in registry.Values && h !in old(HandleFrame(TargetKey())) ==>
                h.Snapshot() == old(h.Snapshot())
      ensures scaleBacks == old(scaleBacks) +
                if ScalesOnClick(old(HandleSnapshot(TargetKey())), arg, params)
                then [registry[TargetKey()]] else []
    {
      var currentPage := TargetKey();
      if currentPage !in registry {
        return;
      }
      var spline := registry[currentPage];
      ghost var s0 := spline.Snapshot();
      var kind := KindOf(arg);
      if kind == Some(Rotate) {
        if spline.HasTransform(MainObject) {
          var _ := RunOnMainObject(spline, IfDefined(RotateX, params.rotateX), IfDefined(RotateY, params.rotateY));
        }
      } else if kind == Some(Scroll) {
        if spline.HasTransform(MainObject) {
          var _ := RunOnMainObject(spline, IfDefined(Scale, params.scale), IfDefined(RotateZ, params.rotate));
        }
      } else if kind == Some(Click) {
        if spline.HasTransform(MainObject) {
          var scale := if Truthy(params.scale) then [SetterCall(Scale, params.scale.value)] else [];
          assert scale + [] == scale;
          var ok := RunOnMainObject(spline, scale, []);
          if ok && scale != [] {
            scaleBacks := scaleBacks + [spline];
          }
          if ok {
            spline.PlayIfAvailable(ButtonClickAnimation);
          }
        }
      } else if kind == Some(ColorShift) {
        RecolorMaterials(spline, ThemeColor(params.theme));
      }
    }

    /** The click animation's scale-back timer fires: the oldest pending one
        sets "MainObject"'s scale back to 1 on the handle it captured. */
    method ScaleBackFires()
      requires scaleBacks != []
      modifies this`scaleBacks, scaleBacks[0]
      ensures scaleBacks == old(scaleBacks[1..])
      ensures var h := old(scaleBacks[0]);
              h.materials == old(h.materials)
              && (old(h.HasTransform(MainObject)) && Scale in old(h.objects[MainObject].transform.value) ==>
                    h.objects == old(h.objects)[MainObject := old(h.objects[MainObject]).(transform :=
                      Some(old(h.objects[MainObject].transform.value)[Scale := 1.0]))])
              && (!(old(h.HasTransform(MainObject)) && Scale in old(h.objects[MainObject].transform.value)) ==>
                    h.objects == old(h.objects))
    {
      var h := scaleBacks[0];
      scaleBacks := scaleBacks[1..];
      if h.HasTransform(MainObject) {
        var _ := h.CallSetter(MainObject, Scale, 1.0);
      }
    }
  }

  /** The transform-writing cases of the dispatch: up to two setter calls on
      "MainObject", the second skipped when the first throws. */
  method RunOnMainObject(h: SceneHandle, first: seq<SetterCall>, second: seq<SetterCall>)
      returns (completed: bool)
    requires h.HasTransform(MainObject) && |first| <= 1 && |second| <= 1
    modifies h
    ensures var t0 := old(h.objects[MainObject].transform.value);
            var run := RunSetters(t0, first + second);
            && completed == run.1
            && h.materials == old(h.materials)
            && h.objects == old(h.objects)[MainObject := old(h.objects[MainObject]).(transform := Some(run.0))]
  {
    RunSettersAppend(h.objects[MainObject].transform.value, first, second);
    completed := true;
    if first != [] {
      completed := h.CallSetter(MainObject, first[0].prop, first[0].value);
    }
    if completed && second != [] {
      completed := h.CallSetter(MainObject, second[0].prop, second[0].value);
    }
  }

  /** The colour-shift case: every material of the handle receives `color`. */
  method RecolorMaterials(h: SceneHandle, color: Color)
    modifies h
    ensures h.objects == old(h.objects)
    ensures h.materials == Recolored(old(h.materials), color)
  {
    var n := |h.materials|;
    var i := 0;
    while i < n
      invariant 0 <= i <= n && |h.materials| == n
      invariant h.objects == old(h.objects)
      invariant forall j :: 0 <= j < i ==> h.materials[j] == color
      invariant forall j :: i <= j < n ==> h.materials[j] == old(h.materials[j])
    {
      h.SetMaterialColor(i, color);
      i := i + 1;
    }
  }

  /** Running two lists of setter calls back to back: the second list runs
      only if the first completed. */
  lemma RunSettersAppend(t: Transform, first: seq<SetterCall>, second: seq<SetterCall>)
    requires |first| <= 1 && |second| <= 1
    ensures var r1 := RunSetters(t, first);
            RunSetters(t, first + second) == if r1.1 then RunSetters(r1.0, second) else r1
  {
    if first != [] {
      assert (first + second)[1..] == second;
    } else {
      assert first + second == second;
    }
  }
}
