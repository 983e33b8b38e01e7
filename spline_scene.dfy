/** The abstract 3D-scene handle that the renderer hands to `onLoad`: named
    scene objects, each with an optional transform whose setters are a subset
    of the seven properties the coordinator uses, and a list of materials. */
module SplineScene {
  import opened Wrappers

  /** The transform setters the coordinator calls, in the order of the
      default-transform table of the reset operation. */
  datatype Prop = X | Y | Z | RotateX | RotateY | RotateZ | Scale

  /** A transform: the properties whose setter exists, with their current value. */
  type Transform = map<Prop, real>

  /** A named scene object: `transform` is `None` when the object has none;
      `canPlay` says whether `play` is a function; `plays` counts its calls. */
  datatype SceneObject = SceneObject(transform: Option<Transform>, canPlay: bool, plays: nat)

  /** Material colours are opaque: the two the coordinator writes, or any other. */
  datatype Color = DarkTint | LightTint | Original(id: nat)

  /** The value of a handle at one instant. */
  datatype Scene = Scene(objects: map<string, SceneObject>, materials: seq<Color>)

  const MainObject := "MainObject"
  const ButtonClickAnimation := "ButtonClickAnimation"

  /** One call `transform[prop](value)`. */
  datatype SetterCall = SetterCall(prop: Prop, value: real)

  /** The properties written by a list of setter calls. */
  function Props(calls: seq<SetterCall>): set<Prop> {
    set i | 0 <= i < |calls| :: calls[i].prop
  }

  /** The properties of at most two consecutive single calls. */
  lemma PropsOfShort(a: seq<SetterCall>, b: seq<SetterCall>)
    requires |a| <= 1 && |b| <= 1
    ensures Props(a + b) == Props(a) + Props(b)
    ensures |a| == 1 ==> Props(a) == {a[0].prop}
    ensures |b| == 1 ==> Props(b) == {b[0].prop}
  {
    var ab := a + b;
    if |a| == 1 {
      assert a[0] == ab[0];
      if |b| == 1 { assert b[0] == ab[1]; }
    } else {
      assert ab == b;
    }
  }

  /** No property is written twice. */
  predicate DistinctProps(calls: seq<SetterCall>) {
    forall i, j :: 0 <= i < j < |calls| ==> calls[i].prop != calls[j].prop
  }

  /** Runs setter calls in order. Calling a setter that is not a function
      throws, which abandons the remaining calls; `completed` says whether
      every call ran. */
  function RunSetters(t: Transform, calls: seq<SetterCall>): (r: (Transform, bool))
    ensures r.0.Keys == t.Keys
    ensures forall p :: p in t && p !in Props(calls) ==> r.0[p] == t[p]
    ensures r.1 <==> Props(calls) <= t.Keys
    ensures r.1 && DistinctProps(calls) ==>
              forall i :: 0 <= i < |calls| ==> r.0[calls[i].prop] == calls[i].value
    decreases |calls|
  {
    if calls == [] then (t, true)
    else if calls[0].prop !in t then (t, false)
    else
      var rest := RunSetters(t[calls[0].prop := calls[0].value], calls[1..]);
      assert Props(calls) == {calls[0].prop} + Props(calls[1..]) by {
        forall p | p in Props(calls) ensures p in {calls[0].prop} + Props(calls[1..]) {
          var i :| 0 <= i < |calls| && calls[i].prop == p;
          if i > 0 { assert calls[1..][i - 1].prop == p; }
        }
      }
      rest
  }

  /** The transform the reset operation writes: position and rotation zero,
      unit scale. */
  function DefaultValue(p: Prop): real {
    if p == Scale then 1.0 else 0.0
  }

  /** The default-transform table in its own iteration order. */
  const DefaultTransform: seq<SetterCall> := [
    SetterCall(X, 0.0), SetterCall(Y, 0.0), SetterCall(Z, 0.0),
    SetterCall(RotateX, 0.0), SetterCall(RotateY, 0.0), SetterCall(RotateZ, 0.0),
    SetterCall(Scale, 1.0)
  ]

  /** The table names every property once, each with its default value. */
  lemma DefaultTransformTable()
    ensures |DefaultTransform| == 7 && DistinctProps(DefaultTransform)
    ensures forall p: Prop :: p in Props(DefaultTransform)
    ensures forall i :: 0 <= i < |DefaultTransform| ==>
              DefaultTransform[i].value == DefaultValue(DefaultTransform[i].prop)
  {
    forall p: Prop ensures p in Props(DefaultTransform) {
      var i := match p
        case X => 0 case Y => 1 case Z => 2
        case RotateX => 3 case RotateY => 4 case RotateZ => 5 case Scale => 6;
      assert DefaultTransform[i].prop == p;
    }
  }

  /** Every existing setter set to its default; missing setters skipped. */
  function ResetTransform(t: Transform): (r: Transform)
    ensures r.Keys == t.Keys
    ensures forall i :: 0 <= i < |DefaultTransform| && DefaultTransform[i].prop in t ==>
              r[DefaultTransform[i].prop] == DefaultTransform[i].value
  {
    map p | p in t :: DefaultValue(p)
  }

  /** The handle object the renderer passes to `onLoad`. Its scene objects and
      materials are updated in place by the coordinator. */
  class SceneHandle {
    var objects: map<string, SceneObject>
    var materials: seq<Color>

    constructor (objects: map<string, SceneObject>, materials: seq<Color>)
      ensures this.objects == objects && this.materials == materials
    {
      this.objects := objects;
      this.materials := materials;
    }

    /** The handle's current value. */
    function Snapshot(): Scene
      reads this
    {
      Scene(objects, materials)
    }

    /** `findObjectByName(name)` returned an object that has a transform. */
    predicate HasTransform(name: string)
      reads this
    {
      name in objects && objects[name].transform.Some?
    }

    /** `obj.transform[prop](value)`; `ok` is false when that setter is not a
        function (the call throws and nothing changes). */
    method CallSetter(name: string, prop: Prop, value: real) returns (ok: bool)
      requires HasTransform(name)
      modifies this
      ensures materials == old(materials)
      ensures ok <==> prop in old(objects[name].transform.value)
      ensures objects == if ok then old(objects)[name := old(objects[name]).(transform :=
                Some(old(objects[name].transform.value)[prop := value]))]
              else old(objects)
    {
      var obj := objects[name];
      var t := obj.transform.value;
      ok := prop in t;
      if ok {
        objects := objects[name := obj.(transform := Some(t[prop := value]))];
      }
    }

    /** `findObjectByName(name)` and, when it has a `play` function, call it. */
    method PlayIfAvailable(name: string)
      modifies this
      ensures materials == old(materials)
      ensures objects == Play(old(Snapshot()), name).objects
    {
      if name in objects && objects[name].canPlay {
        var obj := objects[name];
        objects := objects[name := obj.(plays := obj.plays + 1)];
      }
    }

    /** `material.color = color` on the `i`-th material. */
    method SetMaterialColor(i: nat, color: Color)
      requires i < |materials|
      modifies this
      ensures objects == old(objects)
      ensures materials == old(materials)[i := color]
    {
      materials := materials[i := color];
    }
  }

  /** The effect of playing the named object's animation sequence, if it can. */
  function Play(s: Scene, name: string): (r: Scene)
    ensures r.materials == s.materials && r.objects.Keys == s.objects.Keys
    ensures forall n :: n in s.objects && n != name ==> r.objects[n] == s.objects[n]
    ensures !(name in s.objects && s.objects[name].canPlay) ==> r == s
    ensures name in s.objects && s.objects[name].canPlay ==>
              r.objects[name] == s.objects[name].(plays := s.objects[name].plays + 1)
  {
    if name in s.objects && s.objects[name].canPlay then
      s.(objects := s.objects[name := s.objects[name].(plays := s.objects[name].plays + 1)])
    else s
  }
}
