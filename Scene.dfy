/**
 * The scene graph of the viewer as a flat sequence of tagged children, and what
 * `setupLights`, the helper toggle and the camera framing of the load callback (main.js)
 * do to it, as functions on values.
 */
module Scene {
  import opened Wrappers
  import opened Routing

  datatype Vec3 = Vec3(x: real, y: real, z: real)

  const Origin: Vec3 := Vec3(0.0, 0.0, 0.0)

  function Scale(v: Vec3, k: real): Vec3
  {
    Vec3(v.x * k, v.y * k, v.z * k)
  }

  /** `new Vector3().sub(v)`: the position of a fresh object after subtracting v. */
  function Neg(v: Vec3): Vec3
  {
    Vec3(-v.x, -v.y, -v.z)
  }

  // ---------------------------------------------------------------- scene children

  /** The five directional lights of the rig. */
  datatype Role = Main1 | Main2 | Fill | Back1 | Back2

  const Roles: seq<Role> := [Main1, Main2, Fill, Back1, Back2]

  /** Shadow parameters of a shadow-casting directional light. */
  datatype Shadow = Shadow(mapWidth: nat, mapHeight: nat, near: real, far: real,
                           left: real, right: real, top: real, bottom: real, normalBias: real)

  /** A light; every light of the rig is white. */
  datatype Light =
    | Ambient(intensity: real)
    | Directional(role: Role, position: Vec3, target: Vec3, intensity: real, shadow: Option<Shadow>)

  /** The debug helpers `createScene` adds besides its axis labels. */
  datatype HelperKind = CameraHelper | AxesHelper | OriginSphere

  /** A loaded mesh: its material changes when the liver material is toggled. */
  class MeshNode {
    var material: Material
    const renderOrder: nat
    const position: Vec3

    constructor(material: Material, renderOrder: nat, position: Vec3)
      ensures this.material == material && this.renderOrder == renderOrder && this.position == position
    {
      this.material := material;
      this.renderOrder := renderOrder;
      this.position := position;
    }
  }

  /** A child of the scene. Labels are CSS2D objects; labels and helpers are named 'helper'. */
  datatype Child =
    | LightChild(light: Light)
    | Target(position: Vec3)
    | Label(text: string, position: Vec3, visible: bool)
    | LightHelper(role: Role, size: real, visible: bool)
    | DebugHelper(kind: HelperKind, visible: bool)
    | Mesh(node: MeshNode)

  // ---------------------------------------------------------------- light table

  /** The four intensity tiers of one display mode. */
  datatype Tiers = Tiers(ambient: real, main: real, fill: real, back: real)

  /** Dark mode dims the ambient light and brightens the directional ones. */
  function TiersOf(dark: bool): Tiers
  {
    if dark then Tiers(0.5, 0.7, 0.4, 0.3) else Tiers(0.7, 0.5, 0.3, 0.2)
  }

  /** Each main light and each back light takes 0.6 or 0.4 of its tier; the fill light takes the whole fill tier. */
  function RoleIntensity(t: Tiers, r: Role): real
  {
    match r
    case Main1 => t.main * 0.6
    case Main2 => t.main * 0.4
    case Fill => t.fill
    case Back1 => t.back * 0.6
    case Back2 => t.back * 0.4
  }

  /** The distance of the lights from the origin, in units of the model size. */
  function LightDistance(modelSize: real): real
  {
    modelSize * 1.5
  }

  /** The fixed coefficients of each light's position. */
  function Direction(r: Role): Vec3
  {
    match r
    case Main1 => Vec3(0.8, 0.6, 0.7)
    case Main2 => Vec3(0.6, 0.7, 0.8)
    case Fill => Vec3(-0.5, 0.3, 0.5)
    case Back1 => Vec3(-0.2, 0.5, -0.8)
    case Back2 => Vec3(0.2, 0.4, -0.8)
  }

  function LightPosition(r: Role, modelSize: real): Vec3
  {
    Scale(Direction(r), LightDistance(modelSize))
  }

  /** The shadow of the first main light: a square frustum of half-width modelSize, reaching 3 light distances. */
  function MainShadow(modelSize: real): Shadow
  {
    Shadow(2048, 2048, 0.5, LightDistance(modelSize) * 3.0, -modelSize, modelSize, modelSize, -modelSize, 0.02)
  }

  function DirectionalLight(r: Role, dark: bool, center: Vec3, modelSize: real): Light
  {
    Directional(r, LightPosition(r, modelSize), center, RoleIntensity(TiersOf(dark), r),
                if r == Main1 then Some(MainShadow(modelSize)) else None)
  }

  function LabelText(r: Role): string
  {
    match r
    case Main1 => "Main Light 1"
    case Main2 => "Main Light 2"
    case Fill => "Fill Light"
    case Back1 => "Back Light 1"
    case Back2 => "Back Light 2"
  }

  // ---------------------------------------------------------------- the rig

  /** One child per role, in the order main 1, main 2, fill, back 1, back 2. */
  function PerRole(f: Role -> Child): (s: seq<Child>)
    ensures |s| == 5 && forall k :: 0 <= k < 5 ==> s[k] == f(Roles[k])
  {
    [f(Main1), f(Main2), f(Fill), f(Back1), f(Back2)]
  }

  function Targets(center: Vec3): seq<Child>
  {
    PerRole((r: Role) => Target(center))
  }

  function Labels(modelSize: real): seq<Child>
  {
    PerRole((r: Role) => Label(LabelText(r), LightPosition(r, modelSize), true))
  }

  function Helpers(modelSize: real): seq<Child>
  {
    PerRole((r: Role) => LightHelper(r, modelSize * 0.1, true))
  }

  function Directionals(dark: bool, center: Vec3, modelSize: real): seq<Child>
  {
    PerRole((r: Role) => LightChild(DirectionalLight(r, dark, center, modelSize)))
  }

  /**
   * The children one `setupLights` call appends: the ambient light, the five targets (each
   * added twice by the code; a second add of an object already in the scene moves it to the
   * end, which leaves the five in the same order), the five labels, the five helpers in dark
   * mode only, and the five directional lights.
   */
  function Rig(dark: bool, center: Vec3, modelSize: real): seq<Child>
  {
    [LightChild(Ambient(TiersOf(dark).ambient))] + RigOthers(dark, center, modelSize) + Directionals(dark, center, modelSize)
  }

  // ---------------------------------------------------------------- removing lights

  predicate IsLight(c: Child)
  {
    c.LightChild?
  }

  /** The children that are not lights, in order: what `scene.remove(...children.filter(isLight))` leaves. */
  function NonLights(s: seq<Child>): (r: seq<Child>)
    ensures |r| <= |s|
    ensures forall k :: 0 <= k < |r| ==> !IsLight(r[k])
  {
    if s == [] then [] else (if IsLight(s[0]) then [] else [s[0]]) + NonLights(s[1..])
  }

  /** The lights among the children, in order. */
  function LightsOf(s: seq<Child>): (r: seq<Light>)
    ensures |r| <= |s|
  {
    if s == [] then [] else (if IsLight(s[0]) then [s[0].light] else []) + LightsOf(s[1..])
  }

  lemma {:induction false} NonLightsAppend(a: seq<Child>, b: seq<Child>)
    ensures NonLights(a + b) == NonLights(a) + NonLights(b)
  {
    if a == [] {
      assert a + b == b;
    } else {
      var head := (if IsLight(a[0]) then [] else [a[0]]);
      assert (a + b)[0] == a[0] && (a + b)[1..] == a[1..] + b;
      assert NonLights(a + b) == head + NonLights(a[1..] + b);
      NonLightsAppend(a[1..], b);
      assert head + (NonLights(a[1..]) + NonLights(b)) == (head + NonLights(a[1..])) + NonLights(b);
    }
  }

  lemma {:induction false} LightsOfAppend(a: seq<Child>, b: seq<Child>)
    ensures LightsOf(a + b) == LightsOf(a) + LightsOf(b)
  {
    if a == [] {
      assert a + b == b;
    } else {
      var head := (if IsLight(a[0]) then [a[0].light] else []);
      assert (a + b)[0] == a[0] && (a + b)[1..] == a[1..] + b;
      assert LightsOf(a + b) == head + LightsOf(a[1..] + b);
      LightsOfAppend(a[1..], b);
      assert head + (LightsOf(a[1..]) + LightsOf(b)) == (head + LightsOf(a[1..])) + LightsOf(b);
    }
  }

  /** Removing the lights removes all of them and keeps everything else. */
  lemma {:induction false} NonLightsSplit(s: seq<Child>)
    ensures LightsOf(NonLights(s)) == []
    ensures NonLights(NonLights(s)) == NonLights(s)
    ensures |NonLights(s)| + |LightsOf(s)| == |s|
  {
    if s != [] {
      NonLightsSplit(s[1..]);
      var head := if IsLight(s[0]) then [] else [s[0]];
      NonLightsAppend(head, NonLights(s[1..]));
      LightsOfAppend(head, NonLights(s[1..]));
    }
  }

  /** A child that is not a light survives the removal of the lights. */
  lemma {:induction false} NonLightsKeeps(s: seq<Child>, c: Child)
    requires c in s && !IsLight(c)
    ensures c in NonLights(s)
  {
    if s[0] != c {
      NonLightsKeeps(s[1..], c);
    }
  }

  /** `setupLights` on a scene: remove the lights, then append a fresh rig. */
  function RebuildLights(s: seq<Child>, dark: bool, center: Vec3, modelSize: real): seq<Child>
  {
    NonLights(s) + Rig(dark, center, modelSize)
  }

  /** A sequence without lights is all kept and has no lights. */
  lemma {:induction false} NoLights(s: seq<Child>)
    requires forall k :: 0 <= k < |s| ==> !IsLight(s[k])
    ensures NonLights(s) == s && LightsOf(s) == []
  {
    if s != [] {
      NoLights(s[1..]);
    }
  }

  /** A sequence of lights is all removed, and its lights are its elements' lights. */
  lemma {:induction false} AllLights(s: seq<Child>)
    requires forall k :: 0 <= k < |s| ==> IsLight(s[k])
    ensures NonLights(s) == [] && |LightsOf(s)| == |s|
    ensures forall k :: 0 <= k < |s| ==> LightChild(LightsOf(s)[k]) == s[k]
  {
    if s != [] {
      AllLights(s[1..]);
    }
  }

  /** The targets, labels and (dark mode) helpers of a rig. */
  function RigOthers(dark: bool, center: Vec3, modelSize: real): seq<Child>
  {
    Targets(center) + Labels(modelSize) + (if dark then Helpers(modelSize) else [])
  }

  /** The middle of a rig holds ten or fifteen children, none of them a light. */
  lemma RigOthersNoLights(dark: bool, center: Vec3, modelSize: real)
    ensures NonLights(RigOthers(dark, center, modelSize)) == RigOthers(dark, center, modelSize)
    ensures LightsOf(RigOthers(dark, center, modelSize)) == []
    ensures |RigOthers(dark, center, modelSize)| == if dark then 15 else 10
  {
    var ts, ls, hs := Targets(center), Labels(modelSize), (if dark then Helpers(modelSize) else []);
    NoLights(ts);
    NoLights(ls);
    NoLights(hs);
    NonLightsAppend(ts, ls);
    NonLightsAppend(ts + ls, hs);
    LightsOfAppend(ts, ls);
    LightsOfAppend(ts + ls, hs);
  }

  /** A rig appended piece by piece, in the order the code adds its children. */
  lemma RigInSteps(kept: seq<Child>, dark: bool, center: Vec3, modelSize: real)
    ensures dark ==> (kept + Rig(dark, center, modelSize) ==
      kept + [LightChild(Ambient(TiersOf(dark).ambient))] + Targets(center) + Labels(modelSize)
        + Helpers(modelSize) + Directionals(dark, center, modelSize))
    ensures !dark ==> (kept + Rig(dark, center, modelSize) ==
      kept + [LightChild(Ambient(TiersOf(dark).ambient))] + Targets(center) + Labels(modelSize)
        + Directionals(dark, center, modelSize))
  {
  }

  /** A child that is not a light is still in the scene after a rebuild. */
  lemma RebuildKeeps(s: seq<Child>, c: Child, dark: bool, center: Vec3, modelSize: real)
    requires c in s && !IsLight(c)
    ensures c in RebuildLights(s, dark, center, modelSize)
  {
    NonLightsKeeps(s, c);
  }

  /** The lights of a rig: the ambient light, then the five directional lights. */
  lemma RigLights(dark: bool, center: Vec3, modelSize: real)
    ensures |LightsOf(Rig(dark, center, modelSize))| == 6
    ensures LightsOf(Rig(dark, center, modelSize))[0] == Ambient(TiersOf(dark).ambient)
    ensures forall k :: 1 <= k < 6 ==> LightsOf(Rig(dark, center, modelSize))[k] == DirectionalLight(Roles[k - 1], dark, center, modelSize)
  {
    RigLightsSplit(dark, center, modelSize);
    DirectionalsLights(dark, center, modelSize);
  }

  /** Of the three parts of a rig only the first and the last hold lights. */
  lemma RigLightsSplit(dark: bool, center: Vec3, modelSize: real)
    ensures LightsOf(Rig(dark, center, modelSize)) ==
      [Ambient(TiersOf(dark).ambient)] + LightsOf(Directionals(dark, center, modelSize))
  {
    RigOthersNoLights(dark, center, modelSize);
    LightsAround(Ambient(TiersOf(dark).ambient), RigOthers(dark, center, modelSize), Directionals(dark, center, modelSize));
  }

  lemma LightsAround(l: Light, others: seq<Child>, ds: seq<Child>)
    requires LightsOf(others) == []
    ensures LightsOf([LightChild(l)] + others + ds) == [l] + LightsOf(ds)
  {
    var amb := [LightChild(l)];
    AllLights(amb);
    LightsOfAppend(amb + others, ds);
    LightsOfAppend(amb, others);
    assert LightChild(LightsOf(amb)[0]) == amb[0];
  }

  /** The lights of the five directional children, in role order. */
  lemma DirectionalsLights(dark: bool, center: Vec3, modelSize: real)
    ensures |LightsOf(Directionals(dark, center, modelSize))| == 5
    ensures forall k :: 0 <= k < 5 ==> LightsOf(Directionals(dark, center, modelSize))[k] == DirectionalLight(Roles[k], dark, center, modelSize)
  {
    var ds := Directionals(dark, center, modelSize);
    AllLights(ds);
    forall k | 0 <= k < 5
      ensures LightsOf(ds)[k] == DirectionalLight(Roles[k], dark, center, modelSize)
    {
      assert LightChild(LightsOf(ds)[k]) == ds[k];
    }
  }

  /** A rig adds 15 children that are not lights in dark mode, 10 in light mode. */
  lemma RigNonLights(dark: bool, center: Vec3, modelSize: real)
    ensures NonLights(Rig(dark, center, modelSize)) == RigOthers(dark, center, modelSize)
    ensures |NonLights(Rig(dark, center, modelSize))| == if dark then 15 else 10
  {
    RigOthersNoLights(dark, center, modelSize);
    AllLights(Directionals(dark, center, modelSize));
    NonLightsAround(Ambient(TiersOf(dark).ambient), RigOthers(dark, center, modelSize), Directionals(dark, center, modelSize));
  }

  lemma NonLightsAround(l: Light, others: seq<Child>, ds: seq<Child>)
    requires NonLights(others) == others && NonLights(ds) == []
    ensures NonLights([LightChild(l)] + others + ds) == others
  {
    var amb := [LightChild(l)];
    AllLights(amb);
    NonLightsAppend(amb + others, ds);
    NonLightsAppend(amb, others);
  }

  /** After any rebuild the scene holds exactly six lights: one ambient and the five directional ones of the rig. */
  lemma RebuildLightsExact(s: seq<Child>, dark: bool, center: Vec3, modelSize: real)
    ensures |LightsOf(RebuildLights(s, dark, center, modelSize))| == 6
    ensures LightsOf(RebuildLights(s, dark, center, modelSize))[0] == Ambient(TiersOf(dark).ambient)
    ensures forall k :: 1 <= k < 6 ==>
      LightsOf(RebuildLights(s, dark, center, modelSize))[k] == DirectionalLight(Roles[k - 1], dark, center, modelSize)
  {
    LightsOfAppend(NonLights(s), Rig(dark, center, modelSize));
    NonLightsSplit(s);
    RigLights(dark, center, modelSize);
  }

  /** A rebuild keeps every child that is not a light, in order, and adds 15 (dark mode) or 10 new ones that are never removed. */
  lemma RebuildKeepsNonLights(s: seq<Child>, dark: bool, center: Vec3, modelSize: real)
    ensures RebuildLights(s, dark, center, modelSize)[..|NonLights(s)|] == NonLights(s)
    ensures NonLights(RebuildLights(s, dark, center, modelSize)) == NonLights(s) + NonLights(Rig(dark, center, modelSize))
    ensures |NonLights(RebuildLights(s, dark, center, modelSize))| == |NonLights(s)| + if dark then 15 else 10
  {
    NonLightsAppend(NonLights(s), Rig(dark, center, modelSize));
    NonLightsSplit(s);
    RigNonLights(dark, center, modelSize);
  }

  /** Two rebuilds in a row (a mode toggle) still leave exactly six lights, and 20 to 30 more other children. */
  lemma RebuildTwice(s: seq<Child>, d1: bool, c1: Vec3, m1: real, d2: bool, c2: Vec3, m2: real)
    ensures |LightsOf(RebuildLights(RebuildLights(s, d1, c1, m1), d2, c2, m2))| == 6
    ensures |NonLights(RebuildLights(RebuildLights(s, d1, c1, m1), d2, c2, m2))| ==
      |NonLights(s)| + (if d1 then 15 else 10) + (if d2 then 15 else 10)
  {
    RebuildLightsExact(RebuildLights(s, d1, c1, m1), d2, c2, m2);
    RebuildKeepsNonLights(s, d1, c1, m1);
    RebuildKeepsNonLights(RebuildLights(s, d1, c1, m1), d2, c2, m2);
  }

  // ---------------------------------------------------------------- properties of the rig

  /** The two main lights share the main tier and the two back lights the back tier; every intensity is positive. */
  lemma IntensitySplit(dark: bool)
    ensures RoleIntensity(TiersOf(dark), Main1) + RoleIntensity(TiersOf(dark), Main2) == TiersOf(dark).main
    ensures RoleIntensity(TiersOf(dark), Back1) + RoleIntensity(TiersOf(dark), Back2) == TiersOf(dark).back
    ensures forall r: Role :: RoleIntensity(TiersOf(dark), r) > 0.0
    ensures TiersOf(dark).ambient > 0.0
  {
  }

  /** Dark mode has a dimmer ambient light and brighter main, fill and back lights than light mode. */
  lemma DarkModeContrast()
    ensures TiersOf(true).ambient < TiersOf(false).ambient
    ensures forall r: Role :: RoleIntensity(TiersOf(true), r) > RoleIntensity(TiersOf(false), r)
  {
  }

  predicate CastsShadow(l: Light)
  {
    l.Directional? && l.shadow.Some?
  }

  /** Exactly one light of a rebuilt scene casts shadows: the first main light, with a ±modelSize frustum reaching 4.5 model sizes. */
  lemma SingleShadowCaster(s: seq<Child>, dark: bool, center: Vec3, modelSize: real)
    ensures |LightsOf(RebuildLights(s, dark, center, modelSize))| == 6
    ensures forall k :: 0 <= k < 6 && k != 1 ==> !CastsShadow(LightsOf(RebuildLights(s, dark, center, modelSize))[k])
    ensures LightsOf(RebuildLights(s, dark, center, modelSize))[1] ==
      Directional(Main1, LightPosition(Main1, modelSize), center, TiersOf(dark).main * 0.6, Some(MainShadow(modelSize)))
    ensures MainShadow(modelSize).far == 4.5 * modelSize && MainShadow(modelSize).near == 0.5
    ensures MainShadow(modelSize).left == -MainShadow(modelSize).right == -modelSize
    ensures MainShadow(modelSize).bottom == -MainShadow(modelSize).top == -modelSize
  {
    RebuildLightsExact(s, dark, center, modelSize);
  }

  /** Light positions scale linearly with the model size; a model of size 0 puts every light at the origin. */
  lemma PositionsScale(r: Role, modelSize: real, k: real)
    ensures LightPosition(r, modelSize * k) == Scale(LightPosition(r, modelSize), k)
    ensures LightPosition(r, 0.0) == Origin
  {
    var d, c := LightDistance(modelSize), Direction(r);
    assert LightDistance(modelSize * k) == d * k;
    ScaleAssoc(c, d, k);
  }

  lemma ScaleAssoc(v: Vec3, a: real, b: real)
    ensures Scale(v, a * b) == Scale(Scale(v, a), b)
  {
    assert v.x * (a * b) == (v.x * a) * b;
    assert v.y * (a * b) == (v.y * a) * b;
    assert v.z * (a * b) == (v.z * a) * b;
  }

  /** Each light label sits where its light is. */
  lemma LabelsAtLights(dark: bool, center: Vec3, modelSize: real)
    ensures forall k :: 0 <= k < 5 ==>
      Labels(modelSize)[k].position == Directionals(dark, center, modelSize)[k].light.position
  {
  }

  // ---------------------------------------------------------------- helper visibility

  /** The children the helper toggle flips: labels (CSS2D objects) and everything named 'helper'. */
  predicate IsHelper(c: Child)
  {
    c.Label? || c.LightHelper? || c.DebugHelper?
  }

  function Flip(c: Child): (r: Child)
    ensures IsHelper(c) <==> r != c
    ensures IsHelper(r) == IsHelper(c)
  {
    match c
    case Label(t, p, v) => Label(t, p, !v)
    case LightHelper(r, z, v) => LightHelper(r, z, !v)
    case DebugHelper(k, v) => DebugHelper(k, !v)
    case _ => c
  }

  /** The scene after the helper toggle. */
  function FlipHelpers(s: seq<Child>): (r: seq<Child>)
    ensures |r| == |s|
    ensures forall k :: 0 <= k < |s| ==> r[k] == Flip(s[k])
  {
    if s == [] then [] else [Flip(s[0])] + FlipHelpers(s[1..])
  }

  /** Toggling helpers twice restores the scene; lights, targets and meshes are never touched. */
  lemma FlipHelpersInvolution(s: seq<Child>)
    ensures FlipHelpers(FlipHelpers(s)) == s
    ensures forall k :: 0 <= k < |s| && !IsHelper(s[k]) ==> FlipHelpers(s)[k] == s[k]
    ensures forall k :: 0 <= k < |s| && IsHelper(s[k]) ==> FlipHelpers(s)[k].visible == !s[k].visible
  {
    assert forall k :: 0 <= k < |s| ==> Flip(Flip(s[k])) == s[k];
  }

  /** The helper toggle leaves the lights alone, and commutes with the removal of the lights. */
  lemma {:induction false} FlipHelpersKeepsLights(s: seq<Child>)
    ensures LightsOf(FlipHelpers(s)) == LightsOf(s)
    ensures NonLights(FlipHelpers(s)) == FlipHelpers(NonLights(s))
  {
    if s != [] {
      FlipHelpersKeepsLights(s[1..]);
      assert FlipHelpers(s)[0] == Flip(s[0]) && FlipHelpers(s)[1..] == FlipHelpers(s[1..]);
      var head := if IsLight(s[0]) then [] else [s[0]];
      assert FlipHelpers(head + NonLights(s[1..])) == FlipHelpers(head) + FlipHelpers(NonLights(s[1..]));
    }
  }

  // ---------------------------------------------------------------- camera framing

  function Abs(v: real): real
  {
    if v < 0.0 then -v else v
  }

  /** The camera datatype holds what the load callback sets: the distance along z and the clipping planes. */
  datatype Framing = Framing(distance: real, near: real, far: real)

  /** The framing of a model of largest dimension maxDim, for tan(fov / 2) given. */
  function Frame(maxDim: real, tanHalfFov: real): Framing
    requires tanHalfFov != 0.0
  {
    var z := Abs(maxDim / 2.0 / tanHalfFov) * 1.2;
    Framing(z, z / 100.0, z * 100.0)
  }

  /** The far plane is 10^4 times the near one; the camera distance is 0 exactly for a model of size 0, which the code does not guard. */
  lemma FrameProperties(maxDim: real, tanHalfFov: real)
    requires tanHalfFov != 0.0
    ensures Frame(maxDim, tanHalfFov).far == 10000.0 * Frame(maxDim, tanHalfFov).near
    ensures Frame(maxDim, tanHalfFov).distance >= 0.0
    ensures Frame(maxDim, tanHalfFov).distance == 0.0 <==> maxDim == 0.0
    ensures maxDim != 0.0 ==> 0.0 < Frame(maxDim, tanHalfFov).near < Frame(maxDim, tanHalfFov).far
  {
    QuotientZero(maxDim / 2.0, tanHalfFov);
  }

  lemma QuotientZero(a: real, b: real)
    requires b != 0.0
    ensures a / b == 0.0 <==> a == 0.0
  {
    if a / b == 0.0 {
      assert a == (a / b) * b;
    }
  }

  /** Scaling the model by k > 0 scales the camera distance by k. */
  lemma FrameScales(maxDim: real, tanHalfFov: real, k: real)
    requires tanHalfFov != 0.0 && k > 0.0
    ensures Frame(maxDim * k, tanHalfFov).distance == Frame(maxDim, tanHalfFov).distance * k
  {
    var q := maxDim / 2.0 / tanHalfFov;
    assert (maxDim * k) / 2.0 / tanHalfFov == q * k by {
      DivScale(maxDim / 2.0, tanHalfFov, k);
    }
    AbsScale(q, k);
  }

  lemma DivScale(a: real, b: real, k: real)
    requires b != 0.0
    ensures (a * 2.0 * k) / 2.0 / b == (a * 2.0 / 2.0 / b) * k
  {
  }

  lemma AbsScale(q: real, k: real)
    requires k > 0.0
    ensures Abs(q * k) == Abs(q) * k
  {
    if q < 0.0 {
      assert q * k < 0.0;
    } else {
      assert q * k >= 0.0;
    }
  }
}
