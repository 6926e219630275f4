/**
 * The `LiverViewer` class of main.js as a state machine over its scene, display mode, liver
 * mesh and camera framing: construction, the light rig, the model-load callback and the
 * three toggle buttons.
 */
module Viewer {
  import opened Wrappers
  import opened Noise
  import opened Textures
  import opened Routing
  import opened Scene

  /** One object met by the traversal of the loaded model: its name and whether it is a mesh. */
  datatype ModelNode = ModelNode(name: string, isMesh: bool)

  /** Resolution of both noise textures. */
  const TextureSize: nat := 1024

  /** The model size `setupLights` uses when called without arguments. */
  const DefaultModelSize: real := 300.0

  const DarkBackground: nat := 0x222222
  const LightBackground: nat := 0xF5F5F5

  /** The scene `initialize` creates. */
  const EmptyScene: seq<Child> := []

  /** The children `createScene` adds before its first `setupLights` call. */
  function InitialScene(): seq<Child>
  {
    [DebugHelper(CameraHelper, true), DebugHelper(AxesHelper, true),
     Label("Origin", Vec3(0.0, -20.0, 0.0), true),
     Label("X", Vec3(220.0, 0.0, 0.0), true), Label("Y", Vec3(0.0, 220.0, 0.0), true), Label("Z", Vec3(0.0, 0.0, 220.0), true),
     DebugHelper(OriginSphere, true)]
  }

  /** The route a traversed object gets: only meshes are routed, by their lower-cased names. */
  function RouteOf(n: ModelNode): Option<Route>
  {
    if n.isMesh then Classify(ToLower(n.name)) else None
  }

  /** The routes of the model's meshes in traversal order; objects that are not routed contribute nothing. */
  function Routed(nodes: seq<ModelNode>): (rs: seq<Route>)
    ensures |rs| <= |nodes|
  {
    if nodes == [] then []
    else
      var last := RouteOf(nodes[|nodes| - 1]);
      Routed(nodes[..|nodes| - 1]) + (if last.Some? then [last.value] else [])
  }

  /** Index of the last liver route, if any: the mesh `this.liver` ends up naming. */
  function LastLiver(rs: seq<Route>): (k: Option<nat>)
    ensures k.Some? ==> k.value < |rs| && rs[k.value] == Route(Healthy, 4)
    ensures k.Some? ==> forall j :: k.value < j < |rs| ==> rs[j] != Route(Healthy, 4)
    ensures k.None? <==> forall j :: 0 <= j < |rs| ==> rs[j] != Route(Healthy, 4)
  {
    if rs == [] then None
    else if rs[|rs| - 1] == Route(Healthy, 4) then Some(|rs| - 1)
    else LastLiver(rs[..|rs| - 1])
  }

  /** Traversing one more node appends its route, if it has one. */
  lemma RoutedSnoc(nodes: seq<ModelNode>, i: nat)
    requires i < |nodes|
    ensures Routed(nodes[..i + 1]) ==
      Routed(nodes[..i]) + (if RouteOf(nodes[i]).Some? then [RouteOf(nodes[i]).value] else [])
  {
    assert nodes[..i + 1][..i] == nodes[..i];
  }

  /** Appending a route makes it the last liver route exactly when it is a liver route. */
  lemma LastLiverSnoc(rs: seq<Route>, r: Route)
    ensures LastLiver(rs + [r]) == if r == Route(Healthy, 4) then Some(|rs|) else LastLiver(rs)
  {
    assert (rs + [r])[..|rs|] == rs;
  }

  /** Every route is the route of one of the nodes, so no object that is not a mesh is ever routed. */
  lemma {:induction false} RoutedFromMeshes(nodes: seq<ModelNode>)
    ensures forall k :: 0 <= k < |Routed(nodes)| ==>
      exists j :: 0 <= j < |nodes| && nodes[j].isMesh && Classify(ToLower(nodes[j].name)) == Some(Routed(nodes)[k])
    ensures (forall j :: 0 <= j < |nodes| ==> RouteOf(nodes[j]).None?) ==> Routed(nodes) == []
  {
    if nodes != [] {
      var init, n := nodes[..|nodes| - 1], |nodes| - 1;
      var last := RouteOf(nodes[n]);
      RoutedFromMeshes(init);
      assert Routed(nodes) == Routed(init) + (if last.Some? then [last.value] else []);
      forall k | 0 <= k < |Routed(nodes)|
        ensures exists j :: 0 <= j < |nodes| && nodes[j].isMesh && Classify(ToLower(nodes[j].name)) == Some(Routed(nodes)[k])
      {
        if k < |Routed(init)| {
          var j :| 0 <= j < |init| && init[j].isMesh && Classify(ToLower(init[j].name)) == Some(Routed(init)[k]);
          assert nodes[j] == init[j] && Routed(nodes)[k] == Routed(init)[k];
        } else {
          assert last.Some? && Routed(nodes)[k] == last.value;
          assert nodes[n].isMesh && Classify(ToLower(nodes[n].name)) == Some(Routed(nodes)[k]);
        }
      }
      if forall j :: 0 <= j < |nodes| ==> RouteOf(nodes[j]).None? {
        assert forall j :: 0 <= j < |init| ==> init[j] == nodes[j];
      }
    } else {
      assert Routed(nodes) == [];
    }
  }

  /** A mesh created for a route: its material, render order, and position −center. */
  predicate MeshFor(c: Child, r: Route, center: Vec3)
    reads if c.Mesh? then {c.node} else {}
  {
    c.Mesh? && c.node.material == r.material && c.node.renderOrder == r.renderOrder && c.node.position == Neg(center)
  }

  /** No child occurs twice: the added meshes are distinct objects. */
  predicate Distinct(cs: seq<Child>)
  {
    forall j, k :: 0 <= j < k < |cs| ==> cs[j] != cs[k]
  }

  function Toggled(m: Material): (r: Material)
    ensures m == Healthy ==> r == Fibrosis
    ensures m == Fibrosis ==> r == Healthy
  {
    if m == Healthy then Fibrosis else Healthy
  }

  /** Swapping the liver material twice restores it. */
  lemma ToggledInvolution(m: Material)
    requires m == Healthy || m == Fibrosis
    ensures Toggled(Toggled(m)) == m && Toggled(m) != m
  {
  }

  class LiverViewer {
    var isDarkMode: bool
    var background: nat
    var scene: seq<Child>
    var liver: MeshNode?
    var camera: Framing
    var healthyData: array<Byte>
    var fibrosisData: array<Byte>

    /** The liver, once loaded, is shown in the scene in healthy or fibrotic tissue, at render order 4. */
    predicate Valid()
      reads this, liver
    {
      liver != null ==>
        (liver.material == Healthy || liver.material == Fibrosis) && liver.renderOrder == 4 && Mesh(liver) in scene
    }

    /**
     * Initialisation: dark mode, the default camera, both noise buffers (from smooth noise over
     * the given sine), the helpers of `createScene`, and a light rig at the origin for size 300.
     */
    constructor(sin: real -> real)
      ensures Valid()
      ensures isDarkMode && background == DarkBackground && liver == null
      ensures camera == Framing(5.0, 0.1, 1000.0)
      ensures scene == RebuildLights(EmptyScene + InitialScene(), isDarkMode, Origin, DefaultModelSize)
      ensures healthyData[..] == HealthyBuffer(Smooth(sin), TextureSize)
      ensures fibrosisData[..] == FibrosisBuffer(Smooth(sin), TextureSize)
    {
      isDarkMode := true;
      camera := Framing(5.0, 0.1, 1000.0);
      background := DarkBackground;
      scene := EmptyScene;
      liver := null;
      healthyData, fibrosisData := new Byte[0], new Byte[0];
      new;
      CreateNoiseTexture(sin, TextureSize);
      CreateScene();
    }

    /** `createNoiseTexture`: fill the healthy and the fibrotic buffer. */
    method CreateNoiseTexture(sin: real -> real, size: nat)
      modifies this`healthyData, this`fibrosisData
      ensures healthyData[..] == HealthyBuffer(Smooth(sin), size)
      ensures fibrosisData[..] == FibrosisBuffer(Smooth(sin), size)
      ensures fresh(healthyData) && fresh(fibrosisData)
    {
      healthyData := CreateHealthyData(Smooth(sin), size);
      fibrosisData := CreateFibrosisData(Smooth(sin), size);
    }

    /** `createScene`: add the debug helpers and axis labels, then the default light rig. */
    method CreateScene()
      requires Valid()
      modifies this`scene
      ensures scene == RebuildLights(old(scene) + InitialScene(), isDarkMode, Origin, DefaultModelSize)
      ensures Valid()
    {
      scene := scene + InitialScene();
      SetupLights(Origin, DefaultModelSize);
    }

    /** `setupLights(center, modelSize)`: remove every light, then append a fresh rig. */
    method SetupLights(center: Vec3, modelSize: real)
      requires Valid()
      modifies this`scene
      ensures scene == RebuildLights(old(scene), isDarkMode, center, modelSize)
      ensures Valid()
    {
      ghost var before := scene;
      if liver != null {
        RebuildKeeps(before, Mesh(liver), isDarkMode, center, modelSize);
      }
      RigInSteps(NonLights(before), isDarkMode, center, modelSize);
      scene := NonLights(scene);
      var tiers := TiersOf(isDarkMode);
      scene := scene + [LightChild(Ambient(tiers.ambient))];
      scene := scene + Targets(center);
      scene := scene + Labels(modelSize);
      if isDarkMode {
        scene := scene + Helpers(modelSize);
      }
      scene := scene + Directionals(isDarkMode, center, modelSize);
    }

    /**
     * The routing branch of the traversal for one mesh with lower-cased name `meshName`: the
     * first matching pattern pair picks material and render order of a new mesh at −center,
     * a liver route also makes it `this.liver`, and an unmatched name creates nothing.
     */
    method CreateRoutedMesh(meshName: string, center: Vec3) returns (mesh: MeshNode?)
      modifies this`liver
      ensures mesh == null <==> Classify(meshName).None?
      ensures mesh != null ==> fresh(mesh) && MeshFor(Mesh(mesh), Classify(meshName).value, center)
      ensures liver == if Classify(meshName) == Some(Route(Healthy, 4)) then mesh else old(liver)
    {
      mesh := null;
      if Includes(meshName, "ha") || Includes(meshName, "artery") {
        mesh := new MeshNode(HepaticArtery, 1, Neg(center));
      } else if Includes(meshName, "pv") || Includes(meshName, "portal") {
        mesh := new MeshNode(PortalVein, 2, Neg(center));
      } else if Includes(meshName, "bd") || Includes(meshName, "bile") {
        mesh := new MeshNode(BileDuct, 3, Neg(center));
      } else if Includes(meshName, "liver") {
        liver := new MeshNode(Healthy, 4, Neg(center));
        mesh := liver;
      }
    }

    /**
     * The traversal callback for one object: a mesh whose lower-cased name is routed becomes a
     * new mesh at −center, appended to the scene; anything else leaves the scene as it was.
     */
    method VisitChild(child: ModelNode, center: Vec3) returns (mesh: MeshNode?)
      modifies this`scene, this`liver
      ensures mesh == null <==> RouteOf(child).None?
      ensures mesh != null ==> fresh(mesh) && MeshFor(Mesh(mesh), RouteOf(child).value, center)
      ensures scene == old(scene) + if mesh != null then [Mesh(mesh)] else []
      ensures liver == if RouteOf(child) == Some(Route(Healthy, 4)) then mesh else old(liver)
    {
      mesh := null;
      if child.isMesh {
        var meshName := ToLower(child.name);
        mesh := CreateRoutedMesh(meshName, center);
        if mesh != null {
          scene := scene + [Mesh(mesh)];
        }
      }
    }

    /**
     * The traversal so far: the scene is `base` followed by the distinct meshes `added`, one per
     * route in `routes`, and `liver` is the mesh of the last liver route, or `initial` if none.
     */
    ghost predicate Traversed(base: seq<Child>, initial: MeshNode?, added: seq<Child>, routes: seq<Route>, center: Vec3)
      reads this, set c | c in added && c.Mesh? :: c.node
    {
      && scene == base + added && |added| == |routes|
      && (forall k :: 0 <= k < |added| ==> MeshFor(added[k], routes[k], center))
      && (LastLiver(routes).None? ==> liver == initial)
      && (LastLiver(routes).Some? ==> liver != null && added[LastLiver(routes).value] == Mesh(liver))
      && Distinct(added)
    }

    /**
     * One step of the traversal: visiting `child` extends the meshes added so far by a fresh
     * mesh and their routes by the child's route, if it has one.
     */
    method VisitStep(child: ModelNode, center: Vec3, ghost base: seq<Child>, ghost initial: MeshNode?,
                     ghost added: seq<Child>, ghost routes: seq<Route>)
      returns (ghost added': seq<Child>, ghost routes': seq<Route>)
      requires Traversed(base, initial, added, routes, center)
      modifies this`scene, this`liver
      ensures routes' == routes + if RouteOf(child).Some? then [RouteOf(child).value] else []
      ensures |added'| >= |added| && added'[..|added|] == added
      ensures forall k :: |added| <= k < |added'| ==> added'[k].Mesh? && fresh(added'[k].node)
      ensures Traversed(base, initial, added', routes', center)
    {
      added', routes' := added, routes;
      var mesh := VisitChild(child, center);
      if mesh != null {
        LastLiverSnoc(routes, RouteOf(child).value);
        added' := added + [Mesh(mesh)];
        routes' := routes + [RouteOf(child).value];
      }
    }

    /**
     * The traversal of the loaded model: each mesh whose lower-cased name is routed becomes a
     * new mesh at −center appended to the scene; only a liver route sets `liver`.
     */
    method AddModelMeshes(nodes: seq<ModelNode>, center: Vec3) returns (ghost added: seq<Child>)
      requires Valid()
      modifies this`scene, this`liver
      ensures scene == old(scene) + added && |added| == |Routed(nodes)|
      ensures forall k :: 0 <= k < |added| ==> MeshFor(added[k], Routed(nodes)[k], center)
      ensures LastLiver(Routed(nodes)).None? ==> liver == old(liver)
      ensures LastLiver(Routed(nodes)).Some? ==> liver != null && added[LastLiver(Routed(nodes)).value] == Mesh(liver)
      ensures forall k :: 0 <= k < |added| ==> added[k].Mesh? && fresh(added[k].node)
      ensures Distinct(added)
      ensures Valid()
    {
      added := [];
      ghost var routes := [];
      var i := 0;
      while i < |nodes|
        invariant 0 <= i <= |nodes| && routes == Routed(nodes[..i])
        invariant Traversed(old(scene), old(liver), added, routes, center)
        invariant forall k :: 0 <= k < |added| ==> added[k].Mesh? && fresh(added[k].node)
      {
        RoutedSnoc(nodes, i);
        ghost var prefix := added;
        added, routes := VisitStep(nodes[i], center, old(scene), old(liver), added, routes);
        forall k | 0 <= k < |added|
          ensures added[k].Mesh? && fresh(added[k].node)
        {
          if k < |prefix| {
            assert added[k] == prefix[k];
          }
        }
        i := i + 1;
      }
      assert nodes[..|nodes|] == nodes;
      if LastLiver(routes).Some? {
        var k := LastLiver(routes).value;
        assert MeshFor(added[k], routes[k], center) && scene[|old(scene)| + k] == added[k];
      }
    }

    /**
     * The model-load callback: add the routed meshes, rebuild the lights at the origin for the
     * model's largest dimension, and frame the camera on the origin.
     */
    method OnModelLoaded(nodes: seq<ModelNode>, center: Vec3, maxDim: real, tanHalfFov: real)
      returns (ghost added: seq<Child>)
      requires Valid() && tanHalfFov != 0.0
      modifies this`scene, this`liver, this`camera
      ensures scene == RebuildLights(old(scene) + added, isDarkMode, Origin, maxDim)
      ensures |added| == |Routed(nodes)| && forall k :: 0 <= k < |added| ==> MeshFor(added[k], Routed(nodes)[k], center)
      ensures LastLiver(Routed(nodes)).None? ==> liver == old(liver)
      ensures LastLiver(Routed(nodes)).Some? ==> liver != null && added[LastLiver(Routed(nodes)).value] == Mesh(liver)
      ensures forall k :: 0 <= k < |added| ==> added[k].Mesh? && fresh(added[k].node)
      ensures Distinct(added)
      ensures camera == Frame(maxDim, tanHalfFov)
      ensures Valid()
    {
      added := AddModelMeshes(nodes, center);
      SetupLights(Origin, maxDim);
      camera := Frame(maxDim, tanHalfFov);
    }

    /** The liver-material button: nothing while no liver is loaded, otherwise healthy and fibrotic swap. */
    method ToggleMaterial()
      requires Valid()
      modifies liver
      ensures liver != null ==> liver.material == Toggled(old(liver.material))
      ensures Valid()
    {
      if liver == null {
        return;
      }
      liver.material := if liver.material == Healthy then Fibrosis else Healthy;
    }

    /** The dark-mode button: flip the mode and the background, then rebuild the lights with the defaults. */
    method ToggleDarkMode()
      requires Valid()
      modifies this`isDarkMode, this`background, this`scene
      ensures isDarkMode == !old(isDarkMode)
      ensures background == if isDarkMode then DarkBackground else LightBackground
      ensures scene == RebuildLights(old(scene), isDarkMode, Origin, DefaultModelSize)
      ensures Valid()
    {
      isDarkMode := !isDarkMode;
      background := if isDarkMode then DarkBackground else LightBackground;
      SetupLights(Origin, DefaultModelSize);
    }

    /** The helper button: flip the visibility of every label and helper. */
    method ToggleHelpers()
      requires Valid()
      modifies this`scene
      ensures scene == FlipHelpers(old(scene))
      ensures Valid()
    {
      ghost var before := scene;
      scene := FlipHelpers(scene);
      if liver != null {
        ghost var k :| 0 <= k < |before| && before[k] == Mesh(liver);
        assert scene[k] == Mesh(liver);
      }
    }
  }
}
