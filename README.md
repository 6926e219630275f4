# LiverViewer core in Dafny

This project models the core of `LiverViewer`, the Three.js liver viewer in `main.js`, and proves properties of that model:

- **Noise engine.** The value-noise engine (`fade`, `grad`, `smoothNoise`, `fractalNoise`) over exact reals.
- **Texture buffers.** The two RGBA buffers of `createNoiseTexture`: a grayscale healthy-tissue texture and a red-tinted fibrotic one. Each is row-major with four bytes per texel.
- **Scene graph.** The scene is a flat sequence of tagged children: lights, light targets, CSS2D labels, helpers and meshes.
  - `setupLights` removes every light and appends a fresh rig.
  - The model-load callback routes each sub-mesh by its lower-cased name to a material and a render order, moves it to −center, rebuilds the rig for the model's size and frames the camera.
  - The three buttons toggle the liver material, the display mode and the visibility of the helpers.

## Modules

- `Wrappers`: `Option`.
- `Noise`: `Fade`, `Grad`, `SmoothNoise` and the octave sum `LayerSum`.
  - `Fractal` is the quotient `fractalNoise` returns. `FractalNoise` is its loop, proved against `Fractal`.
  - Bounds hold for every sine: the hash lies in [0, 1), so smooth noise and every fractal sample lie in [0, 1) too.
- `Textures`: the two buffers.
  - Each buffer is specified as a row-major concatenation of texels (`HealthyBuffer`, `FibrosisBuffer`). The nested fill loops over a `Uint8Array` (`CreateHealthyData`, `CreateFibrosisData`) are proved to produce exactly that buffer.
  - A byte store follows ECMAScript ToUint8: truncate, then reduce modulo 256.
- `Routing`: ASCII lower-casing, `includes`, and the four-branch classifier. The classifier is also shown equal to a first-match rule over a table.
- `Scene`: the light rig as a function of the display mode, the centre and the model size.
  - `RebuildLights` is the scene after one `setupLights` call.
  - `FlipHelpers` is the helper toggle.
  - `Frame` is the camera framing.
  - `MeshNode` is a class, because the material button changes a mesh's material in place.
- `Viewer`: the class `LiverViewer`.
  - Its fields are the display mode, the background colour, the scene, the liver mesh, the camera framing and the two buffers.
  - Its methods are construction, `setupLights`, the traversal of the loaded model and the three toggles. Each is specified by the `Scene`, `Routing` and `Textures` functions.

Two behaviours of the code are modelled as written:

- The click handler of `toggleModeButton` (main.js:625-637) calls `setupLights()` without arguments (main.js:632), so it takes the defaults of main.js:261. After a model has loaded, the rig therefore goes back to size 300 at the origin.
- A model of size 0 is not guarded: the camera distance is then 0 (`Scene.FrameProperties`).

A call to `setupLights` removes only the lights:

- The five targets, the five labels and (in dark mode) the five light helpers it adds are never removed.
- So every call leaves 10 or 15 more children in the scene (`Scene.RebuildKeepsNonLights`, `Scene.RebuildTwice`).
- Three.js `add` of an object that is already a child moves it to the end. Each light target is added twice (main.js:282 and 327), and after both passes the five targets sit once each, in light order. The model appends them once.

## Model

| member | source | states |
|---|---|---|
| Noise.Fade | main.js:26-28 | definition: the quintic t^3 (t (6t − 15) + 10) |
| Noise.FadeFixedPoints | main.js:26-28 | fade(0) = 0, fade(1/2) = 1/2 and fade(1) = 1 |
| Noise.FadeSymmetric | main.js:26-28 | fade(1 − t) = 1 − fade(t) for every t |
| Noise.FadeComplement | main.js:26-28 | 1 − fade(t) factors as (1 − t)^3 (6t^2 + 3t + 1) |
| Noise.FadeBounds | main.js:26-28 | fade maps [0, 1] into [0, 1] and [0, 1) into [0, 1) |
| Noise.Grad | main.js:31-34 | the lattice hash is the fractional part of the scaled sine, so it lies in [0, 1) whatever the sine returns |
| Noise.Blend | main.js:55-57 | definition: the linear interpolation a·(1 − s) + b·s of two values with weight s |
| Noise.SmoothNoise | main.js:37-58 | definition: Fade-weighted bilinear interpolation of the hash at the four lattice corners, along x and then along y |
| Noise.BlendBounds | main.js:55-57 | interpolating two values in [0, 1) with a weight in [0, 1] stays in [0, 1) |
| Noise.BlendBetween | main.js:55-57 | an interpolation lies between its two end values |
| Noise.SmoothNoiseBounds | main.js:37-58 | smooth noise lies in [0, 1) for every point and every sine |
| Noise.SmoothNoiseBetweenCorners | main.js:37-58 | smooth noise lies between the least and the greatest hash of the four lattice corners around the point |
| Noise.SmoothNoiseAtLattice | main.js:37-58 | at an integer point smooth noise equals the hash there |
| Noise.SmoothIsUnitNoise | main.js:37-58 | smooth noise over any sine is a layer with all values in [0, 1) |
| Noise.LayerSum | main.js:61-78 | definition: the sum over the first n octaves of amplitude times the layer sampled at frequency times (x, y) |
| Noise.Fractal | main.js:61-78 | definition: the octave sum divided by the sum of the amplitudes |
| Noise.Amplitude | main.js:63-72 | the amplitude of every octave lies in (0, 1], and in (0, 1/2] from the second octave on |
| Noise.AmplitudeSum | main.js:65-71 | the summed amplitudes of n octaves equal 2 − 2·2^−n, so they lie in [1, 2) once n ≥ 1 |
| Noise.Frequency | main.js:64-73 | definition: octave i is sampled at frequency 2^i, starting at 1 and doubling each pass |
| Noise.OctaveScales | main.js:63-73 | the amplitude of each octave is the reciprocal of its frequency |
| Noise.OctaveStep | main.js:70-73 | one loop pass moves value, maxValue, amplitude and frequency from octave i to octave i + 1 |
| Noise.LayerSumNext | main.js:70 | the sum of i + 1 octaves is the sum of i octaves plus amplitude i times the layer at frequency i |
| Noise.LayerSumBounds | main.js:68-74 | for a unit layer the partial octave sum lies in [0, summed amplitudes), strictly below once non-empty |
| Noise.FractalBounds | main.js:61-78 | normalised fractal noise of a unit layer lies in [0, 1) |
| Noise.FractalSingleOctave | main.js:61-78 | with one octave, fractal noise is the layer itself |
| Noise.FractalNoise | main.js:61-78 | the loop returns the normalised octave sum; it lies in [0, 1) for a unit layer, and equals the layer for one octave |
| Textures.ToUint8 | main.js:94-96 | definition: a Uint8Array store, truncating toward zero and then reducing modulo 256 |
| Textures.Trunc | main.js:94-96 | definition: the ToInteger step of a Uint8Array store, the floor for a non-negative value and the negated floor of the negation otherwise |
| Textures.ToUint8InRange | main.js:94-96 | storing a value in [0, 256) into a Uint8Array keeps its floor |
| Textures.ToUint8Wraps | main.js:94-96 | a store truncates toward zero and wraps modulo 256 outside [0, 256) (256 → 0, 300.5 → 44, −1.5 → 255) |
| Textures.Slot | main.js:88 | definition: texel (x, y) starts at byte (y·size + x)·4 |
| Textures.SlotDecode | main.js:88 | byte c of texel (x, y) is at index (y·size + x)·4 + c, inside the buffer, and that index decodes back to (x, y, c) |
| Textures.SlotsDisjoint | main.js:88 | distinct texels or channels never share a byte index |
| Textures.GridAt | main.js:85-99 | in the row-major buffer, byte (y·size + x)·4 + c is channel c of texel (x, y) |
| Textures.Grid | main.js:85-99 | definition: the first n rows of texels, each row x = 0 to size − 1 of four bytes, concatenated top to bottom, of length n·size·4 |
| Textures.SlotOf | main.js:88 | every index below size·size·4 is the slot of a texel (i/4 mod size, i/4 div size) plus channel i mod 4 |
| Textures.GridCovers | main.js:85-99 | every byte of the buffer belongs to exactly the texel and channel that index decodes to |
| Textures.StoreTexel | main.js:94-97 | the four stores of one texel write R, G, B and 255 at its slot, touch nothing else, and extend the filled prefix by one texel |
| Textures.HealthyValue | main.js:90-91 | definition: 4-octave fractal noise at (x/150, y/150), mapped by 0.3·v + 0.7 |
| Textures.HealthyTexel | main.js:90-97 | definition: the stored byte of 255 times the healthy value in R, G and B, with A = 255 |
| Textures.HealthyBuffer | main.js:85-99 | definition: the size × size grid of healthy texels |
| Textures.HealthyTexelBytes | main.js:88-97 | the healthy buffer holds the gray value three times and then 255 at each texel's slot |
| Textures.ComputeHealthyTexel | main.js:90-97 | one healthy loop body yields the texel of the 4-octave sample at (x/150, y/150), mapped by 0.3·v + 0.7 and ×255 |
| Textures.CreateHealthyData | main.js:85-99 | the nested loops fill a fresh size·size·4 array with exactly the healthy buffer |
| Textures.HealthyTexelRange | main.js:90-97 | every healthy texel is gray (R = G = B), opaque, and has brightness in [178, 254] |
| Textures.HealthyBufferBytes | main.js:85-99 | every alpha byte of the healthy buffer is 255 and every colour byte is in [178, 254] |
| Textures.FibrosisValue | main.js:107-109 | definition: 0.7 times 6-octave noise at (x/100, y/100) plus 0.3 times 3-octave noise at (x/30, y/30) |
| Textures.FibrosisTexel | main.js:107-119 | definition: the floored R, G and B ramps of the blend, stored as bytes, with A = 255 |
| Textures.FibrosisBuffer | main.js:102-121 | definition: the size × size grid of fibrotic texels |
| Textures.FibrosisTexelBytes | main.js:105-119 | the fibrotic buffer holds the texel's floored R, G and B ramps and then 255 at each texel's slot |
| Textures.ComputeFibrosisTexel | main.js:107-119 | one fibrotic loop body yields the texel of 0.7·(6 octaves at /100) + 0.3·(3 octaves at /30), on three floored ramps |
| Textures.CreateFibrosisData | main.js:102-121 | the nested loops fill a fresh size·size·4 array with exactly the fibrotic buffer |
| Textures.FibrosisValueRange | main.js:107-109 | the blend of the two fractal samples of a unit layer lies in [0, 1) |
| Textures.FibrosisTexelRange | main.js:107-119 | every fibrotic texel is opaque and red-dominated: R in [153, 254], G in [51, 101], B in [51, 76], R > G ≥ B |
| Textures.FibrosisBufferBytes | main.js:102-121 | every byte of the fibrotic buffer lies in its channel's range, and alpha bytes are 255 |
| Routing.LowerChar | main.js:524 | no capital remains; a capital becomes the small letter at the same alphabet position; any other character is kept |
| Routing.ToLower | main.js:524 | lower-casing keeps the length and lower-cases each character in place |
| Routing.ToLowerIdempotent | main.js:524 | lower-casing twice equals lower-casing once |
| Routing.Includes | main.js:528-534 | definition: `includes`, with the pattern a prefix of the string at some offset, tried left to right |
| Routing.IncludesIff | main.js:528-534 | `includes` holds exactly when the pattern occurs at some offset |
| Routing.Classify | main.js:527-537 | definition: the if-chain artery (ha, artery) → 1, portal vein (pv, portal) → 2, bile duct (bd, bile) → 3, liver → 4, else no route |
| Routing.FirstMatch | main.js:527-537 | the first-match rule returns no route exactly when no rule has a pattern in the name; otherwise it returns the route of a rule that has a pattern in the name while no earlier rule has one |
| Routing.ClassifyIsFirstMatch | main.js:527-537 | the if-chain equals the first-match rule over the table artery, portal vein, bile duct, liver |
| Routing.ClassifyRoutes | main.js:527-537 | a routed mesh has render order 1 to 4; the healthy material goes exactly with order 4; no route carries the fibrotic material |
| Routing.ClassifyDrops | main.js:527-539 | a mesh is dropped exactly when none of the seven patterns occurs in its name |
| Routing.ClassifyLiver | main.js:534-536 | a name is routed as liver exactly when it contains "liver" and none of the six earlier patterns |
| Routing.ClassifyPriority | main.js:528 | "liver_shape" contains "ha" and is routed as an artery, not as liver |
| Routing.ClassifyArteryName | main.js:528-529 | "ha_right" routes to the artery material at order 1 |
| Routing.ClassifyPortalName | main.js:530-531 | "pv_main" routes to the portal-vein material at order 2 |
| Routing.ClassifyBileName | main.js:532-533 | "bd_common" routes to the bile-duct material at order 3 |
| Routing.ClassifyLiverName | main.js:534-536 | "liver" routes to the healthy material at order 4 |
| Scene.MeshNode.constructor | main.js:495-500 | a new mesh carries the given material, render order and position |
| Scene.Neg | main.js:541 | definition: the position −center of a fresh mesh after `position.sub(center)` |
| Scene.TiersOf | main.js:268-271 | definition: ambient, main, fill and back intensities 0.5, 0.7, 0.4, 0.3 in dark mode and 0.7, 0.5, 0.3, 0.2 in light mode |
| Scene.LightDistance | main.js:265 | definition: the light distance, 1.5 times the model size |
| Scene.Direction | main.js:287-322 | definition: the position coefficients (0.8, 0.6, 0.7), (0.6, 0.7, 0.8), (−0.5, 0.3, 0.5), (−0.2, 0.5, −0.8) and (0.2, 0.4, −0.8) of main light 1, main light 2, the fill light and back lights 1 and 2 |
| Scene.RoleIntensity | main.js:287-322 | definition: main lights 0.6 and 0.4 of the main tier, the fill tier, back lights 0.6 and 0.4 of the back tier |
| Scene.LightPosition | main.js:287-322 | definition: each role's fixed coefficients times the light distance, 1.5 times the model size (main.js:265) |
| Scene.MainShadow | main.js:297-306 | definition: the 2048² shadow map of main light 1, near 0.5, far 3 light distances, a ±size frustum, normal bias 0.02 |
| Scene.LabelText | main.js:352-356 | definition: the label strings "Main Light 1", "Main Light 2", "Fill Light", "Back Light 1" and "Back Light 2" of the five roles |
| Scene.DirectionalLight | main.js:278-322 | definition: the light of a role, at its position, aimed at center, with its tier's share of intensity and the shadow map on main light 1 only |
| Scene.Targets | main.js:325-328 | definition: the five light targets, each at center, in role order |
| Scene.Labels | main.js:351-358 | definition: the five visible labels "Main Light 1" to "Back Light 2", each at its light's position |
| Scene.Helpers | main.js:361-374 | definition: the five visible light helpers of size modelSize·0.1, in role order |
| Scene.Directionals | main.js:377-379 | definition: the five directional lights in the order main 1, main 2, fill, back 1, back 2 |
| Scene.RigOthers | main.js:325-374 | definition: the middle of a rig: the five targets, the five labels, and the five helpers in dark mode only |
| Scene.Rig | main.js:274-379 | definition: the children one call appends: ambient light, targets, labels, helpers (dark mode only), the five directional lights |
| Scene.RebuildLights | main.js:261-379 | definition: the scene without its lights, followed by the rig |
| Scene.IsLight | main.js:263 | definition: `child.isLight`, true exactly for the light children |
| Scene.LightsOf | main.js:263 | definition: the lights among the children in scene order, never more than the children |
| Scene.NonLights | main.js:263 | removing the lights leaves no light and never lengthens the scene |
| Scene.NonLightsSplit | main.js:263 | after the removal no light is left, a second removal changes nothing, and kept plus removed children make up the scene |
| Scene.NonLightsKeeps | main.js:263 | a child that is not a light survives the removal |
| Scene.RebuildKeeps | main.js:261-379 | a child that is not a light is still in the scene after `setupLights` |
| Scene.RigOthersNoLights | main.js:325-374 | the targets, labels and helpers of a rig hold no light: 15 children in dark mode, 10 in light mode |
| Scene.RigInSteps | main.js:274-379 | appending the rig equals appending ambient, targets, labels, the helpers (dark mode only) and the directional lights, in the code's order |
| Scene.RigLights | main.js:274-379 | a rig's lights are the ambient light followed by the five directional lights main 1, main 2, fill, back 1, back 2 |
| Scene.RigLightsSplit | main.js:274-379 | a rig's lights are its ambient light followed by the lights of its directional part |
| Scene.DirectionalsLights | main.js:286-379 | the directional part holds the five directional lights in role order |
| Scene.RigNonLights | main.js:325-374 | what a rig adds besides lights is its targets, labels and helpers: 15 children in dark mode, 10 in light mode |
| Scene.RebuildLightsExact | main.js:261-379 | after any `setupLights`, the scene holds exactly six lights: the mode's ambient light and the five directional lights at the given centre |
| Scene.RebuildKeepsNonLights | main.js:261-379 | `setupLights` keeps every other child in order and adds 15 (dark) or 10 (light) children that are not lights |
| Scene.RebuildTwice | main.js:261-379 | two rebuilds in a row still leave six lights, and the children that are not lights grow by both rigs' 10 or 15 |
| Scene.IntensitySplit | main.js:268-322 | the two main lights share the main tier 0.6/0.4, the back lights share the back tier, and every intensity is positive |
| Scene.DarkModeContrast | main.js:268-271 | dark mode has a dimmer ambient light and brighter main, fill and back lights than light mode |
| Scene.SingleShadowCaster | main.js:297-306 | of the six lights only main light 1 casts shadows: a 2048² map, near 0.5, far 4.5·size, a ±size frustum |
| Scene.PositionsScale | main.js:265-322 | light positions scale linearly with the model size; size 0 puts every light at the origin |
| Scene.LabelsAtLights | main.js:351-358 | each light label sits at its light's position |
| Scene.Flip | main.js:641-648 | the toggle changes exactly the helper children, and a child's being a helper does not change |
| Scene.FlipHelpers | main.js:640-650 | the toggled scene has the same length and each child flipped on its own |
| Scene.FlipHelpersInvolution | main.js:640-650 | toggling twice restores the scene; non-helpers are untouched; each helper's visibility is inverted |
| Scene.FlipHelpersKeepsLights | main.js:640-650 | the helper toggle leaves the lights unchanged and commutes with the removal of lights |
| Scene.IsHelper | main.js:642-646 | definition: the children the helper toggle matches: labels (CSS2D objects) and the children named "helper", that is the light helpers, the camera and axes helpers and the origin sphere |
| Scene.Frame | main.js:556-563 | definition: camera distance 1.2 · abs(maxDim / 2 / tan(fov / 2)), near distance / 100, far distance × 100 |
| Scene.FrameProperties | main.js:557-563 | far = 10^4 · near; the camera distance is non-negative and zero exactly for a size-0 model; otherwise 0 < near < far |
| Scene.FrameScales | main.js:557 | scaling the model by k > 0 scales the camera distance by k |
| Viewer.InitialScene | main.js:207-254 | definition: the camera helper, the axes helper, the Origin, X, Y and Z labels at their positions, and the origin sphere, in the order `createScene` adds them |
| Viewer.RouteOf | main.js:518-537 | definition: a mesh object gets the route of its lower-cased name; any other object gets none |
| Viewer.MeshFor | main.js:495-500 | definition: a child is the mesh created for a route when it is a mesh with the route's material and render order at the position −center that main.js:541 gives it |
| Viewer.Routed | main.js:518-537 | the routes of the traversed objects in order, one per routed mesh, never more than there are objects |
| Viewer.LastLiver | main.js:534-536 | the index of the last liver route, and none exactly when no route is a liver route |
| Viewer.RoutedSnoc | main.js:518-545 | visiting one more node appends its route, if it has one |
| Viewer.LastLiverSnoc | main.js:535 | a newly appended liver route becomes the last liver route; any other route leaves it unchanged |
| Viewer.RoutedFromMeshes | main.js:518-524 | every route comes from a mesh node via its lower-cased name; no routable node means no route |
| Viewer.Toggled | main.js:618-621 | the material button maps healthy to fibrotic and fibrotic to healthy |
| Viewer.ToggledInvolution | main.js:616-622 | swapping the liver material twice restores it, and once changes it |
| Viewer.Distinct | main.js:539-541 | definition: no child occurs twice, so the meshes the traversal adds are distinct objects |
| Viewer.LiverViewer.Traversed | main.js:518-545 | definition: the scene is the initial scene followed by the distinct added meshes, one per route, each with its route's material and order at −center, and `liver` is the mesh of the last liver route, or the initial liver if there is none |
| Viewer.LiverViewer.constructor | main.js:9-21 | dark mode, background 0x222222, camera at z = 5 with planes 0.1 and 1000, no liver; both buffers are the 1024² noise buffers; the scene is the `createScene` helpers followed by the default rig |
| Viewer.LiverViewer.CreateNoiseTexture | main.js:81-121 | fills fresh healthy and fibrotic buffers with exactly the specified texels |
| Viewer.LiverViewer.CreateScene | main.js:201-258 | adds the camera and axes helpers, the four axis labels and the origin sphere, then rebuilds the lights at the origin for size 300 |
| Viewer.LiverViewer.SetupLights | main.js:261-379 | the new scene is the old one without its lights, followed by the rig for the current mode, centre and size |
| Viewer.LiverViewer.CreateRoutedMesh | main.js:527-537 | creates a mesh exactly when the name is routed, with the route's material and order at −center; only a liver route sets `liver` |
| Viewer.LiverViewer.VisitChild | main.js:518-545 | a routed mesh child appends one new mesh to the scene; any other child changes nothing |
| Viewer.LiverViewer.VisitStep | main.js:518-545 | one traversal step appends the child's route, if it has one, keeps the meshes added so far as a prefix, and adds at most one mesh, which is freshly allocated; the traversal invariant (distinct meshes, their routes, `liver` on the last liver route) is preserved |
| Viewer.LiverViewer.AddModelMeshes | main.js:518-545 | appends one mesh per routed node, in traversal order, each with its route's material and order at −center; every added mesh is freshly allocated and no two are the same object; `liver` is the mesh of the last liver route, or unchanged if there is none |
| Viewer.LiverViewer.OnModelLoaded | main.js:506-563 | adds the routed meshes, all freshly allocated and pairwise distinct, so a second load never reuses a mesh of the first, then rebuilds the lights at the origin for maxDim and sets the camera framing for maxDim |
| Viewer.LiverViewer.ToggleMaterial | main.js:616-622 | does nothing without a liver; otherwise it swaps the liver's healthy and fibrotic material |
| Viewer.LiverViewer.ToggleDarkMode | main.js:625-637 | flips the mode, sets the matching background, and rebuilds the lights with the defaults |
| Viewer.LiverViewer.ToggleHelpers | main.js:640-650 | the scene becomes the helper-toggled scene, and the liver stays in it |

## Left out

- Rendering is left out, because it has no state the model tracks. This covers the WebGL and CSS2D renderers, the DOM container check, the HTML elements of labels and buttons (text, colours, styles), the render loop, `OrbitControls` and the resize handler.
- `createMaterials` is left out: materials are opaque tags (`Routing.Material`), because their physical parameters are never read by the core.
- The `DataTexture` wrapping of the two buffers (filters, mip-maps, repeat) is left out, because it is a foreign call that does not change the bytes.
- The asynchronous GLTF load, its progress and error callbacks, `Box3` and `computeVertexNormals` are left out. The load callback takes the traversed objects (name and mesh flag), the bounding-box centre and the largest dimension as inputs.
- `Math.sin` is a parameter of the noise model and `Math.tan(fov / 2)` a parameter of the framing, because they are foreign numerical functions.
- IEEE-754 rounding is left out: the arithmetic is over exact reals. The bounds proved for the buffers therefore hold for exact arithmetic.
- `Noise.FractalNoise`: requires at least one octave. With zero octaves the JavaScript returns 0/0 = NaN, which exact reals cannot express; every caller passes 3, 4 or 6.
- `Routing.ToLower`: lower-cases ASCII letters only and leaves every other character unchanged. JavaScript's `toLowerCase` also maps other characters, but only two of them to ASCII letters: U+0130 becomes "i" followed by U+0307, and U+212A becomes "k". No pattern contains "k", and in the two patterns that contain "i" ("bile", "liver") it is followed by "l" or "v", never by U+0307. So neither character can complete any of the seven patterns, and `Routing.Classify` gives the route JavaScript gives. This argument is not proved in the model.
- `Scene.FlipHelpers`: the scene is flat. The `Line` children nested inside each light helper, which the traversal also flips, are not modelled.
- Light colour (always white), `castShadow`/`receiveShadow` on loaded meshes, and the lights' own target objects inside three.js are left out, because no model property depends on them.
- `Viewer.LiverViewer.CreateNoiseTexture`: the texture size is a parameter; the constructor passes 1024, as the source does.
- `Viewer.LiverViewer.ToggleDarkMode`: the button text it updates is not modelled, because it is DOM state.
