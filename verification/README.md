# NeuralWave background engine, modelled in Dafny

The animated 3D background of the NeuralWave page has two independent entity
systems. Each is a class that owns an array of entities and mutates them in
place once per frame.

- **`NeuralNetwork`** picks a node count from the viewport (30, 50 or 80).
  It scatters the nodes on a spherical shell and builds a static proximity
  graph: one connection line per pair of nodes whose initial distance is
  below 3. Every frame it swings each node around its initial position,
  turns and pulses it, copies the updated node positions into every line's
  endpoint buffer and writes a pulsing opacity and hue into the line
  material. `dispose` releases every geometry and material, removes
  everything from the scene and empties both arrays.
- **`FloatingShapes`** picks 5 or 10 shapes by viewport width. Each shape
  gets its own spin, float speed, float range, phase and parallax strength.
  Every frame it spins each shape, bobs it around its initial height, pulls
  it one smoothing step towards the mouse when there is one, and pulses
  its opacity. `dispose` releases, removes and empties the same way.

The project has five modules, one file each:

- `Common` (common.dfy): vectors, the palette, pi, the host's sine and
  random source as parameters, and JavaScript's `% 1`.
- `SceneGraph` (scene.dfy): the scene as a set of object ids, and the
  resource handles whose `dispose()` is called.
- `Proximity` (proximity.dfy): the pair enumeration of the double loop as
  a pure function, with its soundness, completeness, order and count.
- `Network` (network.dfy): the `NeuralNetwork` class.
- `Shapes` (shapes.dfy): the `FloatingShapes` class.

Records stand in for the meshes and lines of the rendering library. The
JavaScript arrays are `seq` fields that the methods reassign. Each loop is
a `for` loop whose invariant ties the array to a specification function of
the old state (`Spawned`, `Links`, `Animated`, `Retraced`, `Stepped`, …).
The properties the program promises are proved about those functions.

The values the program's own `Math.random()` calls return form a stream
of draws in [0, 1), in the order the program makes the calls:
- node `i` takes draws 8i .. 8i+7;
- shape `i` takes draws 16i .. 16i+15;
- connection `k` takes draw `k` of the draws that follow the nodes.

`Math.sin` is a parameter whose values lie in [-1, 1]; `Math.cos(a)` is
written as `sin(a + pi/2)`. The value of `Date.now()` is a parameter `now`.

Three behaviours of the code are worth stating outright:
- The 50-node count is chosen on a viewport at least 768 wide when the
  `(min-resolution: 2dppx)` query does *not* match; the code names that
  case `isLowEnd` (neuralwave-app/src/js/neuralNetwork.js:17-20).
- `dispose` releases shared handles repeatedly. All nodes share one sphere
  geometry (neuralNetwork.js:30, 43), all lines share one material
  (neuralNetwork.js:71, 97), and all shapes share five geometries
  (floatingShapes.js:22-33). The node and line loops of `dispose`
  (neuralNetwork.js:161-178) and the shape loop (floatingShapes.js:108-116)
  release the handle of every entity, so a shared one is released once per
  entity that uses it. The release-count lemmas state how many times each
  handle is released. A *second* `dispose()` finds the arrays empty and
  releases nothing more (`DisposeTwice`).
- An `update()` after `dispose()` iterates over empty arrays and changes
  nothing, neither the arrays nor the scene (`DisposeThenUpdate`).

## Model

| member | source | states |
|---|---|---|
| Network.GetNodeCount | neuralwave-app/src/js/neuralNetwork.js:14-22 | The count is 30, 50 or 80; it is 30 exactly when the width is below 768; on wider viewports it is 80 exactly when the 2dppx query matches |
| Network.ShellHeight | neuralwave-app/src/js/neuralNetwork.js:52 | The height `radius * cos(phi)` of a shell point never leaves [-radius, radius] |
| Network.ShellCoordinate | neuralwave-app/src/js/neuralNetwork.js:50-51 | A coordinate `radius * sin(phi) * cos(theta)` or `radius * sin(phi) * sin(theta)` never leaves [-radius, radius] |
| Network.ShellPoint | neuralwave-app/src/js/neuralNetwork.js:50-52 | Every coordinate of the shell point at radius `radius` lies in [-radius, radius] |
| Network.ShellWithin | neuralwave-app/src/js/neuralNetwork.js:46-52 | The program's own placement puts a point at radius `radius` within [-bound, bound] in every coordinate, for any bound at least `radius` |
| Network.ShellSpawnBounded | neuralwave-app/src/js/neuralNetwork.js:46-52 | Under the program's own placement a node's radius `5 + 5r` is below 10, so every coordinate of its start position lies in [-10, 10] |
| Common.PickIndex | neuralwave-app/src/js/neuralNetwork.js:34 | `Math.floor(r * len)` is a valid index, and it is the floor of `r * len` |
| Common.PickColor | neuralwave-app/src/js/neuralNetwork.js:31-34 | A colour picked with a draw is one of the three palette colours |
| Common.Drift | neuralwave-app/src/js/neuralNetwork.js:57-61 | A velocity (or spin) component `(r - 0.5) * 0.02` lies in [-0.01, 0.01) |
| Common.PhaseOf | neuralwave-app/src/js/neuralNetwork.js:62 | A phase `r * pi * 2` lies in [0, 2 pi) |
| Common.Cos | neuralwave-app/src/js/neuralNetwork.js:120 | The cosine the program calls stays in [-1, 1] |
| Common.RemOne | neuralwave-app/src/js/neuralNetwork.js:155 | JavaScript's `a % 1` differs from `a` by a whole number; it lies in [0, 1) for non-negative `a` and in (-1, 0] for negative `a` |
| Network.SpawnNode | neuralwave-app/src/js/neuralNetwork.js:33-63 | A fresh node sits at its stored initial position, with a palette colour, phase in [0, 2 pi), velocity components in [-0.01, 0.01), zero rotation, unit scale, glow 0.5 and opacity 0.8 |
| Network.SpawnPlacement | neuralwave-app/src/js/neuralNetwork.js:46-52 | Whatever the placement, a node is placed at a radius in [5, 10), an azimuth in [0, 2 pi) and a polar angle in [0, pi) |
| Network.Spawned | neuralwave-app/src/js/neuralNetwork.js:33-67 | Building `n` nodes yields exactly `n` nodes |
| Network.SpawnedStep | neuralwave-app/src/js/neuralNetwork.js:33-66 | One more loop iteration appends exactly node `n` to the first `n` |
| Network.SpawnedAtRest | neuralwave-app/src/js/neuralNetwork.js:55-62 | The positions of all fresh nodes equal their initial positions, and all phases lie in [0, 2 pi) |
| Network.AnimateNode | neuralwave-app/src/js/neuralNetwork.js:115-133 | A frame keeps a node's creation data, colour and opacity; each coordinate stays within 0.5 of the initial position; rotation x and y grow by exactly 0.01 and z is untouched; scale is uniform in [0.8, 1.2]; glow lies in [0.1, 0.5] |
| Network.PulseAtRest | neuralwave-app/src/js/neuralNetwork.js:128-132 | With time and phase 0 (and sin 0 = 0), scale is exactly 1 and glow exactly 0.3 |
| Network.ConnectionOpacity | neuralwave-app/src/js/neuralNetwork.js:151-152 | A connection's opacity lies in [0, 0.2] |
| Network.ConnectionHue | neuralwave-app/src/js/neuralNetwork.js:155-156 | The hue passed to `setHSL` lies in [0.5, 0.8) when time + pulsePhase is not negative, and in (0.2, 0.5] otherwise |
| Network.PulseStyle | neuralwave-app/src/js/neuralNetwork.js:150-157 | A connection writes an HSL colour with saturation 1 and lightness 0.5, hue in [0.5, 0.8) for a non-negative `time + pulsePhase`, and an opacity in [0, 0.2] |
| Network.Connect | neuralwave-app/src/js/neuralNetwork.js:85-102 | A connection records the pair's two node indices and a pulse phase in [0, 2 pi); for an in-range pair it is valid and its buffer holds the two nodes' positions, first node first |
| Network.LinksAlong | neuralwave-app/src/js/neuralNetwork.js:97-105 | One connection is built per linked pair |
| Network.LinksAlongStep | neuralwave-app/src/js/neuralNetwork.js:97-105 | Linking one pair more appends its connection, which takes the next draw |
| Network.Links | neuralwave-app/src/js/neuralNetwork.js:79-108 | `createConnections` builds exactly one connection per pair the double loop finds |
| Network.LinksExactlyNear | neuralwave-app/src/js/neuralNetwork.js:79-107 | Nodes `a` and `b` are joined (as nodeA, nodeB) if and only if `a < b` and their points lie within distance 3 |
| Network.LinksOrdered | neuralwave-app/src/js/neuralNetwork.js:79-107 | Connections have distinct, in-range endpoints, the smaller first; they come in strictly increasing (nodeA, nodeB) order; no unordered pair is joined twice |
| Network.LinksCount | neuralwave-app/src/js/neuralNetwork.js:79-107 | There are at most n(n-1)/2 connections over n nodes |
| Network.LinksValid | neuralwave-app/src/js/neuralNetwork.js:86-102 | Every connection built has in-range endpoints `nodeA < nodeB`, a six-value buffer and a pulse phase in [0, 2 pi) |
| Network.LinkStep | neuralwave-app/src/js/neuralNetwork.js:81-105 | Testing pair (i, j): when the nodes are near, the pair is the next one found and its connection the next one built; otherwise the pair is skipped |
| Network.AnimatedKeepsData | neuralwave-app/src/js/neuralNetwork.js:115-133 | A frame keeps every node's creation data (initial position, velocity and phase), so it keeps the node invariant; every node ends within 0.5 of its initial position |
| Network.Animated | neuralwave-app/src/js/neuralNetwork.js:115-133 | A frame keeps the number of nodes and animates every node, each by `AnimateNode` |
| Network.AnimatedUpToStep | neuralwave-app/src/js/neuralNetwork.js:115-133 | One more iteration of the node loop animates node `k` and nothing else |
| Network.RetracedUpToStep | neuralwave-app/src/js/neuralNetwork.js:136-158 | One more iteration of the connection loop re-reads the buffer of connection `k` and nothing else |
| Network.Retraced | neuralwave-app/src/js/neuralNetwork.js:136-146 | The connection loop keeps the number of connections and re-reads every buffer, each by `Retrace` |
| Network.RetracedFollowsNodes | neuralwave-app/src/js/neuralNetwork.js:136-146 | Re-reading keeps nodeA, nodeB and pulsePhase; each buffer then holds exactly the current positions of nodeA and then nodeB |
| Network.BuildThenDisposeRestoresScene | neuralwave-app/src/js/neuralNetwork.js:161-174 | Adding the meshes of `n` nodes and the lines of `m` connections, then removing them, leaves a scene that held none of them as it was |
| Network.SphereReleases | neuralwave-app/src/js/neuralNetwork.js:163-167 | Disposing `n` nodes releases the one shared sphere geometry `n` times |
| Network.NodeReleasesLayout | neuralwave-app/src/js/neuralNetwork.js:163-167 | The node loop of `dispose` makes two releases per node, in node order: the shared sphere geometry, then the node's material |
| Network.LineReleasesLayout | neuralwave-app/src/js/neuralNetwork.js:170-174 | The connection loop of `dispose` makes two releases per line, in line order: its geometry, then the shared line material |
| Network.NodeMaterialReleases | neuralwave-app/src/js/neuralNetwork.js:163-167 | Disposing `n` nodes releases each node's own material exactly once and no other |
| Network.LineMaterialReleases | neuralwave-app/src/js/neuralNetwork.js:170-174 | Disposing `n` connections releases the one shared line material `n` times |
| Network.LineGeometryReleases | neuralwave-app/src/js/neuralNetwork.js:170-174 | Disposing `n` connections releases each line's own geometry exactly once and no other |
| Network.NeuralNetwork.constructor | neuralwave-app/src/js/neuralNetwork.js:4-27 | The node count comes from the viewport; the nodes are exactly the spawned ones; the connections are exactly the links over their initial positions, built from the draws that follow; the scene gains exactly their meshes and lines; the invariant holds |
| Network.NeuralNetwork.CreateNodes | neuralwave-app/src/js/neuralNetwork.js:29-68 | Appends exactly the `nodeCount` spawned nodes, adds their meshes to the scene and changes nothing else |
| Network.NeuralNetwork.AddNode | neuralwave-app/src/js/neuralNetwork.js:34-66 | One iteration of the node loop pushes node `i` and adds its mesh, and nothing else |
| Network.NeuralNetwork.CreateConnections | neuralwave-app/src/js/neuralNetwork.js:70-109 | Creates the shared line material and appends exactly `Links` over the current positions; the scene gains exactly their lines; the nodes are untouched |
| Network.NeuralNetwork.LinkRow | neuralwave-app/src/js/neuralNetwork.js:80-107 | One row of the double loop appends the connections of the near pairs (i, j), j > i, in order |
| Network.NeuralNetwork.LinkIfNear | neuralwave-app/src/js/neuralNetwork.js:81-106 | The body of the double loop pushes a connection (and adds its line) exactly when the pair is near |
| Network.NeuralNetwork.Update | neuralwave-app/src/js/neuralNetwork.js:111-159 | Animates every node at time `now * 0.0005`, then re-reads every buffer from the updated nodes; the shared material keeps the last connection's opacity and hue; the invariant holds |
| Network.NeuralNetwork.UpdateNodes | neuralwave-app/src/js/neuralNetwork.js:115-133 | The node loop leaves exactly `Animated` of the old nodes |
| Network.NeuralNetwork.UpdateConnections | neuralwave-app/src/js/neuralNetwork.js:136-158 | The connection loop leaves exactly `Retraced` of the old connections; the shared material holds the last connection's style, or is unchanged when there are no connections |
| Network.NeuralNetwork.Dispose | neuralwave-app/src/js/neuralNetwork.js:161-178 | Both arrays end empty; the release log grows by one sphere geometry and material per node, then one line geometry and the shared material per connection; every former mesh and line leaves the scene |
| Network.DisposeThenUpdate | neuralwave-app/src/js/neuralNetwork.js:161-178 | Disposing and then running a frame leaves both arrays empty, the release log as after `dispose` alone, and the scene without any former node mesh or line: the frame changes nothing |
| Network.DisposeTwice | neuralwave-app/src/js/neuralNetwork.js:161-178 | A second disposal releases nothing more and leaves the arrays empty, the line material, `Valid` and the scene as after the first |
| Proximity.SqDist | neuralwave-app/src/js/neuralNetwork.js:81 | The squared distance that stands in for `distanceTo` is never negative |
| Proximity.PairsFromStep | neuralwave-app/src/js/neuralNetwork.js:80-84 | Testing pair (i, j) appends (i, j) to the pairs found when near, and nothing otherwise |
| Proximity.PairsFromMembers | neuralwave-app/src/js/neuralNetwork.js:79-107 | From loop position (i, j), exactly the near pairs at or after that position are still to come |
| Proximity.PairsFromHead | neuralwave-app/src/js/neuralNetwork.js:80-84 | Testing (i, j) pushes (i, j) itself when near, and nothing else |
| Proximity.ProximityPairsMembers | neuralwave-app/src/js/neuralNetwork.js:79-107 | Sound and complete: (a, b) is found if and only if a < b are indices whose points lie within distance 3 |
| Proximity.ProximityPairsInRange | neuralwave-app/src/js/neuralNetwork.js:79-84 | Every pair found has in-range endpoints, the smaller first, whose points are near |
| Proximity.PairsFromOrdered | neuralwave-app/src/js/neuralNetwork.js:79-80 | The loop pushes pairs in strictly increasing lexicographic order from any position |
| Proximity.ProximityPairsOrdered | neuralwave-app/src/js/neuralNetwork.js:79-80 | All pairs found are in strictly increasing lexicographic order |
| Proximity.ProximityPairsUnique | neuralwave-app/src/js/neuralNetwork.js:79-80 | No unordered pair is found twice, in either order |
| Proximity.PairsFromCount | neuralwave-app/src/js/neuralNetwork.js:79-84 | The loop pushes at most one pair per distance test |
| Proximity.ComparisonsFromRow | neuralwave-app/src/js/neuralNetwork.js:79-80 | From the start of row `i`, the loop makes (n-i)(n-i-1)/2 distance tests |
| Proximity.ProximityPairsCount | neuralwave-app/src/js/neuralNetwork.js:79-107 | At most n(n-1)/2 pairs are found |
| Proximity.TwoNodeScenarios | neuralwave-app/src/js/neuralNetwork.js:84 | Two nodes at distance 2 are linked once; two at distance 5 are not linked |
| SceneGraph.Scene.Add | neuralwave-app/src/js/neuralNetwork.js:65 | `scene.add` puts exactly that object in the scene |
| SceneGraph.Scene.Remove | neuralwave-app/src/js/neuralNetwork.js:166 | `scene.remove` takes exactly that object out of the scene |
| Shapes.GetShapeCount | neuralwave-app/src/js/floatingShapes.js:12-15 | The count is 5 or 10, and it is 5 exactly when the width is below 768 |
| Shapes.Centered | neuralwave-app/src/js/floatingShapes.js:48-50 | A coordinate `(r - 0.5) * width` lies in [-width/2, width/2) |
| Shapes.Spread | neuralwave-app/src/js/floatingShapes.js:64-68 | A parameter `r * factor + offset` lies in [offset, offset + factor) |
| Shapes.HalfTurn | neuralwave-app/src/js/floatingShapes.js:53-55 | An initial rotation `r * pi` lies in [0, pi) |
| Shapes.SpawnShape | neuralwave-app/src/js/floatingShapes.js:32-69 | A fresh shape has one of the five geometries and a palette colour that is also its emissive colour; glow and opacity are 0.3; it is wireframe exactly when its draw exceeds 0.5; x and y lie in [-15, 15), z in [-20, 0), rotations in [0, pi); initialY equals y; spin components lie in [-0.01, 0.01), float speed in [0.0005, 0.0015), float range and parallax strength in [1, 3), phase in [0, 2 pi) |
| Shapes.SpawnedShapes | neuralwave-app/src/js/floatingShapes.js:32-73 | Building `n` shapes yields exactly `n` shapes |
| Shapes.SpawnedShapesStep | neuralwave-app/src/js/floatingShapes.js:32-73 | One more loop iteration appends exactly shape `n` to the first `n` |
| Shapes.SpawnedShapesOk | neuralwave-app/src/js/floatingShapes.js:32-73 | All fresh shapes meet the per-shape invariant and start at their initial height |
| Shapes.ParallaxStep | neuralwave-app/src/js/floatingShapes.js:99-100 | The step shrinks the gap to `100 * target * strength` by exactly 0.9995; it moves strictly towards that point and never overshoots it; it stays put there |
| Shapes.ParallaxConverges | neuralwave-app/src/js/floatingShapes.js:99-100 | With the mouse held still for `n` frames, the gap is the initial gap times 0.9995^n |
| Shapes.ParallaxNeverRecedes | neuralwave-app/src/js/floatingShapes.js:99-100 | No number of frames takes a coordinate further from that point, or past it |
| Shapes.AnimateShape | neuralwave-app/src/js/floatingShapes.js:79-105 | A frame adds exactly the spin to the rotation; y stays within floatRange of initialY; without a mouse x and z are unchanged; with one, x follows the mouse's x and z the mouse's y, one parallax step each; opacity lies in [0.1, 0.3]; geometry, material colours, wireframe and user data are unchanged |
| Shapes.SteppedUpToStep | neuralwave-app/src/js/floatingShapes.js:79-105 | One more iteration of the frame loop animates shape `k` and nothing else |
| Shapes.Stepped | neuralwave-app/src/js/floatingShapes.js:79-105 | A frame keeps the number of shapes and animates every shape, each by `AnimateShape` |
| Shapes.SteppedKeepsShapes | neuralwave-app/src/js/floatingShapes.js:79-105 | A frame keeps every shape's user data and the per-shape invariant; every shape stays within its float range of its initial height; without a mouse no shape moves in x or z |
| Shapes.BuildThenDisposeRestoresScene | neuralwave-app/src/js/floatingShapes.js:108-116 | Adding the meshes of `n` shapes and removing them again leaves a scene that held none of them as it was |
| Shapes.GeometryReleases | neuralwave-app/src/js/floatingShapes.js:108-113 | Disposing releases each of the five shared geometries once per shape that uses it: several times when shared, not at all when unused |
| Shapes.ShapeReleasesLayout | neuralwave-app/src/js/floatingShapes.js:108-113 | The loop of `dispose` makes two releases per shape, in shape order: the geometry of its kind, then its own material |
| Shapes.ShapeMaterialReleases | neuralwave-app/src/js/floatingShapes.js:108-113 | Disposing releases each shape's own material exactly once and no other |
| Shapes.FloatingShapes.constructor | neuralwave-app/src/js/floatingShapes.js:4-19 | The shape count comes from the viewport width; the shapes are exactly the spawned ones; the scene gains exactly their meshes; the invariant holds |
| Shapes.FloatingShapes.CreateShapes | neuralwave-app/src/js/floatingShapes.js:21-74 | Appends exactly the `shapeCount` spawned shapes and adds their meshes to the scene |
| Shapes.FloatingShapes.AddShape | neuralwave-app/src/js/floatingShapes.js:32-73 | One iteration of the loop pushes shape `i` and adds its mesh, and nothing else |
| Shapes.FloatingShapes.Update | neuralwave-app/src/js/floatingShapes.js:76-106 | Leaves exactly `Stepped` of the old shapes at wall-clock time `now`, keeping the invariant and the release log |
| Shapes.FloatingShapes.AnimateShapes | neuralwave-app/src/js/floatingShapes.js:79-105 | The `forEach` loop leaves exactly `Stepped` of the old shapes |
| Shapes.FloatingShapes.Dispose | neuralwave-app/src/js/floatingShapes.js:108-116 | The array ends empty; the release log grows by each shape's geometry and material in order; every former mesh leaves the scene |
| Shapes.DisposeThenUpdate | neuralwave-app/src/js/floatingShapes.js:76-116 | Disposing and then running a frame leaves the array empty, the release log as after `dispose` alone, and the scene without any former shape mesh: the frame changes nothing |
| Shapes.DisposeTwice | neuralwave-app/src/js/floatingShapes.js:108-116 | A second disposal releases nothing more and leaves the array empty, `Valid` and the scene as after the first |

## Left out

- The page itself is not part of this model: DOM, animation timelines, smooth scrolling, the statistics overlay, renderer, camera and light setup, event listeners, the frame loop, the custom cursor and the loading screen. Its mouse normalisation only produces the optional mouse position that `FloatingShapes.Update` takes.
- Window size and the `matchMedia` query are parameters (`viewportWidth`, `matchesHiDpi`), because they are host I/O.
- `Date.now()` and `Math.random()` are parameters (`now`, the `Draws` stream), because they are a clock and a random source.
- `Math.sin` is a parameter bounded in [-1, 1], and `Math.cos` is written through it; IEEE-754 rounding is not modelled. All arithmetic is on reals.
- Node placement: the spherical-shell trigonometry is `Shell`. The constructor takes the placement as a parameter, so the graph properties hold for any placement; only the bounds on shell points (`ShellWithin`, `ShellSpawnBounded`) depend on the shell formulas.
- `distanceTo`'s square root: distance < 3 is compared as squared distance < 9. The Float32Array rounding of the line buffers is not modelled.
- Rendering-library internals are not modelled: geometry and material construction, `needsUpdate`, the `setHSL` conversion (only the hue, saturation and lightness handed to it are kept), additive blending and the sphere and shape geometry dimensions.
- A node's `velocity` is stored but never read, as in the program.
- Connections refer to their nodes by index rather than by object reference; the index is the node's position in the array, which `createConnections` never changes.
- Network.NeuralNetwork.CreateConnections: a second call, which the program never makes, would create a second shared material. The model keeps a single `lineMaterial` field, so it does not distinguish the two materials.
- Shapes.FloatingShapes.CreateShapes: a second call, which the program never makes, would create five fresh geometries. The model names geometries by kind only (`ShapeGeometry(kind)`), so it does not distinguish them from the first five.
- Network.PointAt: the origin fallback for an out-of-range index is never used, because every linked pair is in range (`LinksValid`).
