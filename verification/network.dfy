/**
 * The node network of the background: a fixed set of nodes floating around
 * their initial positions, and a static proximity graph of connection lines
 * whose endpoints follow the nodes every frame.
 *
 * A node or connection of the rendering library is a record here; the
 * `nodes` and `connections` arrays are sequence fields that the methods
 * reassign. A connection refers to its two nodes by index.
 */
module Network {
  import opened Common
  import opened SceneGraph
  import opened Proximity

  /** `node.userData`: fixed at creation, read by every frame. */
  datatype NodeData = NodeData(initialPosition: Vec3, velocity: Vec3, phase: real)

  /** A node mesh: its transform, its material's colour, glow and opacity, and its user data. */
  datatype Node = Node(
    position: Vec3,
    rotation: Vec3,
    scale: Vec3,
    color: int,
    emissiveIntensity: real,
    opacity: real,
    data: NodeData)

  /** `line.userData`: the two endpoint nodes (by index) and the pulse phase. */
  datatype LinkData = LinkData(nodeA: nat, nodeB: nat, pulsePhase: real)

  /** A connection line: its six-value endpoint buffer and its user data. */
  datatype Connection = Connection(positions: seq<real>, data: LinkData)

  /** A colour as the program last set it: a hex value, or the arguments of `setHSL`. */
  datatype Color = Hex(rgb: int) | Hsl(hue: real, saturation: real, lightness: real)

  /** The one line material every connection shares: its colour and opacity. */
  datatype LineMaterial = LineMaterial(color: Color, opacity: real)

  const FreshLineMaterial: LineMaterial := LineMaterial(Hex(0x00D9FF), 0.2)

  /**
   * The node count chosen from the viewport: 30 on a narrow viewport;
   * otherwise 50 when the `(min-resolution: 2dppx)` query does NOT match
   * (which the program calls "low end") and 80 when it does.
   */
  function GetNodeCount(viewportWidth: int, matchesHiDpi: bool): (count: nat)
    ensures count == 30 || count == 50 || count == 80
    ensures viewportWidth < 768 <==> count == 30
    ensures 768 <= viewportWidth ==> (count == 80 <==> matchesHiDpi)
  {
    var isMobile := viewportWidth < 768;
    var isLowEnd := !matchesHiDpi;
    if isMobile then 30 else if isLowEnd then 50 else 80
  }

  /** Every coordinate of `p` lies within 0.5 of the matching coordinate of `q`. */
  predicate WithinHalf(p: Vec3, q: Vec3)
  {
    -0.5 <= p.x - q.x <= 0.5 && -0.5 <= p.y - q.y <= 0.5 && -0.5 <= p.z - q.z <= 0.5
  }

  /**
   * Where a node is placed, from its radius, azimuth and polar angle. The
   * program uses the spherical-shell conversion `Shell`; the model takes the
   * placement as given, so that the rest does not depend on its products.
   */
  type Placement = (real, real, real) -> Vec3

  /** The height `radius * cos(phi)` of a shell point, which never leaves [-radius, radius]. */
  function ShellHeight(radius: real, phi: real, sin: Wave): (z: real)
    requires 0.0 <= radius
    ensures -radius <= z <= radius
  {
    var c := Cos(sin, phi);
    Amplitude(c, radius);
    assert radius * c == c * radius;
    radius * c
  }

  /**
   * A shell coordinate `radius * u * v` built from two unit values (a sine
   * and a cosine), which never leaves [-radius, radius].
   */
  function ShellCoordinate(radius: real, u: real, v: real): (c: real)
    requires 0.0 <= radius && -1.0 <= u <= 1.0 && -1.0 <= v <= 1.0
    ensures -radius <= c <= radius
  {
    UnitProduct(u, v);
    Amplitude(u * v, radius);
    assert radius * u * v == (u * v) * radius;
    radius * u * v
  }

  /**
   * The point of the spherical shell at radius `radius`, azimuth `theta`
   * and polar angle `phi`; each of its coordinates lies in [-radius, radius].
   */
  function ShellPoint(radius: real, theta: real, phi: real, sin: Wave): (v: Vec3)
    requires 0.0 <= radius
    ensures -radius <= v.x <= radius && -radius <= v.y <= radius && -radius <= v.z <= radius
  {
    Vec3(ShellCoordinate(radius, sin(phi), Cos(sin, theta)),
         ShellCoordinate(radius, sin(phi), sin(theta)),
         ShellHeight(radius, phi, sin))
  }

  /** The program's own placement: the spherical shell under the host's sine. */
  function Shell(sin: Wave): Placement
  {
    (radius: real, theta: real, phi: real) =>
      if 0.0 <= radius then ShellPoint(radius, theta, phi, sin) else Zero
  }

  /**
   * Node `i` of a `createNodes` call, built from the draws 8i .. 8i+7 of
   * the random stream in the order the program makes them: colour, radius,
   * azimuth, polar angle, the three velocity components, phase.
   */
  function SpawnNode(rand: Draws, i: nat, place: Placement): (node: Node)
    ensures node.position == node.data.initialPosition
    ensures 0.0 <= node.data.phase < 2.0 * Pi
    ensures node.color in Palette
    ensures -0.01 <= node.data.velocity.x < 0.01
    ensures -0.01 <= node.data.velocity.y < 0.01
    ensures -0.01 <= node.data.velocity.z < 0.01
    ensures node.rotation == Zero && node.scale == Ones
    ensures node.emissiveIntensity == 0.5 && node.opacity == 0.8
  {
    var d := 8 * i;
    var color := PickColor(rand(d));
    var radius := 5.0 + rand(d + 1) * 5.0;
    var theta := rand(d + 2) * Pi * 2.0;
    var phi := rand(d + 3) * Pi;
    var position := place(radius, theta, phi);
    var velocity := Vec3(Drift(rand(d + 4)), Drift(rand(d + 5)), Drift(rand(d + 6)));
    Node(position, Zero, Ones, color, 0.5, 0.8, NodeData(position, velocity, PhaseOf(rand(d + 7))))
  }

  /** The first `n` nodes a `createNodes` call builds, in order. */
  function Spawned(rand: Draws, n: nat, place: Placement): (ns: seq<Node>)
    ensures |ns| == n
  {
    seq(n, i requires 0 <= i < n => SpawnNode(rand, i, place))
  }

  /** Building one node more appends node `n` to the first `n`. */
  lemma SpawnedStep(rand: Draws, n: nat, place: Placement)
    ensures Spawned(rand, n + 1, place) == Spawned(rand, n, place) + [SpawnNode(rand, n, place)]
  {
    var longer, shorter := Spawned(rand, n + 1, place), Spawned(rand, n, place);
    forall i | 0 <= i < n ensures longer[i] == shorter[i] {
    }
  }

  /**
   * Freshly built nodes rest at their initial positions and carry phases
   * in [0, 2 pi).
   */
  lemma SpawnedAtRest(rand: Draws, n: nat, place: Placement)
    ensures Positions(Spawned(rand, n, place)) == InitialPositions(Spawned(rand, n, place))
    ensures NodesOk(Spawned(rand, n, place))
  {
    var ns := Spawned(rand, n, place);
    forall i | 0 <= i < n ensures ns[i].position == ns[i].data.initialPosition {
      assert ns[i] == SpawnNode(rand, i, place);
    }
  }

  /** Node `i` is placed from its radius, azimuth and polar angle draws. */
  lemma SpawnPosition(rand: Draws, i: nat, place: Placement)
    ensures SpawnNode(rand, i, place).position
      == place(5.0 + rand(8 * i + 1) * 5.0, rand(8 * i + 2) * Pi * 2.0, rand(8 * i + 3) * Pi)
  {
  }

  /**
   * Whatever the placement, a node is placed at a radius in [5, 10), an
   * azimuth in [0, 2 pi) and a polar angle in [0, pi).
   */
  lemma SpawnPlacement(rand: Draws, i: nat, place: Placement)
    ensures exists radius, theta, phi ::
      5.0 <= radius < 10.0 && 0.0 <= theta < 2.0 * Pi && 0.0 <= phi < Pi &&
      SpawnNode(rand, i, place).position == place(radius, theta, phi)
  {
    var d := 8 * i;
    ScaleBelow(rand(d + 1), 5.0);
    ScaleBelow(rand(d + 3), Pi);
    var theta := PhaseOf(rand(d + 2));
    SpawnPosition(rand, i, place);
    assert SpawnNode(rand, i, place).position == place(5.0 + rand(d + 1) * 5.0, theta, rand(d + 3) * Pi);
  }

  /**
   * Under the program's own placement a node starts on a shell of radius
   * 5 + 5r < 10, so every coordinate of its position lies in [-10, 10].
   */
  lemma ShellSpawnBounded(rand: Draws, i: nat, sin: Wave)
    ensures var v := SpawnNode(rand, i, Shell(sin)).position;
      -10.0 <= v.x <= 10.0 && -10.0 <= v.y <= 10.0 && -10.0 <= v.z <= 10.0
  {
    var d := 8 * i;
    var radius, theta, phi := 5.0 + rand(d + 1) * 5.0, rand(d + 2) * Pi * 2.0, rand(d + 3) * Pi;
    SpawnPosition(rand, i, Shell(sin));
    ShellWithin(sin, radius, theta, phi, 10.0);
  }

  /**
   * A point the program's placement puts at radius `radius` lies, in every
   * coordinate, within any bound at least `radius`.
   */
  lemma ShellWithin(sin: Wave, radius: real, theta: real, phi: real, bound: real)
    requires 0.0 <= radius <= bound
    ensures var v := Shell(sin)(radius, theta, phi);
      -bound <= v.x <= bound && -bound <= v.y <= bound && -bound <= v.z <= bound
  {
    assert Shell(sin)(radius, theta, phi) == ShellPoint(radius, theta, phi, sin);
  }

  /**
   * One frame of node `n` at animation time `time`: the position swings
   * around the initial position, the mesh turns by 0.01 about x and y, and
   * scale and glow pulse. Nothing fixed at creation changes.
   */
  function AnimateNode(n: Node, time: real, sin: Wave): (r: Node)
    ensures r.data == n.data
    ensures r.color == n.color && r.opacity == n.opacity
    ensures WithinHalf(r.position, n.data.initialPosition)
    ensures r.rotation == Vec3(n.rotation.x + 0.01, n.rotation.y + 0.01, n.rotation.z)
    ensures r.scale.x == r.scale.y == r.scale.z
    ensures 0.8 <= r.scale.x <= 1.2
    ensures 0.1 <= r.emissiveIntensity <= 0.5
  {
    var initial, phase := n.data.initialPosition, n.data.phase;
    var position := Vec3(
      initial.x + sin(time + phase) * 0.5,
      initial.y + Cos(sin, time + phase * 1.5) * 0.5,
      initial.z + sin(time + phase * 0.5) * 0.5);
    var scale := 1.0 + sin(time * 2.0 + phase) * 0.2;
    n.(position := position,
       rotation := Vec3(n.rotation.x + 0.01, n.rotation.y + 0.01, n.rotation.z),
       scale := Vec3(scale, scale, scale),
       emissiveIntensity := 0.3 + sin(time * 3.0 + phase) * 0.2)
  }

  /** At time 0 a node of phase 0 rests: unit scale and glow 0.3 (given sin(0) = 0). */
  lemma PulseAtRest(n: Node, sin: Wave)
    requires n.data.phase == 0.0 && sin(0.0) == 0.0
    ensures AnimateNode(n, 0.0, sin).scale == Ones
    ensures AnimateNode(n, 0.0, sin).emissiveIntensity == 0.3
    ensures AnimateNode(n, 0.0, sin).position.x == n.data.initialPosition.x
  {
  }

  /** The opacity a connection computes: `0.1 + 0.1 sin(2 time + pulsePhase)`, within [0, 0.2]. */
  function ConnectionOpacity(time: real, pulsePhase: real, sin: Wave): (o: real)
    ensures 0.0 <= o <= 0.2
  {
    0.1 + sin(time * 2.0 + pulsePhase) * 0.1
  }

  /**
   * The hue a connection passes to `setHSL`: `((time + pulsePhase) % 1) * 0.3 + 0.5`
   * with JavaScript's sign-keeping remainder. It lies in [0.5, 0.8) when
   * `time + pulsePhase` is not negative and in (0.2, 0.5] otherwise.
   */
  function ConnectionHue(time: real, pulsePhase: real): (h: real)
    ensures 0.0 <= time + pulsePhase ==> 0.5 <= h < 0.8
    ensures time + pulsePhase < 0.0 ==> 0.2 < h <= 0.5
  {
    RemOne(time + pulsePhase) * 0.3 + 0.5
  }

  /**
   * What one connection writes into the shared line material: a fully
   * saturated, mid-lightness HSL colour whose hue is in [0.5, 0.8) for a
   * non-negative `time + pulsePhase`, and an opacity in [0, 0.2].
   */
  function PulseStyle(time: real, pulsePhase: real, sin: Wave): (m: LineMaterial)
    ensures m.color.Hsl? && m.color.saturation == 1.0 && m.color.lightness == 0.5
    ensures 0.0 <= time + pulsePhase ==> 0.5 <= m.color.hue < 0.8
    ensures 0.0 <= m.opacity <= 0.2
  {
    LineMaterial(Hsl(ConnectionHue(time, pulsePhase), 1.0, 0.5), ConnectionOpacity(time, pulsePhase, sin))
  }

  /** The six values of a line buffer: endpoint `a`, then endpoint `b`. */
  function Endpoints(a: Vec3, b: Vec3): seq<real>
  {
    [a.x, a.y, a.z, b.x, b.y, b.z]
  }

  /** The current positions of the nodes `ns`. */
  function Positions(ns: seq<Node>): seq<Vec3>
  {
    seq(|ns|, i requires 0 <= i < |ns| => ns[i].position)
  }

  /** The positions the nodes `ns` were created at. */
  function InitialPositions(ns: seq<Node>): seq<Vec3>
  {
    seq(|ns|, i requires 0 <= i < |ns| => ns[i].data.initialPosition)
  }

  /**
   * Point `k` of `p`. Only pairs of in-range indices are ever linked
   * (`LinksValid`); the origin fills in for any other index so that the
   * functions below need no precondition.
   */
  function PointAt(p: seq<Vec3>, k: nat): Vec3
  {
    if k < |p| then p[k] else Zero
  }

  /** The connection the double loop builds for pair `e`, with pulse draw `draw`. */
  function Connect(p: seq<Vec3>, e: Pair, draw: real): (c: Connection)
    requires 0.0 <= draw < 1.0
    ensures c.data.nodeA == e.0 && c.data.nodeB == e.1 && 0.0 <= c.data.pulsePhase < 2.0 * Pi
    ensures e.0 < e.1 < |p| ==> LinkOk(c, |p|) && c.positions == Endpoints(p[e.0], p[e.1])
  {
    Connection(Endpoints(PointAt(p, e.0), PointAt(p, e.1)), LinkData(e.0, e.1, PhaseOf(draw)))
  }

  /** The connections built for the pairs `es`, the k-th taking draw k of `rand`. */
  function LinksAlong(p: seq<Vec3>, es: seq<Pair>, rand: Draws): (cs: seq<Connection>)
    ensures |cs| == |es|
  {
    seq(|es|, k requires 0 <= k < |es| => Connect(p, es[k], rand(k)))
  }

  /** Linking one pair more appends its connection, which takes the next draw. */
  lemma LinksAlongStep(p: seq<Vec3>, es: seq<Pair>, e: Pair, rand: Draws)
    ensures LinksAlong(p, es + [e], rand) == LinksAlong(p, es, rand) + [Connect(p, e, rand(|es|))]
  {
    var longer, shorter := LinksAlong(p, es + [e], rand), LinksAlong(p, es, rand);
    forall k | 0 <= k < |es| ensures longer[k] == shorter[k] {
      assert (es + [e])[k] == es[k];
    }
  }

  /**
   * The connections `createConnections` builds over node positions `p`:
   * one per near pair, in the order the loop finds them; the k-th takes the
   * k-th draw of `rand` for its pulse phase.
   */
  function Links(p: seq<Vec3>, rand: Draws): (cs: seq<Connection>)
    ensures |cs| == |ProximityPairs(p)|
  {
    LinksAlong(p, ProximityPairs(p), rand)
  }

  /** Some connection of `cs` joins node `a` (as nodeA) to node `b` (as nodeB). */
  predicate Linked(cs: seq<Connection>, a: nat, b: nat)
  {
    exists k :: 0 <= k < |cs| && cs[k].data.nodeA == a && cs[k].data.nodeB == b
  }

  /**
   * The graph is exactly the proximity relation: nodes `a` and `b` are
   * joined by a connection (as nodeA, nodeB) if and only if `a < b` and
   * their points lie within distance 3.
   */
  lemma LinksExactlyNear(p: seq<Vec3>, rand: Draws, a: nat, b: nat)
    ensures Linked(Links(p, rand), a, b) <==> a < b < |p| && Near(p[a], p[b])
  {
    var cs, pairs := Links(p, rand), ProximityPairs(p);
    ProximityPairsMembers(p, a, b);
    if Linked(cs, a, b) {
      var k :| 0 <= k < |cs| && cs[k].data.nodeA == a && cs[k].data.nodeB == b;
      assert pairs[k] == (a, b);
    }
    if (a, b) in pairs {
      var k :| 0 <= k < |pairs| && pairs[k] == (a, b);
      assert cs[k].data.nodeA == a && cs[k].data.nodeB == b;
    }
  }

  /**
   * The connections have distinct, in-range endpoints and come in strictly
   * increasing (nodeA, nodeB) order, so no unordered pair of nodes is
   * joined twice. (`LinksValid` states their pulse phases.)
   */
  lemma LinksOrdered(p: seq<Vec3>, rand: Draws, k: nat, l: nat)
    requires k < l < |Links(p, rand)|
    ensures var cs := Links(p, rand);
      && cs[k].data.nodeA < cs[k].data.nodeB < |p|
      && LexLess((cs[k].data.nodeA, cs[k].data.nodeB), (cs[l].data.nodeA, cs[l].data.nodeB))
      && (cs[k].data.nodeA, cs[k].data.nodeB) != (cs[l].data.nodeB, cs[l].data.nodeA)
  {
    ProximityPairsOrdered(p);
    ProximityPairsUnique(p, k, l);
    ProximityPairsInRange(p, k);
  }

  /** There are at most n(n-1)/2 connections over n nodes. */
  lemma LinksCount(p: seq<Vec3>, rand: Draws)
    ensures 2 * |Links(p, rand)| <= |p| * (|p| - 1)
  {
    ProximityPairsCount(p);
  }

  /** Per-node invariant: the phase stays in [0, 2 pi). */
  predicate NodeDataOk(d: NodeData)
  {
    0.0 <= d.phase < 2.0 * Pi
  }

  /** Per-connection invariant against `n` nodes. */
  predicate LinkOk(c: Connection, n: nat)
  {
    c.data.nodeA < c.data.nodeB < n && |c.positions| == 6 && 0.0 <= c.data.pulsePhase < 2.0 * Pi
  }

  predicate NodesOk(ns: seq<Node>)
  {
    forall i :: 0 <= i < |ns| ==> NodeDataOk(ns[i].data)
  }

  predicate LinksOk(cs: seq<Connection>, n: nat)
  {
    forall k :: 0 <= k < |cs| ==> LinkOk(cs[k], n)
  }

  /**
   * Every connection built joins two distinct nodes of `p`, the smaller
   * index first, holds six coordinates and a pulse phase in [0, 2 pi).
   */
  lemma LinksValid(p: seq<Vec3>, rand: Draws)
    ensures LinksOk(Links(p, rand), |p|)
  {
    var cs := Links(p, rand);
    forall k | 0 <= k < |cs| ensures LinkOk(cs[k], |p|) {
      ProximityPairsInRange(p, k);
    }
  }

  /** The connection `c` with its buffer re-read from the (already updated) nodes `ns`. */
  function Retrace(c: Connection, ns: seq<Node>): Connection
    requires c.data.nodeA < |ns| && c.data.nodeB < |ns|
  {
    c.(positions := Endpoints(ns[c.data.nodeA].position, ns[c.data.nodeB].position))
  }

  /** The scene `s` after adding the meshes of nodes `lo` .. `hi - 1`, in that order. */
  function WithNodes(s: set<SceneObject>, lo: nat, hi: nat): set<SceneObject>
    decreases hi
  {
    if hi <= lo then s else WithNodes(s, lo, hi - 1) + {NodeMesh(hi - 1)}
  }

  /** The scene `s` after adding the lines of connections `lo` .. `hi - 1`, in that order. */
  function WithLines(s: set<SceneObject>, lo: nat, hi: nat): set<SceneObject>
    decreases hi
  {
    if hi <= lo then s else WithLines(s, lo, hi - 1) + {ConnectionLine(hi - 1)}
  }

  /** The scene `s` after removing the meshes of nodes `lo` .. `hi - 1`. */
  function WithoutNodes(s: set<SceneObject>, lo: nat, hi: nat): set<SceneObject>
    decreases hi
  {
    if hi <= lo then s else WithoutNodes(s, lo, hi - 1) - {NodeMesh(hi - 1)}
  }

  /** The scene `s` after removing the lines of connections `lo` .. `hi - 1`. */
  function WithoutLines(s: set<SceneObject>, lo: nat, hi: nat): set<SceneObject>
    decreases hi
  {
    if hi <= lo then s else WithoutLines(s, lo, hi - 1) - {ConnectionLine(hi - 1)}
  }

  /** Adding the node meshes `lo .. mid - 1` and then `mid .. hi - 1` adds the node meshes `lo .. hi - 1`. */
  lemma {:induction false} WithNodesJoin(s: set<SceneObject>, lo: nat, mid: nat, hi: nat)
    requires lo <= mid <= hi
    ensures WithNodes(WithNodes(s, lo, mid), mid, hi) == WithNodes(s, lo, hi)
    decreases hi
  {
    if mid < hi {
      WithNodesJoin(s, lo, mid, hi - 1);
    }
  }

  lemma {:induction false} WithLinesJoin(s: set<SceneObject>, lo: nat, mid: nat, hi: nat)
    requires lo <= mid <= hi
    ensures WithLines(WithLines(s, lo, mid), mid, hi) == WithLines(s, lo, hi)
    decreases hi
  {
    if mid < hi {
      WithLinesJoin(s, lo, mid, hi - 1);
    }
  }

  /** After adding, the scene holds what it held before and exactly the node meshes `lo .. hi - 1` more. */
  lemma {:induction false} WithNodesMembers(s: set<SceneObject>, lo: nat, hi: nat, o: SceneObject)
    ensures o in WithNodes(s, lo, hi) <==> o in s || (o.NodeMesh? && lo <= o.index < hi)
    decreases hi
  {
    if lo < hi {
      WithNodesMembers(s, lo, hi - 1, o);
    }
  }

  lemma {:induction false} WithLinesMembers(s: set<SceneObject>, lo: nat, hi: nat, o: SceneObject)
    ensures o in WithLines(s, lo, hi) <==> o in s || (o.ConnectionLine? && lo <= o.index < hi)
    decreases hi
  {
    if lo < hi {
      WithLinesMembers(s, lo, hi - 1, o);
    }
  }

  lemma {:induction false} WithoutNodesMembers(s: set<SceneObject>, lo: nat, hi: nat, o: SceneObject)
    ensures o in WithoutNodes(s, lo, hi) <==> o in s && !(o.NodeMesh? && lo <= o.index < hi)
    decreases hi
  {
    if lo < hi {
      WithoutNodesMembers(s, lo, hi - 1, o);
    }
  }

  lemma {:induction false} WithoutLinesMembers(s: set<SceneObject>, lo: nat, hi: nat, o: SceneObject)
    ensures o in WithoutLines(s, lo, hi) <==> o in s && !(o.ConnectionLine? && lo <= o.index < hi)
    decreases hi
  {
    if lo < hi {
      WithoutLinesMembers(s, lo, hi - 1, o);
    }
  }

  /** No node mesh below `n` and no connection line below `m` is in the scene `s`. */
  predicate HoldsNoneOf(s: set<SceneObject>, n: nat, m: nat)
  {
    forall o :: o in s ==> !(o.NodeMesh? && o.index < n) && !(o.ConnectionLine? && o.index < m)
  }

  /**
   * Building a network of `n` nodes and `m` connections into a scene that
   * held none of their objects, and disposing it again, leaves the scene
   * as it was.
   */
  lemma BuildThenDisposeRestoresScene(s: set<SceneObject>, n: nat, m: nat)
    requires HoldsNoneOf(s, n, m)
    ensures WithoutLines(WithoutNodes(WithLines(WithNodes(s, 0, n), 0, m), 0, n), 0, m) == s
  {
    var built := WithLines(WithNodes(s, 0, n), 0, m);
    var cleared := WithoutLines(WithoutNodes(built, 0, n), 0, m);
    forall o ensures o in cleared <==> o in s {
      WithNodesMembers(s, 0, n, o);
      WithLinesMembers(WithNodes(s, 0, n), 0, m, o);
      WithoutNodesMembers(built, 0, n, o);
      WithoutLinesMembers(WithoutNodes(built, 0, n), 0, m, o);
    }
  }

  /** The `dispose()` calls the node loop of `dispose` makes for `n` nodes, in order. */
  function NodeReleases(n: nat): seq<Resource>
  {
    if n == 0 then [] else NodeReleases(n - 1) + [SphereGeometry, NodeMaterial(n - 1)]
  }

  /** The node loop of `dispose` releases, for each node in turn, the shared sphere and then the node's material. */
  lemma {:induction false} NodeReleasesLayout(n: nat)
    ensures |NodeReleases(n)| == 2 * n
    ensures forall k :: 0 <= k < n ==> NodeReleases(n)[2 * k] == SphereGeometry && NodeReleases(n)[2 * k + 1] == NodeMaterial(k)
  {
    if 0 < n {
      var m := n - 1;
      assert NodeReleases(n) == NodeReleases(m) + [SphereGeometry, NodeMaterial(m)];
      NodeReleasesLayout(m);
    }
  }

  /** The `dispose()` calls the connection loop of `dispose` makes for `n` connections. */
  function LineReleases(n: nat): seq<Resource>
  {
    if n == 0 then [] else LineReleases(n - 1) + [LineGeometry(n - 1), SharedLineMaterial]
  }

  /** The connection loop of `dispose` releases, for each line in turn, its geometry and then the shared material. */
  lemma {:induction false} LineReleasesLayout(n: nat)
    ensures |LineReleases(n)| == 2 * n
    ensures forall k :: 0 <= k < n ==> LineReleases(n)[2 * k] == LineGeometry(k) && LineReleases(n)[2 * k + 1] == SharedLineMaterial
  {
    if 0 < n {
      var m := n - 1;
      assert LineReleases(n) == LineReleases(m) + [LineGeometry(m), SharedLineMaterial];
      LineReleasesLayout(m);
    }
  }

  /** Disposing `n` nodes releases the one shared sphere geometry `n` times, not once. */
  lemma {:induction false} SphereReleases(n: nat)
    ensures Releases(NodeReleases(n), SphereGeometry) == n
  {
    if 0 < n {
      var m := n - 1;
      assert NodeReleases(n) == NodeReleases(m) + [SphereGeometry, NodeMaterial(m)];
      SphereReleases(m);
      ReleasesTwoMore(NodeReleases(m), SphereGeometry, NodeMaterial(m), SphereGeometry);
    }
  }

  /** Disposing `n` nodes releases the material of each of them exactly once, and no other. */
  lemma {:induction false} NodeMaterialReleases(n: nat, i: nat)
    ensures Releases(NodeReleases(n), NodeMaterial(i)) == if i < n then 1 else 0
  {
    if 0 < n {
      var m := n - 1;
      assert NodeReleases(n) == NodeReleases(m) + [SphereGeometry, NodeMaterial(m)];
      NodeMaterialReleases(m, i);
      ReleasesTwoMore(NodeReleases(m), SphereGeometry, NodeMaterial(m), NodeMaterial(i));
      assert (if NodeMaterial(m) == NodeMaterial(i) then 1 else 0) == (if i == m then 1 else 0);
    }
  }

  /** Disposing `n` connections releases the one shared line material `n` times. */
  lemma {:induction false} LineMaterialReleases(n: nat)
    ensures Releases(LineReleases(n), SharedLineMaterial) == n
  {
    if 0 < n {
      var m := n - 1;
      assert LineReleases(n) == LineReleases(m) + [LineGeometry(m), SharedLineMaterial];
      LineMaterialReleases(m);
      ReleasesTwoMore(LineReleases(m), LineGeometry(m), SharedLineMaterial, SharedLineMaterial);
    }
  }

  /** Disposing `n` connections releases the geometry of each of them exactly once, and no other. */
  lemma {:induction false} LineGeometryReleases(n: nat, k: nat)
    ensures Releases(LineReleases(n), LineGeometry(k)) == if k < n then 1 else 0
  {
    if 0 < n {
      var m := n - 1;
      assert LineReleases(n) == LineReleases(m) + [LineGeometry(m), SharedLineMaterial];
      LineGeometryReleases(m, k);
      ReleasesTwoMore(LineReleases(m), LineGeometry(m), SharedLineMaterial, LineGeometry(k));
      assert (if LineGeometry(m) == LineGeometry(k) then 1 else 0) == (if k == m then 1 else 0);
    }
  }

  /**
   * The nodes `ns` once the node loop of a frame has animated the first
   * `k` of them at time `time`.
   */
  function AnimatedUpTo(ns: seq<Node>, time: real, sin: Wave, k: nat): (r: seq<Node>)
    ensures |r| == |ns|
  {
    seq(|ns|, i requires 0 <= i < |ns| => if i < k then AnimateNode(ns[i], time, sin) else ns[i])
  }

  /** One more iteration animates node `k` and nothing else. */
  lemma AnimatedUpToStep(ns: seq<Node>, time: real, sin: Wave, k: nat)
    requires k < |ns|
    ensures AnimatedUpTo(ns, time, sin, k + 1) == AnimatedUpTo(ns, time, sin, k)[k := AnimateNode(ns[k], time, sin)]
  {
  }

  /** Each node of `ns` after one frame at animation time `time`. */
  function Animated(ns: seq<Node>, time: real, sin: Wave): (r: seq<Node>)
    ensures |r| == |ns| && forall i :: 0 <= i < |ns| ==> r[i] == AnimateNode(ns[i], time, sin)
  {
    AnimatedUpTo(ns, time, sin, |ns|)
  }

  /** A frame keeps every node's creation data, so it keeps the node invariant. */
  lemma AnimatedKeepsData(ns: seq<Node>, time: real, sin: Wave)
    ensures InitialPositions(Animated(ns, time, sin)) == InitialPositions(ns)
    ensures NodesOk(ns) ==> NodesOk(Animated(ns, time, sin))
    ensures forall i :: 0 <= i < |ns| ==> Animated(ns, time, sin)[i].data == ns[i].data
    ensures forall i :: 0 <= i < |ns| ==>
      WithinHalf(Animated(ns, time, sin)[i].position, ns[i].data.initialPosition)
  {
    var r := Animated(ns, time, sin);
    forall i | 0 <= i < |ns| ensures r[i].data == ns[i].data {
      assert r[i] == AnimateNode(ns[i], time, sin);
    }
  }

  /**
   * The connections `cs` once the connection loop of a frame has re-read
   * the buffers of the first `k` of them from the nodes `ns`.
   */
  function RetracedUpTo(cs: seq<Connection>, ns: seq<Node>, k: nat): (r: seq<Connection>)
    requires k <= |cs| && LinksOk(cs, |ns|)
    ensures |r| == |cs|
  {
    seq(|cs|, m requires 0 <= m < |cs| => if m < k then Retrace(cs[m], ns) else cs[m])
  }

  /** One more iteration re-reads the buffer of connection `k` and nothing else. */
  lemma RetracedUpToStep(cs: seq<Connection>, ns: seq<Node>, k: nat)
    requires k < |cs| && LinksOk(cs, |ns|)
    ensures RetracedUpTo(cs, ns, k + 1) == RetracedUpTo(cs, ns, k)[k := Retrace(cs[k], ns)]
  {
    assert LinkOk(cs[k], |ns|);
  }

  /** Each connection of `cs` with its buffer re-read from the nodes `ns`. */
  function Retraced(cs: seq<Connection>, ns: seq<Node>): (r: seq<Connection>)
    requires LinksOk(cs, |ns|)
    ensures |r| == |cs| && forall k :: 0 <= k < |cs| ==> LinkOk(cs[k], |ns|) && r[k] == Retrace(cs[k], ns)
  {
    RetracedUpTo(cs, ns, |cs|)
  }

  /**
   * Re-reading the buffers changes only the six coordinates: the endpoints
   * and the pulse phase stay, and the buffer holds exactly the two nodes'
   * current positions.
   */
  lemma RetracedFollowsNodes(cs: seq<Connection>, ns: seq<Node>)
    requires LinksOk(cs, |ns|)
    ensures LinksOk(Retraced(cs, ns), |ns|)
    ensures forall k :: 0 <= k < |cs| ==> Retraced(cs, ns)[k].data == cs[k].data
    ensures forall k :: 0 <= k < |cs| ==>
      Retraced(cs, ns)[k].positions == Endpoints(ns[cs[k].data.nodeA].position, ns[cs[k].data.nodeB].position)
  {
    var r := Retraced(cs, ns);
    forall k | 0 <= k < |cs| ensures r[k] == Retrace(cs[k], ns) && LinkOk(r[k], |ns|) {
      assert LinkOk(cs[k], |ns|);
    }
  }

  /**
   * What the test of the pair `(i, j)` adds, stated on the nodes `ns`:
   * when the two are near, the pair is the next one found and its
   * connection the next one built; otherwise the pair is skipped.
   */
  lemma LinkStep(ns: seq<Node>, p: seq<Vec3>, i: nat, j: nat, found: seq<Pair>, pairs: seq<Pair>, rand: Draws)
    requires i < j < |ns| && p == Positions(ns)
    requires found + PairsFrom(p, i, j) == pairs
    ensures Near(ns[i].position, ns[j].position) ==>
      && found + [(i, j)] + PairsFrom(p, i, j + 1) == pairs
      && LinksAlong(p, found + [(i, j)], rand) == LinksAlong(p, found, rand) +
           [Connection(Endpoints(ns[i].position, ns[j].position), LinkData(i, j, PhaseOf(rand(|found|))))]
    ensures !Near(ns[i].position, ns[j].position) ==> found + PairsFrom(p, i, j + 1) == pairs
  {
    assert p[i] == ns[i].position && p[j] == ns[j].position;
    PairsFromStep(p, i, j, found, pairs);
    LinksAlongStep(p, found, (i, j), rand);
  }

  class NeuralNetwork {
    const scene: Scene
    const nodeCount: nat
    const animationSpeed: real := 0.0005
    var nodes: seq<Node>
    var connections: seq<Connection>
    /** The shared line material; it exists once `createConnections` has run. */
    var lineMaterial: Option<LineMaterial>
    /** Every resource `dispose()` has been called on, in call order. */
    var released: seq<Resource>

    ghost predicate Valid()
      reads this
    {
      && NodesOk(nodes)
      && LinksOk(connections, |nodes|)
      && (connections != [] ==> lineMaterial.Some?)
      && (lineMaterial.Some? ==> 0.0 <= lineMaterial.value.opacity <= 0.2)
    }

    /**
     * `new NeuralNetwork(scene)`: picks the node count from the viewport,
     * creates the nodes from the random stream and then the connections
     * from the draws that follow, judged on the nodes' initial positions.
     */
    constructor (scene: Scene, viewportWidth: int, matchesHiDpi: bool, rand: Draws, place: Placement)
      modifies scene
      ensures Valid()
      ensures this.scene == scene && nodeCount == GetNodeCount(viewportWidth, matchesHiDpi)
      ensures nodes == Spawned(rand, nodeCount, place)
      ensures connections == Links(InitialPositions(nodes), Skip(rand, 8 * nodeCount))
      ensures lineMaterial == Some(FreshLineMaterial) && released == []
      ensures scene.objects == WithLines(WithNodes(old(scene.objects), 0, nodeCount), 0, |connections|)
    {
      this.scene := scene;
      nodeCount := GetNodeCount(viewportWidth, matchesHiDpi);
      nodes := [];
      connections := [];
      lineMaterial := None;
      released := [];
      new;
      CreateNodes(rand, place);
      EmptyAppend(Spawned(rand, nodeCount, place));
      SpawnedAtRest(rand, nodeCount, place);
      CreateConnections(Skip(rand, 8 * nodeCount));
      EmptyAppend(Links(Positions(nodes), Skip(rand, 8 * nodeCount)));
      LinksValid(Positions(nodes), Skip(rand, 8 * nodeCount));
    }

    /** `createNodes`: appends `nodeCount` nodes and adds each to the scene. */
    method CreateNodes(rand: Draws, place: Placement)
      modifies this, scene
      ensures nodes == old(nodes) + Spawned(rand, nodeCount, place)
      ensures connections == old(connections) && lineMaterial == old(lineMaterial)
      ensures released == old(released)
      ensures scene.objects == WithNodes(old(scene.objects), |old(nodes)|, |nodes|)
    {
      var base := |nodes|;
      for i := 0 to nodeCount
        invariant nodes == old(nodes) + Spawned(rand, i, place)
        invariant connections == old(connections) && lineMaterial == old(lineMaterial)
        invariant released == old(released)
        invariant scene.objects == WithNodes(old(scene.objects), base, |nodes|)
      {
        ghost var middle := |nodes|;
        AddNode(rand, i, place, old(nodes));
        WithNodesJoin(old(scene.objects), base, middle, |nodes|);
      }
    }

    /**
     * The body of the node loop of `createNodes`: builds node `i` from its
     * draws, adds its mesh to the scene and pushes it.
     */
    method AddNode(rand: Draws, i: nat, place: Placement, ghost prior: seq<Node>)
      requires nodes == prior + Spawned(rand, i, place)
      modifies this, scene
      ensures nodes == prior + Spawned(rand, i + 1, place)
      ensures |old(nodes)| <= |nodes|
      ensures scene.objects == WithNodes(old(scene.objects), |old(nodes)|, |nodes|)
      ensures connections == old(connections) && lineMaterial == old(lineMaterial)
      ensures released == old(released)
    {
      var node := SpawnNode(rand, i, place);
      scene.Add(NodeMesh(|nodes|));
      assert WithNodes(old(scene.objects), |nodes|, |nodes| + 1) == scene.objects;
      nodes := nodes + [node];
      assert nodes == prior + Spawned(rand, i + 1, place) by {
        SpawnedStep(rand, i, place);
        assert old(nodes) + [node] == prior + (Spawned(rand, i, place) + [node]);
      }
    }

    /**
     * `createConnections`: creates the shared line material, then tests
     * every pair `i < j` of nodes in loop order and pushes a connection
     * (added to the scene) for each pair closer than 3.
     */
    method CreateConnections(rand: Draws)
      modifies this, scene
      ensures nodes == old(nodes) && released == old(released)
      ensures lineMaterial == Some(FreshLineMaterial)
      ensures connections == old(connections) + Links(Positions(nodes), rand)
      ensures scene.objects == WithLines(old(scene.objects), |old(connections)|, |connections|)
    {
      lineMaterial := Some(FreshLineMaterial);
      ghost var p := Positions(nodes);
      ghost var found: seq<Pair> := [];
      ghost var prior, objects := connections, scene.objects;
      var base := |connections|;
      for i := 0 to |nodes|
        invariant nodes == old(nodes) && released == old(released)
        invariant lineMaterial == Some(FreshLineMaterial)
        invariant found + PairsFrom(p, i, i + 1) == ProximityPairs(p)
        invariant connections == prior + LinksAlong(p, found, rand)
        invariant scene.objects == WithLines(objects, base, |connections|)
      {
        ghost var middle := |connections|;
        found := LinkRow(i, base, rand, p, prior, found);
        WithLinesJoin(objects, base, middle, |connections|);
      }
      assert PairsFrom(p, |p|, |p| + 1) == [];
      assert found == ProximityPairs(p);
    }

    /**
     * One row of the double loop of `createConnections`: tests node `i`
     * against every later node `j`. The connections built so far are those
     * of the pairs `found`, after the `base` that were there before; the
     * result is `found` extended by the row.
     */
    method LinkRow(i: nat, base: nat, rand: Draws, ghost p: seq<Vec3>, ghost prior: seq<Connection>,
                   ghost found: seq<Pair>) returns (ghost found': seq<Pair>)
      requires i < |nodes| && p == Positions(nodes) && |prior| == base
      requires connections == prior + LinksAlong(p, found, rand)
      modifies this, scene
      ensures nodes == old(nodes) && released == old(released) && lineMaterial == old(lineMaterial)
      ensures connections == prior + LinksAlong(p, found', rand)
      ensures found' + PairsFrom(p, i + 1, i + 2)
        == found + PairsFrom(p, i, i + 1)
      ensures |old(connections)| <= |connections|
      ensures scene.objects == WithLines(old(scene.objects), |old(connections)|, |connections|)
    {
      ghost var pairs := found + PairsFrom(p, i, i + 1);
      found' := found;
      for j := i + 1 to |nodes|
        invariant nodes == old(nodes) && released == old(released) && lineMaterial == old(lineMaterial)
        invariant found' + PairsFrom(p, i, j) == pairs
        invariant connections == prior + LinksAlong(p, found', rand)
        invariant |old(connections)| <= |connections|
        invariant scene.objects == WithLines(old(scene.objects), |old(connections)|, |connections|)
      {
        ghost var middle := |connections|;
        found' := LinkIfNear(i, j, base, rand, p, prior, found', pairs);
        WithLinesJoin(old(scene.objects), |old(connections)|, middle, |connections|);
      }
      assert PairsFrom(p, i, |p|) == PairsFrom(p, i + 1, i + 2);
    }

    /**
     * The body of the double loop for the pair `(i, j)`: when the two nodes
     * lie closer than 3, pushes a connection between them (taking the next
     * draw for its pulse phase) and adds its line to the scene.
     */
    method LinkIfNear(i: nat, j: nat, base: nat, rand: Draws, ghost p: seq<Vec3>,
                      ghost prior: seq<Connection>, ghost found: seq<Pair>,
                      ghost pairs: seq<Pair>) returns (ghost found': seq<Pair>)
      requires i < j < |nodes| && p == Positions(nodes) && |prior| == base
      requires connections == prior + LinksAlong(p, found, rand)
      requires found + PairsFrom(p, i, j) == pairs
      modifies this, scene
      ensures nodes == old(nodes) && released == old(released) && lineMaterial == old(lineMaterial)
      ensures connections == prior + LinksAlong(p, found', rand)
      ensures found' + PairsFrom(p, i, j + 1) == pairs
      ensures |old(connections)| <= |connections|
      ensures scene.objects == WithLines(old(scene.objects), |old(connections)|, |connections|)
    {
      var close := Near(nodes[i].position, nodes[j].position);
      LinkStep(nodes, p, i, j, found, pairs, rand);
      found' := found;
      if close {
        assert |connections| - base == |found|;
        var line := Connection(
          Endpoints(nodes[i].position, nodes[j].position),
          LinkData(i, j, PhaseOf(rand(|connections| - base))));
        scene.Add(ConnectionLine(|connections|));
        assert WithLines(old(scene.objects), |connections|, |connections| + 1) == scene.objects;
        assert connections + [line] == prior + (LinksAlong(p, found, rand) + [line]);
        connections := connections + [line];
        found' := found + [(i, j)];
      }
    }

    /**
     * `update()` at wall-clock time `now`: first every node is animated at
     * time `now * animationSpeed`, then every connection re-reads the
     * updated positions of its two nodes and writes its pulse into the
     * shared line material, so that the last connection's values remain.
     */
    method Update(now: real, sin: Wave)
      requires Valid()
      modifies this
      ensures Valid()
      ensures released == old(released)
      ensures nodes == Animated(old(nodes), now * animationSpeed, sin)
      ensures connections == Retraced(old(connections), nodes)
      ensures lineMaterial == if connections == [] then old(lineMaterial)
        else Some(PulseStyle(now * animationSpeed, connections[|connections| - 1].data.pulsePhase, sin))
    {
      var time := now * animationSpeed;
      UpdateNodes(time, sin);
      assert NodesOk(nodes) && LinksOk(connections, |nodes|) by {
        AnimatedKeepsData(old(nodes), time, sin);
      }
      UpdateConnections(time, sin);
      RetracedFollowsNodes(old(connections), nodes);
    }

    /** The node loop of `update()`: animates every node at time `time`. */
    method UpdateNodes(time: real, sin: Wave)
      modifies this
      ensures nodes == Animated(old(nodes), time, sin)
      ensures connections == old(connections) && lineMaterial == old(lineMaterial)
      ensures released == old(released)
    {
      ghost var before := nodes;
      for i := 0 to |nodes|
        invariant nodes == AnimatedUpTo(before, time, sin, i)
        invariant connections == old(connections) && lineMaterial == old(lineMaterial)
        invariant released == old(released)
      {
        AnimatedUpToStep(before, time, sin, i);
        nodes := nodes[i := AnimateNode(nodes[i], time, sin)];
      }
    }

    /**
     * The connection loop of `update()`: every connection re-reads its two
     * nodes' positions, then writes its opacity and hue into the shared
     * line material.
     */
    method UpdateConnections(time: real, sin: Wave)
      requires LinksOk(connections, |nodes|)
      modifies this
      ensures nodes == old(nodes) && released == old(released)
      ensures connections == Retraced(old(connections), nodes)
      ensures lineMaterial == if connections == [] then old(lineMaterial)
        else Some(PulseStyle(time, connections[|connections| - 1].data.pulsePhase, sin))
    {
      ghost var before := connections;
      var ns := nodes;
      for k := 0 to |connections|
        invariant nodes == ns && released == old(released)
        invariant connections == RetracedUpTo(before, ns, k)
        invariant lineMaterial == if k == 0 then old(lineMaterial)
          else Some(PulseStyle(time, before[k - 1].data.pulsePhase, sin))
      {
        var c := connections[k];
        RetracedUpToStep(before, ns, k);
        connections := connections[k := Retrace(c, ns)];
        lineMaterial := Some(PulseStyle(time, c.data.pulsePhase, sin));
      }
    }

    /**
     * `dispose()`: releases each node's geometry and material and removes
     * the node from the scene, then the same for each connection, then
     * empties both arrays.
     */
    method Dispose()
      requires Valid()
      modifies this, scene
      ensures Valid()
      ensures nodes == [] && connections == [] && lineMaterial == old(lineMaterial)
      ensures released == old(released) + NodeReleases(|old(nodes)|) + LineReleases(|old(connections)|)
      ensures scene.objects ==
        WithoutLines(WithoutNodes(old(scene.objects), 0, |old(nodes)|), 0, |old(connections)|)
    {
      for i := 0 to |nodes|
        invariant nodes == old(nodes) && connections == old(connections)
        invariant lineMaterial == old(lineMaterial)
        invariant released == old(released) + NodeReleases(i)
        invariant scene.objects == WithoutNodes(old(scene.objects), 0, i)
      {
        released := released + [SphereGeometry, NodeMaterial(i)];
        scene.Remove(NodeMesh(i));
      }
      for k := 0 to |connections|
        invariant nodes == old(nodes) && connections == old(connections)
        invariant lineMaterial == old(lineMaterial)
        invariant released == old(released) + NodeReleases(|nodes|) + LineReleases(k)
        invariant scene.objects == WithoutLines(WithoutNodes(old(scene.objects), 0, |nodes|), 0, k)
      {
        released := released + [LineGeometry(k), SharedLineMaterial];
        scene.Remove(ConnectionLine(k));
      }
      nodes := [];
      connections := [];
    }
  }

  /**
   * Disposing and then running a frame: the frame finds both arrays empty
   * and changes nothing, and neither step fails on an empty network.
   */
  method DisposeThenUpdate(net: NeuralNetwork, now: real, sin: Wave)
    requires net.Valid()
    modifies net, net.scene
    ensures net.Valid()
    ensures net.nodes == [] && net.connections == [] && net.lineMaterial == old(net.lineMaterial)
    ensures net.released == old(net.released) + NodeReleases(|old(net.nodes)|) + LineReleases(|old(net.connections)|)
    ensures net.scene.objects
      == WithoutLines(WithoutNodes(old(net.scene.objects), 0, |old(net.nodes)|), 0, |old(net.connections)|)
  {
    net.Dispose();
    net.Update(now, sin);
  }

  /**
   * Disposing twice: the second call finds both arrays empty and releases
   * nothing more.
   */
  method DisposeTwice(net: NeuralNetwork)
    requires net.Valid()
    modifies net, net.scene
    ensures net.Valid() && net.lineMaterial == old(net.lineMaterial)
    ensures net.nodes == [] && net.connections == []
    ensures net.released == old(net.released) + NodeReleases(|old(net.nodes)|) + LineReleases(|old(net.connections)|)
    ensures net.scene.objects
      == WithoutLines(WithoutNodes(old(net.scene.objects), 0, |old(net.nodes)|), 0, |old(net.connections)|)
  {
    net.Dispose();
    net.Dispose();
  }
}
