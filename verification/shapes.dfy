/**
 * The floating shapes of the foreground: a handful of wireframe or solid
 * polyhedra that spin, bob around their initial height, pulse their
 * opacity and drift towards the mouse.
 *
 * A mesh of the rendering library is a record here; the `shapes` array is
 * a sequence field that the methods reassign.
 */
module Shapes {
  import opened Common
  import opened SceneGraph

  /** The number of geometries `createShapes` makes: box, tetrahedron, octahedron, torus, cone. */
  const GeometryKinds: nat := 5

  /** `shape.userData`: fixed at creation, read by every frame. */
  datatype ShapeData = ShapeData(
    rotationSpeed: Vec3,
    floatSpeed: real,
    floatRange: real,
    initialY: real,
    phase: real,
    parallaxStrength: real)

  /**
   * A shape mesh: the index of its geometry among the five, its material
   * (colour, emissive colour and intensity, wireframe flag, opacity), its
   * transform and its user data.
   */
  datatype Shape = Shape(
    geometry: nat,
    color: int,
    emissive: int,
    emissiveIntensity: real,
    wireframe: bool,
    opacity: real,
    position: Vec3,
    rotation: Vec3,
    data: ShapeData)

  /** The mouse in normalised device coordinates, as the page hands it to `update`. */
  datatype Mouse = Mouse(x: real, y: real)

  /** The shape count chosen from the viewport: 5 on a narrow viewport, 10 otherwise. */
  function GetShapeCount(viewportWidth: int): (count: nat)
    ensures count == 5 || count == 10
    ensures viewportWidth < 768 <==> count == 5
  {
    var isMobile := viewportWidth < 768;
    if isMobile then 5 else 10
  }

  /** `(r - 0.5) * width` for a draw `r`: a coordinate in [-width/2, width/2). */
  function Centered(r: real, width: real): (v: real)
    requires 0.0 <= r < 1.0 && 0.0 < width
    ensures -width / 2.0 <= v < width / 2.0
  {
    ScaleBelow(r, width);
    assert (r - 0.5) * width == r * width - 0.5 * width;
    (r - 0.5) * width
  }

  /** `r * factor + offset` for a draw `r`: a value in [offset, offset + factor). */
  function Spread(r: real, factor: real, offset: real): (v: real)
    requires 0.0 <= r < 1.0 && 0.0 < factor
    ensures offset <= v < offset + factor
  {
    ScaleBelow(r, factor);
    r * factor + offset
  }

  /** A turn `r * pi` for a draw `r`, in [0, pi). */
  function HalfTurn(r: real): (a: real)
    requires 0.0 <= r < 1.0
    ensures 0.0 <= a < Pi
  {
    ScaleBelow(r, Pi);
    r * Pi
  }

  /** Every spin component lies in [-0.01, 0.01). */
  predicate SpinOk(v: Vec3)
  {
    -0.01 <= v.x < 0.01 && -0.01 <= v.y < 0.01 && -0.01 <= v.z < 0.01
  }

  /** Per-shape invariant on the user data: every value within the range it was drawn from. */
  predicate ShapeDataOk(d: ShapeData)
  {
    && SpinOk(d.rotationSpeed)
    && 0.0005 <= d.floatSpeed < 0.0015
    && 1.0 <= d.floatRange < 3.0
    && 0.0 <= d.phase < 2.0 * Pi
    && 1.0 <= d.parallaxStrength < 3.0
  }

  /** Per-shape invariant: a valid geometry, a palette colour, its own data, opacity in [0.1, 0.3]. */
  predicate ShapeOk(s: Shape)
  {
    s.geometry < GeometryKinds && s.color in Palette && ShapeDataOk(s.data) && 0.1 <= s.opacity <= 0.3
  }

  predicate ShapesOk(ss: seq<Shape>)
  {
    forall i :: 0 <= i < |ss| ==> ShapeOk(ss[i])
  }

  /**
   * Shape `i` of a `createShapes` call, built from the draws 16i .. 16i+15
   * of the random stream in the order the program makes them: geometry,
   * colour, wireframe flag, the three position coordinates, the three
   * rotation angles, the three spin components, float speed, float range,
   * phase and parallax strength.
   */
  function SpawnShape(rand: Draws, i: nat): (s: Shape)
    ensures ShapeOk(s)
    ensures s.emissive == s.color && s.emissiveIntensity == 0.3 && s.opacity == 0.3
    ensures s.wireframe <==> 0.5 < rand(16 * i + 2)
    ensures -15.0 <= s.position.x < 15.0 && -15.0 <= s.position.y < 15.0
    ensures -20.0 <= s.position.z < 0.0
    ensures 0.0 <= s.rotation.x < Pi && 0.0 <= s.rotation.y < Pi && 0.0 <= s.rotation.z < Pi
    ensures s.data.initialY == s.position.y
  {
    var d := 16 * i;
    var geometry := PickIndex(rand(d), GeometryKinds);
    var color := PickColor(rand(d + 1));
    var wireframe := rand(d + 2) > 0.5;
    var position := Vec3(Centered(rand(d + 3), 30.0), Centered(rand(d + 4), 30.0), Centered(rand(d + 5), 20.0) - 10.0);
    var rotation := Vec3(HalfTurn(rand(d + 6)), HalfTurn(rand(d + 7)), HalfTurn(rand(d + 8)));
    var spin := Vec3(Drift(rand(d + 9)), Drift(rand(d + 10)), Drift(rand(d + 11)));
    var data := ShapeData(
      spin,
      Spread(rand(d + 12), 0.001, 0.0005),
      Spread(rand(d + 13), 2.0, 1.0),
      position.y,
      PhaseOf(rand(d + 14)),
      Spread(rand(d + 15), 2.0, 1.0));
    Shape(geometry, color, color, 0.3, wireframe, 0.3, position, rotation, data)
  }

  /** The first `n` shapes a `createShapes` call builds, in order. */
  function SpawnedShapes(rand: Draws, n: nat): (ss: seq<Shape>)
    ensures |ss| == n
  {
    seq(n, i requires 0 <= i < n => SpawnShape(rand, i))
  }

  /** Building one shape more appends shape `n` to the first `n`. */
  lemma SpawnedShapesStep(rand: Draws, n: nat)
    ensures SpawnedShapes(rand, n + 1) == SpawnedShapes(rand, n) + [SpawnShape(rand, n)]
  {
    var longer, shorter := SpawnedShapes(rand, n + 1), SpawnedShapes(rand, n);
    forall i | 0 <= i < n ensures longer[i] == shorter[i] {
    }
  }

  /** Freshly built shapes meet the per-shape invariant and start at their initial height. */
  lemma SpawnedShapesOk(rand: Draws, n: nat)
    ensures ShapesOk(SpawnedShapes(rand, n))
    ensures forall i :: 0 <= i < n ==> SpawnedShapes(rand, n)[i].position.y == SpawnedShapes(rand, n)[i].data.initialY
  {
    var ss := SpawnedShapes(rand, n);
    forall i | 0 <= i < n ensures ShapeOk(ss[i]) && ss[i].position.y == ss[i].data.initialY {
      assert ss[i] == SpawnShape(rand, i);
    }
  }

  /**
   * One parallax step of a coordinate `pos` towards the mouse coordinate
   * `target`, for parallax strength `strength`. The step pulls the
   * coordinate towards the point `100 * target * strength`: the gap to it
   * shrinks by the factor 0.9995, so the coordinate never overshoots.
   */
  function ParallaxStep(pos: real, target: real, strength: real): (r: real)
    ensures r - 100.0 * (target * strength) == 0.9995 * (pos - 100.0 * (target * strength))
    ensures pos == 100.0 * (target * strength) ==> r == pos
    ensures pos < 100.0 * (target * strength) ==> pos < r < 100.0 * (target * strength)
    ensures 100.0 * (target * strength) < pos ==> 100.0 * (target * strength) < r < pos
  {
    pos + (target * strength - pos * 0.01) * 0.05
  }

  /** The coordinate after `n` frames with the mouse held at `target`. */
  function ParallaxAfter(pos: real, target: real, strength: real, n: nat): real
  {
    if n == 0 then pos else ParallaxStep(ParallaxAfter(pos, target, strength, n - 1), target, strength)
  }

  /** `b` to the power `n`. */
  function Power(b: real, n: nat): real
  {
    if n == 0 then 1.0 else b * Power(b, n - 1)
  }

  /** A power of a factor in (0, 1] stays in (0, 1]. */
  lemma {:induction false} PowerBounds(b: real, n: nat)
    requires 0.0 < b <= 1.0
    ensures 0.0 < Power(b, n) <= 1.0
  {
    if 0 < n {
      PowerBounds(b, n - 1);
      var q := Power(b, n - 1);
      assert b * q <= 1.0 * q;
      assert 0.0 < b * q;
    }
  }

  /**
   * With the mouse held still, the gap between a coordinate and the
   * point `100 * target * strength` after `n` frames is the initial gap
   * times 0.9995^n: the shapes settle there geometrically.
   */
  lemma {:induction false} ParallaxConverges(pos: real, target: real, strength: real, n: nat)
    ensures ParallaxAfter(pos, target, strength, n) - 100.0 * (target * strength)
      == Power(0.9995, n) * (pos - 100.0 * (target * strength))
  {
    if 0 < n {
      ParallaxConverges(pos, target, strength, n - 1);
      var gap := pos - 100.0 * (target * strength);
      assert 0.9995 * (Power(0.9995, n - 1) * gap) == (0.9995 * Power(0.9995, n - 1)) * gap;
    }
  }

  /** No number of frames takes a coordinate further from the point it settles at. */
  lemma ParallaxNeverRecedes(pos: real, target: real, strength: real, n: nat)
    ensures var goal := 100.0 * (target * strength);
      var gap, later := pos - goal, ParallaxAfter(pos, target, strength, n) - goal;
      (0.0 <= gap ==> 0.0 <= later <= gap) && (gap <= 0.0 ==> gap <= later <= 0.0)
  {
    var goal := 100.0 * (target * strength);
    var gap := pos - goal;
    ParallaxConverges(pos, target, strength, n);
    PowerBounds(0.9995, n);
    var q := Power(0.9995, n);
    if 0.0 <= gap {
      assert q * gap <= 1.0 * gap;
    } else {
      assert q * (-gap) <= 1.0 * (-gap);
    }
  }

  /**
   * One frame of shape `s` at wall-clock time `time` (milliseconds), with
   * the mouse position `mouse` when there is one: the shape turns by its spin,
   * bobs within its float range around its initial height, moves one
   * parallax step towards the mouse (x after the mouse's x, z after
   * the mouse's y) and pulses its opacity. Nothing fixed at creation
   * changes.
   */
  function AnimateShape(s: Shape, mouse: Option<Mouse>, time: real, sin: Wave): (r: Shape)
    ensures r.data == s.data && r.geometry == s.geometry && r.wireframe == s.wireframe
    ensures r.color == s.color && r.emissive == s.emissive && r.emissiveIntensity == s.emissiveIntensity
    ensures r.rotation == Vec3(
      s.rotation.x + s.data.rotationSpeed.x,
      s.rotation.y + s.data.rotationSpeed.y,
      s.rotation.z + s.data.rotationSpeed.z)
    ensures 0.0 <= s.data.floatRange ==>
      -s.data.floatRange <= r.position.y - s.data.initialY <= s.data.floatRange
    ensures mouse.None? ==> r.position.x == s.position.x && r.position.z == s.position.z
    ensures mouse.Some? ==>
      && r.position.x == ParallaxStep(s.position.x, mouse.value.x, s.data.parallaxStrength)
      && r.position.z == ParallaxStep(s.position.z, mouse.value.y, s.data.parallaxStrength)
    ensures 0.1 <= r.opacity <= 0.3
  {
    var d := s.data;
    var rotation := Vec3(
      s.rotation.x + d.rotationSpeed.x,
      s.rotation.y + d.rotationSpeed.y,
      s.rotation.z + d.rotationSpeed.z);
    var bob := sin(time * d.floatSpeed + d.phase);
    assert 0.0 <= d.floatRange ==> -d.floatRange <= bob * d.floatRange <= d.floatRange by {
      if 0.0 <= d.floatRange {
        Amplitude(bob, d.floatRange);
      }
    }
    var y := d.initialY + bob * d.floatRange;
    var x := if mouse.Some? then ParallaxStep(s.position.x, mouse.value.x, d.parallaxStrength) else s.position.x;
    var z := if mouse.Some? then ParallaxStep(s.position.z, mouse.value.y, d.parallaxStrength) else s.position.z;
    var pulse := sin(time * 0.001 + d.phase);
    Amplitude(pulse, 0.1);
    s.(rotation := rotation, position := Vec3(x, y, z), opacity := 0.2 + pulse * 0.1)
  }

  /**
   * The shapes `ss` once the loop of a frame has animated the first `k`
   * of them.
   */
  function SteppedUpTo(ss: seq<Shape>, mouse: Option<Mouse>, time: real, sin: Wave, k: nat): (r: seq<Shape>)
    ensures |r| == |ss|
  {
    seq(|ss|, i requires 0 <= i < |ss| => if i < k then AnimateShape(ss[i], mouse, time, sin) else ss[i])
  }

  /** One more iteration animates shape `k` and nothing else. */
  lemma SteppedUpToStep(ss: seq<Shape>, mouse: Option<Mouse>, time: real, sin: Wave, k: nat)
    requires k < |ss|
    ensures SteppedUpTo(ss, mouse, time, sin, k + 1)
      == SteppedUpTo(ss, mouse, time, sin, k)[k := AnimateShape(ss[k], mouse, time, sin)]
  {
  }

  /** Each shape of `ss` after one frame. */
  function Stepped(ss: seq<Shape>, mouse: Option<Mouse>, time: real, sin: Wave): (r: seq<Shape>)
    ensures |r| == |ss| && forall i :: 0 <= i < |ss| ==> r[i] == AnimateShape(ss[i], mouse, time, sin)
  {
    SteppedUpTo(ss, mouse, time, sin, |ss|)
  }

  /**
   * A frame keeps the number of shapes and each shape's creation data, so
   * it keeps the per-shape invariant; every shape stays within its float
   * range of its initial height, and without a mouse no shape moves in
   * x or z.
   */
  lemma SteppedKeepsShapes(ss: seq<Shape>, mouse: Option<Mouse>, time: real, sin: Wave)
    requires ShapesOk(ss)
    ensures ShapesOk(Stepped(ss, mouse, time, sin))
    ensures forall i :: 0 <= i < |ss| ==>
      Stepped(ss, mouse, time, sin)[i].data == ss[i].data
    ensures forall i :: 0 <= i < |ss| ==>
      -ss[i].data.floatRange <= Stepped(ss, mouse, time, sin)[i].position.y - ss[i].data.initialY <= ss[i].data.floatRange
    ensures mouse.None? ==> forall i :: 0 <= i < |ss| ==>
      Stepped(ss, mouse, time, sin)[i].position.x == ss[i].position.x &&
      Stepped(ss, mouse, time, sin)[i].position.z == ss[i].position.z
  {
    var r := Stepped(ss, mouse, time, sin);
    forall i | 0 <= i < |ss| ensures r[i] == AnimateShape(ss[i], mouse, time, sin) && ShapeOk(r[i]) {
      assert ShapeOk(ss[i]);
    }
  }

  /** The scene `s` after adding the meshes of shapes `lo` .. `hi - 1`, in that order. */
  function WithShapes(s: set<SceneObject>, lo: nat, hi: nat): set<SceneObject>
    decreases hi
  {
    if hi <= lo then s else WithShapes(s, lo, hi - 1) + {ShapeMesh(hi - 1)}
  }

  /** The scene `s` after removing the meshes of shapes `lo` .. `hi - 1`. */
  function WithoutShapes(s: set<SceneObject>, lo: nat, hi: nat): set<SceneObject>
    decreases hi
  {
    if hi <= lo then s else WithoutShapes(s, lo, hi - 1) - {ShapeMesh(hi - 1)}
  }

  /** Adding the meshes `lo .. mid - 1` and then `mid .. hi - 1` adds the meshes `lo .. hi - 1`. */
  lemma {:induction false} WithShapesJoin(s: set<SceneObject>, lo: nat, mid: nat, hi: nat)
    requires lo <= mid <= hi
    ensures WithShapes(WithShapes(s, lo, mid), mid, hi) == WithShapes(s, lo, hi)
    decreases hi
  {
    if mid < hi {
      WithShapesJoin(s, lo, mid, hi - 1);
    }
  }

  /** After adding, the scene holds what it held before and exactly the shape meshes `lo .. hi - 1` more. */
  lemma {:induction false} WithShapesMembers(s: set<SceneObject>, lo: nat, hi: nat, o: SceneObject)
    ensures o in WithShapes(s, lo, hi) <==> o in s || (o.ShapeMesh? && lo <= o.index < hi)
    decreases hi
  {
    if lo < hi {
      WithShapesMembers(s, lo, hi - 1, o);
    }
  }

  lemma {:induction false} WithoutShapesMembers(s: set<SceneObject>, lo: nat, hi: nat, o: SceneObject)
    ensures o in WithoutShapes(s, lo, hi) <==> o in s && !(o.ShapeMesh? && lo <= o.index < hi)
    decreases hi
  {
    if lo < hi {
      WithoutShapesMembers(s, lo, hi - 1, o);
    }
  }

  /**
   * Building `n` shapes into a scene that held none of their meshes, and
   * disposing them again, leaves the scene as it was.
   */
  lemma BuildThenDisposeRestoresScene(s: set<SceneObject>, n: nat)
    requires forall o :: o in s ==> !(o.ShapeMesh? && o.index < n)
    ensures WithoutShapes(WithShapes(s, 0, n), 0, n) == s
  {
    var cleared := WithoutShapes(WithShapes(s, 0, n), 0, n);
    forall o ensures o in cleared <==> o in s {
      WithShapesMembers(s, 0, n, o);
      WithoutShapesMembers(WithShapes(s, 0, n), 0, n, o);
    }
  }

  /** The geometry index of every shape of `ss`, in order. */
  function Kinds(ss: seq<Shape>): (ks: seq<nat>)
    ensures |ks| == |ss|
  {
    seq(|ss|, i requires 0 <= i < |ss| => ss[i].geometry)
  }

  /** The `dispose()` calls the loop of `dispose` makes for the first `n` shapes of `ss`, in order. */
  function ShapeReleases(ss: seq<Shape>, n: nat): seq<Resource>
    requires n <= |ss|
  {
    if n == 0 then [] else ShapeReleases(ss, n - 1) + [ShapeGeometry(ss[n - 1].geometry), ShapeMaterial(n - 1)]
  }

  /** The loop of `dispose` releases, for each shape in turn, its kind's geometry and then its own material. */
  lemma {:induction false} ShapeReleasesLayout(ss: seq<Shape>, n: nat)
    requires n <= |ss|
    ensures |ShapeReleases(ss, n)| == 2 * n
    ensures forall k :: 0 <= k < n ==>
      ShapeReleases(ss, n)[2 * k] == ShapeGeometry(ss[k].geometry) && ShapeReleases(ss, n)[2 * k + 1] == ShapeMaterial(k)
  {
    if 0 < n {
      var m := n - 1;
      assert ShapeReleases(ss, n) == ShapeReleases(ss, m) + [ShapeGeometry(ss[m].geometry), ShapeMaterial(m)];
      ShapeReleasesLayout(ss, m);
    }
  }

  /**
   * Disposing the first `n` shapes releases each geometry once per shape
   * that uses it: a geometry shared by several shapes is released several
   * times, one no shape uses not at all.
   */
  lemma {:induction false} GeometryReleases(ss: seq<Shape>, n: nat, g: nat)
    requires n <= |ss|
    ensures Releases(ShapeReleases(ss, n), ShapeGeometry(g)) == multiset(Kinds(ss)[..n])[g]
  {
    if 0 < n {
      var m := n - 1;
      assert ShapeReleases(ss, n) == ShapeReleases(ss, m) + [ShapeGeometry(ss[m].geometry), ShapeMaterial(m)];
      GeometryReleases(ss, m, g);
      ReleasesTwoMore(ShapeReleases(ss, m), ShapeGeometry(ss[m].geometry), ShapeMaterial(m), ShapeGeometry(g));
      KindsPrefixStep(ss, n, g);
    }
  }

  /** Counting kinds over one more shape adds one exactly when that shape has the kind. */
  lemma KindsPrefixStep(ss: seq<Shape>, n: nat, g: nat)
    requires 0 < n <= |ss|
    ensures multiset(Kinds(ss)[..n])[g]
      == multiset(Kinds(ss)[..n - 1])[g] + (if ss[n - 1].geometry == g then 1 else 0)
  {
    var ks := Kinds(ss);
    assert ks[..n] == ks[..n - 1] + [ks[n - 1]];
    assert multiset(ks[..n]) == multiset(ks[..n - 1]) + multiset{ks[n - 1]};
  }

  /** Disposing the first `n` shapes releases the material of each of them exactly once, and no other. */
  lemma {:induction false} ShapeMaterialReleases(ss: seq<Shape>, n: nat, i: nat)
    requires n <= |ss|
    ensures Releases(ShapeReleases(ss, n), ShapeMaterial(i)) == if i < n then 1 else 0
  {
    if 0 < n {
      var m := n - 1;
      assert ShapeReleases(ss, n) == ShapeReleases(ss, m) + [ShapeGeometry(ss[m].geometry), ShapeMaterial(m)];
      ShapeMaterialReleases(ss, m, i);
      ReleasesTwoMore(ShapeReleases(ss, m), ShapeGeometry(ss[m].geometry), ShapeMaterial(m), ShapeMaterial(i));
      assert (if ShapeMaterial(m) == ShapeMaterial(i) then 1 else 0) == (if i == m then 1 else 0);
    }
  }

  class FloatingShapes {
    const scene: Scene
    const shapeCount: nat
    var shapes: seq<Shape>
    /** Every resource `dispose()` has been called on, in call order. */
    var released: seq<Resource>

    ghost predicate Valid()
      reads this
    {
      ShapesOk(shapes)
    }

    /**
     * `new FloatingShapes(scene)`: picks the shape count from the viewport
     * and creates the shapes from the random stream.
     */
    constructor (scene: Scene, viewportWidth: int, rand: Draws)
      modifies scene
      ensures Valid()
      ensures this.scene == scene && shapeCount == GetShapeCount(viewportWidth)
      ensures shapes == SpawnedShapes(rand, shapeCount) && released == []
      ensures scene.objects == WithShapes(old(scene.objects), 0, shapeCount)
    {
      this.scene := scene;
      shapeCount := GetShapeCount(viewportWidth);
      shapes := [];
      released := [];
      new;
      CreateShapes(rand);
      EmptyAppend(SpawnedShapes(rand, shapeCount));
      SpawnedShapesOk(rand, shapeCount);
    }

    /** `createShapes`: appends `shapeCount` shapes and adds each to the scene. */
    method CreateShapes(rand: Draws)
      modifies this, scene
      ensures shapes == old(shapes) + SpawnedShapes(rand, shapeCount)
      ensures released == old(released)
      ensures scene.objects == WithShapes(old(scene.objects), |old(shapes)|, |shapes|)
    {
      var base := |shapes|;
      for i := 0 to shapeCount
        invariant shapes == old(shapes) + SpawnedShapes(rand, i)
        invariant released == old(released)
        invariant scene.objects == WithShapes(old(scene.objects), base, |shapes|)
      {
        ghost var middle := |shapes|;
        AddShape(rand, i, old(shapes));
        WithShapesJoin(old(scene.objects), base, middle, |shapes|);
      }
    }

    /**
     * The body of the loop of `createShapes`: builds shape `i` from its
     * draws, adds its mesh to the scene and pushes it.
     */
    method AddShape(rand: Draws, i: nat, ghost prior: seq<Shape>)
      requires shapes == prior + SpawnedShapes(rand, i)
      modifies this, scene
      ensures shapes == prior + SpawnedShapes(rand, i + 1)
      ensures |old(shapes)| <= |shapes|
      ensures scene.objects == WithShapes(old(scene.objects), |old(shapes)|, |shapes|)
      ensures released == old(released)
    {
      var shape := SpawnShape(rand, i);
      scene.Add(ShapeMesh(|shapes|));
      assert WithShapes(old(scene.objects), |shapes|, |shapes| + 1) == scene.objects;
      shapes := shapes + [shape];
      assert shapes == prior + SpawnedShapes(rand, i + 1) by {
        SpawnedShapesStep(rand, i);
        assert old(shapes) + [shape] == prior + (SpawnedShapes(rand, i) + [shape]);
      }
    }

    /**
     * `update(mouse)` at wall-clock time `now`, with the mouse when the
     * page passes one: animates every shape in turn.
     */
    method Update(mouse: Option<Mouse>, now: real, sin: Wave)
      requires Valid()
      modifies this
      ensures Valid()
      ensures released == old(released)
      ensures shapes == Stepped(old(shapes), mouse, now, sin)
    {
      AnimateShapes(mouse, now, sin);
      SteppedKeepsShapes(old(shapes), mouse, now, sin);
    }

    /** The `forEach` loop of `update`: animates every shape at time `time`. */
    method AnimateShapes(mouse: Option<Mouse>, time: real, sin: Wave)
      modifies this
      ensures shapes == Stepped(old(shapes), mouse, time, sin)
      ensures released == old(released)
    {
      ghost var before := shapes;
      for i := 0 to |shapes|
        invariant shapes == SteppedUpTo(before, mouse, time, sin, i)
        invariant released == old(released)
      {
        SteppedUpToStep(before, mouse, time, sin, i);
        shapes := shapes[i := AnimateShape(shapes[i], mouse, time, sin)];
      }
    }

    /**
     * `dispose()`: releases each shape's geometry and material and removes
     * the shape from the scene, then empties the array.
     */
    method Dispose()
      requires Valid()
      modifies this, scene
      ensures Valid()
      ensures shapes == []
      ensures released == old(released) + ShapeReleases(old(shapes), |old(shapes)|)
      ensures scene.objects == WithoutShapes(old(scene.objects), 0, |old(shapes)|)
    {
      for i := 0 to |shapes|
        invariant shapes == old(shapes)
        invariant released == old(released) + ShapeReleases(shapes, i)
        invariant scene.objects == WithoutShapes(old(scene.objects), 0, i)
      {
        released := released + [ShapeGeometry(shapes[i].geometry), ShapeMaterial(i)];
        scene.Remove(ShapeMesh(i));
      }
      shapes := [];
    }
  }

  /**
   * Disposing and then running a frame: the frame finds the array empty and
   * changes nothing, and neither step fails when there are no shapes.
   */
  method DisposeThenUpdate(fs: FloatingShapes, mouse: Option<Mouse>, now: real, sin: Wave)
    requires fs.Valid()
    modifies fs, fs.scene
    ensures fs.Valid() && fs.shapes == []
    ensures fs.released == old(fs.released) + ShapeReleases(old(fs.shapes), |old(fs.shapes)|)
    ensures fs.scene.objects == WithoutShapes(old(fs.scene.objects), 0, |old(fs.shapes)|)
  {
    fs.Dispose();
    fs.Update(mouse, now, sin);
  }

  /** Disposing twice: the second call finds the array empty and releases nothing more. */
  method DisposeTwice(fs: FloatingShapes)
    requires fs.Valid()
    modifies fs, fs.scene
    ensures fs.Valid() && fs.shapes == []
    ensures fs.released == old(fs.released) + ShapeReleases(old(fs.shapes), |old(fs.shapes)|)
    ensures fs.scene.objects == WithoutShapes(old(fs.scene.objects), 0, |old(fs.shapes)|)
  {
    fs.Dispose();
    fs.Dispose();
  }
}
