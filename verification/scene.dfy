/**
 * The parts of the rendering library the two entity systems touch: the
 * scene they add their objects to and remove them from, and the graphics
 * resources whose `dispose()` they call.
 */
module SceneGraph {

  /** A renderable object the entity systems put into the scene. */
  datatype SceneObject =
    | NodeMesh(index: nat)        // the sphere mesh of node `index`
    | ConnectionLine(index: nat)  // the line of connection `index`
    | ShapeMesh(index: nat)       // the mesh of floating shape `index`

  /**
   * A graphics resource. Several entities may hold the same handle: all
   * nodes share one sphere geometry, all connection lines one material, and
   * the floating shapes five geometries between them.
   */
  datatype Resource =
    | SphereGeometry
    | NodeMaterial(index: nat)
    | LineGeometry(index: nat)
    | SharedLineMaterial
    | ShapeGeometry(kind: nat)
    | ShapeMaterial(index: nat)

  /** The scene graph, reduced to the set of objects it currently holds. */
  class Scene {
    var objects: set<SceneObject>

    constructor ()
      ensures objects == {}
    {
      objects := {};
    }

    /** `scene.add(o)` */
    method Add(o: SceneObject)
      modifies this
      ensures objects == old(objects) + {o}
    {
      objects := objects + {o};
    }

    /** `scene.remove(o)`; removing an object the scene does not hold does nothing. */
    method Remove(o: SceneObject)
      modifies this
      ensures objects == old(objects) - {o}
    {
      objects := objects - {o};
    }
  }

  /** How many times `r` occurs in a log of released resources. */
  function Releases(log: seq<Resource>, r: Resource): nat
  {
    multiset(log)[r]
  }

  /** Appending two releases adds one count for each of them. */
  lemma ReleasesTwoMore(log: seq<Resource>, x: Resource, y: Resource, r: Resource)
    ensures Releases(log + [x, y], r)
      == Releases(log, r) + (if x == r then 1 else 0) + (if y == r then 1 else 0)
  {
    assert multiset(log + [x, y]) == multiset(log) + multiset{x} + multiset{y};
  }
}
