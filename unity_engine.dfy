/** The two UnityEngine types the collider produces. */
module UnityEngine {
  import opened Ints

  /** A position; Unity's float components are modelled as exact reals. */
  datatype Vector3 = Vector3(x: real, y: real, z: real) {
    function Minus(other: Vector3): Vector3 {
      Vector3(x - other.x, y - other.y, z - other.z)
    }
  }

  /**
   * A rendering/collision mesh. Unity's `vertices` and `triangles` setters
   * copy the array they are given, so the mesh holds values, not arrays.
   */
  class Mesh {
    var vertices: seq<Vector3>
    var triangles: seq<int32>

    constructor ()
      ensures vertices == [] && triangles == []
    {
      vertices := [];
      triangles := [];
    }
  }
}
