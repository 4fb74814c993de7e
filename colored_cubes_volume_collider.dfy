/**
 * Cubiquity.ColoredCubesVolumeCollider.BuildMeshFromNodeHandle: turning the
 * mesh the native library lends out for one octree node into a Unity mesh.
 * Indices are widened from 16 to 32 bits; each quantized vertex position has
 * the fixed corner-alignment bias (0.5, 0.5, 0.5) subtracted.
 */
module ColoredCubesVolumeCollider {
  import opened Wrappers
  import opened Ints
  import opened CubiquityC
  import opened UnityEngine

  /** The bias of the CubicVertex encoding: quantized positions sit half a voxel off. */
  const Offset: Vector3 := Vector3(0.5, 0.5, 0.5)

  /** The implicit ushort-to-int conversion: value-preserving, never negative. */
  function Widen(index: uint16): (r: int32)
    ensures r as int == index as int
    ensures 0 <= r <= 65535
  {
    index as int32
  }

  /** The triangle list Unity receives for a 16-bit index buffer. */
  function WidenedIndices(indices: seq<uint16>): (r: seq<int32>)
    ensures |r| == |indices|
    ensures forall k :: 0 <= k < |r| ==> r[k] as int == indices[k] as int && 0 <= r[k] <= 65535
  {
    seq(|indices|, k requires 0 <= k < |indices| => Widen(indices[k]))
  }

  /** Converting back to 16 bits; None for a value a ushort cannot hold. */
  function Narrow(value: int32): Option<uint16> {
    if 0 <= value <= 65535 then Some(value as uint16) else None
  }

  function NarrowedIndices(values: seq<int32>): Option<seq<uint16>>
    decreases |values|
  {
    if values == [] then Some([])
    else
      match (Narrow(values[0]), NarrowedIndices(values[1..]))
      case (Some(first), Some(rest)) => Some([first] + rest)
      case _ => None
  }

  /** Widening loses nothing and keeps the order, so triangle winding is unchanged. */
  lemma {:induction false} NarrowInvertsWiden(indices: seq<uint16>)
    ensures NarrowedIndices(WidenedIndices(indices)) == Some(indices)
    decreases |indices|
  {
    if indices != [] {
      var wide := WidenedIndices(indices);
      assert wide[1..] == WidenedIndices(indices[1..]);
      NarrowInvertsWiden(indices[1..]);
      assert Narrow(wide[0]) == Some(indices[0]);
      assert [indices[0]] + indices[1..] == indices;
    }
  }

  /** The decoded position of one quantized vertex. */
  function DecodePosition(v: ColoredCubesVertex): (r: Vector3)
    ensures r.x + 0.5 == v.x as real && r.y + 0.5 == v.y as real && r.z + 0.5 == v.z as real
  {
    Vector3(v.x as real, v.y as real, v.z as real).Minus(Offset)
  }

  /** The vertex list Unity receives for a quantized vertex buffer. */
  function DecodedPositions(vertices: seq<ColoredCubesVertex>): (r: seq<Vector3>)
    ensures |r| == |vertices|
    ensures forall k :: 0 <= k < |r| ==>
      r[k] == Vector3(vertices[k].x as real - 0.5, vertices[k].y as real - 0.5, vertices[k].z as real - 0.5)
  {
    seq(|vertices|, k requires 0 <= k < |vertices| => DecodePosition(vertices[k]))
  }

  /** The encoding that decode inverts: add the bias back, which must land on the grid. */
  function EncodeCoordinate(c: real): Option<int> {
    var biased := c + 0.5;
    if biased.Floor as real == biased then Some(biased.Floor) else None
  }

  function EncodePosition(p: Vector3): Option<ColoredCubesVertex> {
    match (EncodeCoordinate(p.x), EncodeCoordinate(p.y), EncodeCoordinate(p.z))
    case (Some(x), Some(y), Some(z)) => Some(ColoredCubesVertex(x, y, z))
    case _ => None
  }

  function EncodedPositions(positions: seq<Vector3>): Option<seq<ColoredCubesVertex>>
    decreases |positions|
  {
    if positions == [] then Some([])
    else
      match (EncodePosition(positions[0]), EncodedPositions(positions[1..]))
      case (Some(first), Some(rest)) => Some([first] + rest)
      case _ => None
  }

  /** Decoding is exact: re-encoding a decoded position gives the quantized vertex back. */
  lemma EncodeInvertsDecodePosition(v: ColoredCubesVertex)
    ensures EncodePosition(DecodePosition(v)) == Some(v)
  {
  }

  /** Decoding a whole buffer is exact and keeps the vertex order. */
  lemma {:induction false} EncodeInvertsDecode(vertices: seq<ColoredCubesVertex>)
    ensures EncodedPositions(DecodedPositions(vertices)) == Some(vertices)
    decreases |vertices|
  {
    if vertices != [] {
      var decoded := DecodedPositions(vertices);
      assert decoded[1..] == DecodedPositions(vertices[1..]);
      EncodeInvertsDecode(vertices[1..]);
      EncodeInvertsDecodePosition(vertices[0]);
      assert [vertices[0]] + vertices[1..] == vertices;
    }
  }

  /**
   * Builds the collision mesh from the counts and the buffers the native
   * library lends out. The buffers are only read. Zero counts give an empty
   * mesh.
   */
  method BuildMeshFromNodeHandle(noOfVertices: uint32, vertices: array<ColoredCubesVertex>,
                                 noOfIndices: uint32, indices: array<uint16>)
    returns (mesh: Mesh)
    requires noOfVertices as int <= vertices.Length
    requires noOfIndices as int <= indices.Length
    ensures fresh(mesh)
    ensures mesh.triangles == WidenedIndices(indices[..noOfIndices])
    ensures mesh.vertices == DecodedPositions(vertices[..noOfVertices])
    ensures |mesh.triangles| == noOfIndices as int && |mesh.vertices| == noOfVertices as int
  {
    var offset := Offset;

    var indicesAsInt := new int32[noOfIndices];
    var cursor := 0;  // where the `indices` pointer points
    var ct := 0;
    while ct < noOfIndices as int
      modifies indicesAsInt
      invariant 0 <= ct <= noOfIndices as int && cursor == ct
      invariant forall k :: 0 <= k < ct ==> indicesAsInt[k] == Widen(indices[k])
    {
      indicesAsInt[ct] := indices[cursor] as int32;
      cursor := cursor + 1;
      ct := ct + 1;
    }

    var positions := new Vector3[noOfVertices];
    cursor := 0;  // where the `vertices` pointer points
    ct := 0;
    while ct < noOfVertices as int
      modifies positions
      invariant 0 <= ct <= noOfVertices as int && cursor == ct
      invariant forall k :: 0 <= k < ct ==> positions[k] == DecodePosition(vertices[k])
    {
      positions[ct] := Vector3(vertices[cursor].x as real, vertices[cursor].y as real, vertices[cursor].z as real);
      positions[ct] := positions[ct].Minus(offset);
      cursor := cursor + 1;
      ct := ct + 1;
    }

    mesh := new Mesh();
    mesh.vertices := positions[..];
    mesh.triangles := indicesAsInt[..];
    assert indicesAsInt[..] == WidenedIndices(indices[..noOfIndices]);
    assert positions[..] == DecodedPositions(vertices[..noOfVertices]);
  }
}
