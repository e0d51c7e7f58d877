/**
 * Value types of the cube model and the pure index arithmetic behind the
 * CPU-side vertex bookkeeping: corners are flattened into a scalar array,
 * and faces are coloured in runs of six vertices.
 */
module Geometry {

  /** A `MyVector3`: three scalar components read through getX/getY/getZ. */
  datatype Vec3 = Vec3(x: real, y: real, z: real)

  /** The four `color` slots of a vertex record: red, green, blue, alpha. */
  datatype Rgba = Rgba(r: real, g: real, b: real, a: real)

  /** One record of the 36-entry vertex buffer handed to the GPU. */
  datatype VertexStruct = VertexStruct(coordinate: Vec3, color: Rgba)

  /** `GLubyte`, the element type of the triangle index buffer. */
  newtype Byte = x: int | 0 <= x < 256

  const CornerCount := 8
  const ScalarCount := 24
  const VertexCount := 36
  const VerticesPerFace := 6

  /** The all-zero vertex record a zero-initialised global array holds. */
  const ZeroVertex := VertexStruct(Vec3(0.0, 0.0, 0.0), Rgba(0.0, 0.0, 0.0, 0.0))

  /**
   * The scalar view of a corner list: corner i occupies slots 3i, 3i+1
   * and 3i+2, in x, y, z order.
   */
  function Flatten(cs: seq<Vec3>): (r: seq<real>)
    ensures |r| == 3 * |cs|
    ensures forall i :: 0 <= i < |cs| ==>
      r[3 * i] == cs[i].x && r[3 * i + 1] == cs[i].y && r[3 * i + 2] == cs[i].z
  {
    if cs == [] then []
    else
      var last := cs[|cs| - 1];
      Flatten(cs[..|cs| - 1]) + [last.x, last.y, last.z]
  }

  /**
   * The point stored at corner slot c of a flattened array, read the way
   * the vertex loop reads it: slots 3c, 3c+1 and 3c+2.
   */
  function CornerAt(flat: seq<real>, c: int): Vec3
    requires 0 <= c && 3 * c + 2 < |flat|
  {
    Vec3(flat[3 * c], flat[3 * c + 1], flat[3 * c + 2])
  }

  /** Reading corner c back out of a flattened corner list gives corner c. */
  lemma FlattenCornerAt(cs: seq<Vec3>, c: int)
    requires 0 <= c < |cs|
    ensures 3 * c + 2 < |Flatten(cs)| && CornerAt(Flatten(cs), c) == cs[c]
  {
  }

  /**
   * The value of the colour counter while vertex i is coloured, starting
   * from `start`: it steps by one at every i that is a non-zero multiple of
   * six, and at no other i.
   */
  function ColourIndexAt(start: nat, i: nat): (r: nat)
    ensures r == start + i / VerticesPerFace
  {
    if i == 0 then start
    else ColourIndexAt(start, i - 1) + (if i % VerticesPerFace == 0 then 1 else 0)
  }

  /** The counter never passes colour start+5 over the 36 vertices, and ends there. */
  lemma ColourIndexBounds(start: nat, i: nat)
    requires i < VertexCount
    ensures start <= ColourIndexAt(start, i) <= start + 5
    ensures ColourIndexAt(start, VertexCount - 1) == start + 5
  {
  }

  /** The eight corners `arraySetup` installs: front face first, then the back face. */
  const InitialCorners: seq<Vec3> := [
    Vec3(0.25, 0.25, -0.1), Vec3(-0.25, 0.25, -0.1),
    Vec3(-0.25, -0.25, -0.1), Vec3(0.25, -0.25, -0.1),
    Vec3(0.25, 0.25, -0.5), Vec3(-0.25, 0.25, -0.5),
    Vec3(-0.25, -0.25, -0.5), Vec3(0.25, -0.25, -0.5)
  ]

  /**
   * Corners 0–3 form the front face (one z), corners 4–7 the back face
   * (another z), and corner i+4 lies straight behind corner i.
   */
  lemma InitialCornerFaces()
    ensures |InitialCorners| == CornerCount
    ensures forall i :: 0 <= i < 4 ==> InitialCorners[i].z == -0.1
    ensures forall i :: 4 <= i < 8 ==> InitialCorners[i].z == -0.5
    ensures forall i :: 0 <= i < 4 ==>
      InitialCorners[i].x == InitialCorners[i + 4].x && InitialCorners[i].y == InitialCorners[i + 4].y
  {
  }
}
