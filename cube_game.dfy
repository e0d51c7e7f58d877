/**
 * The cube's CPU-side state and the in-place loops over it: the eight
 * transformable corners, their flattened 24-scalar view, the 36-record
 * vertex buffer, the 36-entry triangle index buffer, the colour counter,
 * the accumulated matrix and the per-tick flags.
 */
module CubeGame {
  import opened Geometry
  import opened Controls

  class Game<M> {
    /** The matrix and vector operations the cube is transformed with. */
    const ops: MatrixOps<M>
    /** `vertex_index`: the corner each of the 36 triangle-list slots takes. */
    const vertexIndex: seq<int>
    /** `m_colourArray`: one colour per face. */
    const colourArray: seq<Vec3>

    /** `m_transformableVertex`: the eight corners. */
    const corners: array<Vec3>
    /** `m_vertexArray`: the corners as 24 scalars. */
    const vertexArray: array<real>
    /** `m_vertex`: the vertex records uploaded every frame. */
    const vertex: array<VertexStruct>
    /** `triangles`: the element buffer. */
    const triangles: array<Byte>

    /** The global `index`, used as the face-colour counter. */
    var index: nat
    /** `m_Matrix`: the accumulated transform, never reset. */
    var matrix: M
    /** `m_changed`: the dirty flag. */
    var changed: bool
    /** The one-second toggle `flip`. */
    var flip: bool

    ghost predicate Valid()
      reads this
    {
      && corners.Length == CornerCount
      && vertexArray.Length == ScalarCount
      && vertex.Length == VertexCount
      && triangles.Length == VertexCount
      && |vertexIndex| == VertexCount
      && (forall i :: 0 <= i < |vertexIndex| ==> 0 <= vertexIndex[i] < CornerCount)
      && |colourArray| >= VerticesPerFace
    }

    /** The part of the state one update step is specified on. */
    ghost function State(): TickState<M>
      reads this, corners
    {
      TickState(matrix, corners[..], changed, flip)
    }

    /** The vertex buffer holds, in slot i, the corner `vertexIndex[i]` names. */
    ghost predicate CoordinatesTrackCorners()
      reads this, corners, vertex
      requires Valid()
    {
      forall i :: 0 <= i < VertexCount ==> vertex[i].coordinate == corners[vertexIndex[i]]
    }

    /**
     * A game over the given operations and tables, with the zero-initialised
     * globals (vertex buffer, triangle buffer, `index`, `flip`) and the
     * starting matrix m0.
     */
    constructor (ops: MatrixOps<M>, vertexIndex: seq<int>, colourArray: seq<Vec3>, m0: M)
      requires |vertexIndex| == VertexCount
      requires forall i :: 0 <= i < |vertexIndex| ==> 0 <= vertexIndex[i] < CornerCount
      requires |colourArray| >= VerticesPerFace
      ensures Valid()
      ensures this.ops == ops && this.vertexIndex == vertexIndex && this.colourArray == colourArray
      ensures fresh(corners) && fresh(vertexArray) && fresh(vertex) && fresh(triangles)
      ensures forall i :: 0 <= i < VertexCount ==> vertex[i] == ZeroVertex
      ensures forall i :: 0 <= i < VertexCount ==> triangles[i] == 0
      ensures index == 0 && matrix == m0 && !changed && !flip
    {
      this.ops := ops;
      this.vertexIndex := vertexIndex;
      this.colourArray := colourArray;
      corners := new Vec3[CornerCount](_ => Vec3(0.0, 0.0, 0.0));
      vertexArray := new real[ScalarCount](_ => 0.0);
      vertex := new VertexStruct[VertexCount](_ => ZeroVertex);
      triangles := new Byte[VertexCount](_ => 0);
      index := 0;
      matrix := m0;
      changed := false;
      flip := false;
    }

    /** `arraySetup`: installs the eight cube corners. */
    method ArraySetup()
      requires Valid()
      modifies corners
      ensures corners[..] == InitialCorners
    {
      corners[0] := Vec3(0.25, 0.25, -0.1);
      corners[1] := Vec3(-0.25, 0.25, -0.1);
      corners[2] := Vec3(-0.25, -0.25, -0.1);
      corners[3] := Vec3(0.25, -0.25, -0.1);
      corners[4] := Vec3(0.25, 0.25, -0.5);
      corners[5] := Vec3(-0.25, 0.25, -0.5);
      corners[6] := Vec3(-0.25, -0.25, -0.5);
      corners[7] := Vec3(0.25, -0.25, -0.5);
    }

    /**
     * `updateVertices`: flattens the corners into `vertexArray`, then sets
     * every vertex's coordinate from the flattened corner its index-table
     * entry names. Colours are left as they were.
     */
    method UpdateVertices()
      requires Valid()
      modifies vertexArray, vertex
      ensures vertexArray[..] == Flatten(corners[..])
      ensures forall i :: 0 <= i < VertexCount ==>
        vertex[i] == old(vertex[i]).(coordinate := corners[vertexIndex[i]])
      ensures CoordinatesTrackCorners()
    {
      for i := 0 to CornerCount
        invariant vertexArray[..3 * i] == Flatten(corners[..i])
        invariant forall j :: 0 <= j < VertexCount ==> vertex[j] == old(vertex[j])
      {
        var t := i * 3;
        vertexArray[t] := corners[i].x;
        vertexArray[t + 1] := corners[i].y;
        vertexArray[t + 2] := corners[i].z;
        assert corners[..i + 1] == corners[..i] + [corners[i]];
        assert vertexArray[..3 * (i + 1)] == vertexArray[..3 * i] + [corners[i].x, corners[i].y, corners[i].z];
      }
      assert corners[..CornerCount] == corners[..];
      assert vertexArray[..3 * CornerCount] == vertexArray[..];
      for i := 0 to VertexCount
        invariant vertexArray[..] == Flatten(corners[..])
        invariant forall j :: 0 <= j < i ==> vertex[j] == old(vertex[j]).(coordinate := corners[vertexIndex[j]])
        invariant forall j :: i <= j < VertexCount ==> vertex[j] == old(vertex[j])
      {
        var c := vertexIndex[i];
        FlattenCornerAt(corners[..], c);
        vertex[i] := vertex[i].(coordinate := Vec3(vertexArray[c * 3], vertexArray[c * 3 + 1], vertexArray[c * 3 + 2]));
      }
    }

    /**
     * `setUpColour`: gives vertex i the red, green and blue of colour
     * `index` as it stands at step i, where `index` steps up by one at every
     * non-zero multiple of six. Alpha and coordinates are left as they were.
     */
    method SetUpColour()
      requires Valid()
      requires index + 5 < |colourArray|
      modifies vertex, this`index
      ensures index == old(index) + 5
      ensures forall i :: 0 <= i < VertexCount ==>
        var c := colourArray[old(index) + i / VerticesPerFace];
        vertex[i] == old(vertex[i]).(color := Rgba(c.x, c.y, c.z, old(vertex[i].color.a)))
    {
      for i := 0 to VertexCount
        invariant index == (if i == 0 then old(index) else ColourIndexAt(old(index), i - 1))
        invariant forall j :: 0 <= j < i ==>
          var c := colourArray[old(index) + j / VerticesPerFace];
          vertex[j] == old(vertex[j]).(color := Rgba(c.x, c.y, c.z, old(vertex[j].color.a)))
        invariant forall j :: i <= j < VertexCount ==> vertex[j] == old(vertex[j])
      {
        if i != 0 && i % VerticesPerFace == 0 {
          index := index + 1;
        }
        assert index == ColourIndexAt(old(index), i);
        var c := colourArray[index];
        vertex[i] := vertex[i].(color := vertex[i].color.(r := c.x, g := c.y, b := c.z));
      }
    }

    /** The `triangles` loop of `initialize`: element i of the index buffer is i. */
    method FillTriangles()
      requires Valid()
      modifies triangles
      ensures forall i :: 0 <= i < VertexCount ==> triangles[i] as int == i
    {
      for i := 0 to VertexCount
        invariant forall j :: 0 <= j < i ==> triangles[j] as int == j
      {
        triangles[i] := i as Byte;
      }
    }

    /**
     * The CPU-side part of `initialize`: corners, coordinates, colours (with
     * the counter still at its zero initial value) and the element buffer.
     */
    method Initialize()
      requires Valid()
      requires index == 0
      modifies corners, vertexArray, vertex, this`index, triangles
      ensures Valid()
      ensures corners[..] == InitialCorners
      ensures vertexArray[..] == Flatten(InitialCorners)
      ensures forall i :: 0 <= i < VertexCount ==>
        var c := colourArray[i / VerticesPerFace];
        vertex[i] == VertexStruct(InitialCorners[vertexIndex[i]], Rgba(c.x, c.y, c.z, old(vertex[i].color.a)))
      ensures forall i :: 0 <= i < VertexCount ==> triangles[i] as int == i
      ensures index == 5
    {
      ArraySetup();
      UpdateVertices();
      SetUpColour();
      FillTriangles();
    }

    /** `transformVertices`: every corner becomes the accumulated matrix applied to it. */
    method TransformVertices()
      requires Valid()
      modifies corners
      ensures corners[..] == Transformed(ops, old(corners[..]), matrix)
      ensures forall i :: 0 <= i < CornerCount ==> corners[i] == ops.apply(old(corners[i]), matrix)
    {
      for i := 0 to CornerCount
        invariant forall j :: 0 <= j < i ==> corners[j] == ops.apply(old(corners[j]), matrix)
        invariant forall j :: i <= j < CornerCount ==> corners[j] == old(corners[j])
      {
        corners[i] := ops.apply(corners[i], matrix);
      }
    }

    /**
     * One key test of `update`: if key k is held, the dirty flag is set and
     * the matrix is replaced by k's incremental operation on it.
     */
    method TestKey(k: Key, held: set<Key>)
      modifies this`matrix, this`changed
      ensures matrix == (if k in held then KeyMatrix(ops, old(matrix), k) else old(matrix))
      ensures changed == (old(changed) || k in held)
    {
      if k in held {
        changed := true;
        matrix := KeyMatrix(ops, matrix, k);
      }
    }

    /**
     * The key tests of `update`, in their fixed order: the matrix ends as
     * the accumulation of every held key's operation, and the dirty flag is
     * set exactly when some key was held (or it was set already).
     */
    method PollKeys(held: set<Key>)
      modifies this`matrix, this`changed
      ensures matrix == Accumulate(ops, old(matrix), KeyOrder, held)
      ensures changed == (old(changed) || held != {})
    {
      ghost var m0 := matrix;
      ghost var tested: seq<Key> := [];
      TestKey(Up, held);
      AccumulateSnoc(ops, m0, tested, Up, held);
      tested := tested + [Up];
      TestKey(Down, held);
      AccumulateSnoc(ops, m0, tested, Down, held);
      tested := tested + [Down];
      TestKey(Right, held);
      AccumulateSnoc(ops, m0, tested, Right, held);
      tested := tested + [Right];
      TestKey(Left, held);
      AccumulateSnoc(ops, m0, tested, Left, held);
      tested := tested + [Left];
      TestKey(X, held);
      AccumulateSnoc(ops, m0, tested, X, held);
      tested := tested + [X];
      TestKey(Z, held);
      AccumulateSnoc(ops, m0, tested, Z, held);
      tested := tested + [Z];
      TestKey(A, held);
      AccumulateSnoc(ops, m0, tested, A, held);
      tested := tested + [A];
      TestKey(S, held);
      AccumulateSnoc(ops, m0, tested, S, held);
      tested := tested + [S];
      TestKey(Q, held);
      AccumulateSnoc(ops, m0, tested, Q, held);
      tested := tested + [Q];
      TestKey(W, held);
      AccumulateSnoc(ops, m0, tested, W, held);
      tested := tested + [W];
      assert tested == KeyOrder;
      HeldIsSomeKey(held);
    }

    /**
     * `update`, one tick: the flip toggles if a second has elapsed; each
     * held key, tested in the fixed order, replaces the matrix and sets the
     * dirty flag; a dirty tick clears the flag and transforms the corners
     * once; the vertex coordinates are then rebuilt from the corners.
     */
    method Update(held: set<Key>, secondElapsed: bool)
      requires Valid()
      modifies this`matrix, this`changed, this`flip, corners, vertexArray, vertex
      ensures Valid()
      ensures State() == Tick(ops, old(State()), TickInput(held, secondElapsed))
      ensures matrix == Accumulate(ops, old(matrix), KeyOrder, held)
      ensures !changed
      ensures flip == (old(flip) != secondElapsed)
      ensures old(changed) || held != {} ==>
        forall i :: 0 <= i < CornerCount ==> corners[i] == ops.apply(old(corners[i]), matrix)
      ensures !old(changed) && held == {} ==> corners[..] == old(corners[..])
      ensures vertexArray[..] == Flatten(corners[..])
      ensures forall i :: 0 <= i < VertexCount ==> vertex[i].color == old(vertex[i].color)
      ensures CoordinatesTrackCorners()
    {
      if secondElapsed {
        if !flip {
          flip := true;
        } else {
          flip := false;
        }
      }

      PollKeys(held);

      if changed {
        changed := false;
        TransformVertices();
      }
      UpdateVertices();
    }
  }
}
