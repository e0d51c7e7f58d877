/**
 * The per-tick input rule of the cube: held keys fold incremental matrix
 * operations into the accumulated matrix, any held key marks the geometry
 * dirty, and a dirty tick applies the (never reset) accumulated matrix to
 * every corner once.
 */
module Controls {
  import opened Geometry

  /** The ten keys the update step polls. */
  datatype Key = Up | Down | Right | Left | X | Z | A | S | Q | W

  /** The order in which the update step tests the keys. */
  const KeyOrder: seq<Key> := [Up, Down, Right, Left, X, Z, A, S, Q, W]

  /**
   * The operations of the matrix and vector classes, which are not part of
   * this model. Each matrix operation receives the current matrix as its
   * receiver; nothing is assumed about how it uses it.
   */
  datatype MatrixOps<!M> = MatrixOps(
    rotationX: (M, real) -> M,
    rotationY: (M, real) -> M,
    rotationZ: (M, real) -> M,
    translate: (M, real, real) -> M,
    scale3D: (M, real) -> M,
    apply: (Vec3, M) -> Vec3)

  /** The matrix that holding key k for one tick assigns, given the current matrix m. */
  function KeyMatrix<M>(ops: MatrixOps<M>, m: M, k: Key): M
  {
    match k
    case Up => ops.rotationX(m, 0.01)
    case Down => ops.rotationX(m, -0.01)
    case Right => ops.rotationY(m, 0.01)
    case Left => ops.rotationY(m, -0.01)
    case X => ops.rotationZ(m, 0.01)
    case Z => ops.rotationZ(m, -0.01)
    case A => ops.translate(m, 0.001, 0.0)
    case S => ops.translate(m, -0.001, 0.0)
    case Q => ops.scale3D(m, 99.95)
    case W => ops.scale3D(m, 100.05)
  }

  /** The matrix after testing the keys ks in order, each held one replacing the matrix. */
  function Accumulate<M>(ops: MatrixOps<M>, m: M, ks: seq<Key>, held: set<Key>): M
  {
    if ks == [] then m
    else
      var before := Accumulate(ops, m, ks[..|ks| - 1], held);
      var k := ks[|ks| - 1];
      if k in held then KeyMatrix(ops, before, k) else before
  }

  /** Testing one more key extends the accumulation by that key alone. */
  lemma AccumulateSnoc<M>(ops: MatrixOps<M>, m: M, ks: seq<Key>, k: Key, held: set<Key>)
    ensures Accumulate(ops, m, ks + [k], held)
         == (var before := Accumulate(ops, m, ks, held); if k in held then KeyMatrix(ops, before, k) else before)
  {
  }

  /** Keys that are not held leave the matrix exactly as it was. */
  lemma {:induction false} AccumulateUnheld<M>(ops: MatrixOps<M>, m: M, ks: seq<Key>, held: set<Key>)
    requires forall j :: 0 <= j < |ks| ==> ks[j] !in held
    ensures Accumulate(ops, m, ks, held) == m
  {
    if ks != [] {
      AccumulateUnheld(ops, m, ks[..|ks| - 1], held);
    }
  }

  /** With a single key held, among keys tested once each, the matrix takes only that key's step. */
  lemma {:induction false} AccumulateSingle<M>(ops: MatrixOps<M>, m: M, ks: seq<Key>, k: Key)
    requires k in ks
    requires forall i, j :: 0 <= i < j < |ks| ==> ks[i] != ks[j]
    ensures Accumulate(ops, m, ks, {k}) == KeyMatrix(ops, m, k)
  {
    var pre := ks[..|ks| - 1];
    if ks[|ks| - 1] == k {
      forall j | 0 <= j < |pre| ensures pre[j] !in {k} {
        assert pre[j] == ks[j];
      }
      AccumulateUnheld(ops, m, pre, {k});
    } else {
      var i :| 0 <= i < |ks| && ks[i] == k;
      assert pre[i] == k;
      AccumulateSingle(ops, m, pre, k);
    }
  }

  /** Every key is one of the ten the update step tests, each tested once. */
  lemma KeyOrderComplete(k: Key)
    ensures k in KeyOrder
    ensures forall i, j :: 0 <= i < j < |KeyOrder| ==> KeyOrder[i] != KeyOrder[j]
  {
  }

  /** A held-key set is non-empty exactly when one of the ten tested keys is in it. */
  lemma HeldIsSomeKey(held: set<Key>)
    ensures held != {} <==>
      (Up in held || Down in held || Right in held || Left in held || X in held ||
       Z in held || A in held || S in held || Q in held || W in held)
  {
    if held != {} {
      var k :| k in held;
      match k
      case Up => case Down => case Right => case Left => case X =>
      case Z => case A => case S => case Q => case W =>
    }
  }

  /** Every corner replaced by the matrix applied to it, one matrix for all. */
  function Transformed<M>(ops: MatrixOps<M>, cs: seq<Vec3>, m: M): seq<Vec3>
  {
    seq(|cs|, i requires 0 <= i < |cs| => ops.apply(cs[i], m))
  }

  /** The state one update step reads and writes, apart from the vertex buffers. */
  datatype TickState<M> = TickState(matrix: M, corners: seq<Vec3>, changed: bool, flip: bool)

  /** What one update step is given: the keys held and whether a second has elapsed. */
  datatype TickInput = TickInput(held: set<Key>, secondElapsed: bool)

  /**
   * One update step: the flip toggles when a second has elapsed, the held
   * keys fold into the matrix, and if any key was held (or the dirty flag
   * was already set) the corners are transformed once by the new matrix and
   * the flag is cleared.
   */
  function Tick<M>(ops: MatrixOps<M>, s: TickState<M>, input: TickInput): TickState<M>
  {
    var m := Accumulate(ops, s.matrix, KeyOrder, input.held);
    var dirty := s.changed || input.held != {};
    TickState(m, if dirty then Transformed(ops, s.corners, m) else s.corners, false,
              if input.secondElapsed then !s.flip else s.flip)
  }

  /** A run of update steps, one per input. */
  function Run<M>(ops: MatrixOps<M>, s: TickState<M>, inputs: seq<TickInput>): TickState<M>
    decreases |inputs|
  {
    if inputs == [] then s else Run(ops, Tick(ops, s, inputs[0]), inputs[1..])
  }

  /**
   * Ticks with no key held, starting clean, change neither the matrix nor
   * the corners, and the dirty flag stays clear.
   */
  lemma {:induction false} IdleRunKeepsGeometry<M>(ops: MatrixOps<M>, s: TickState<M>, inputs: seq<TickInput>)
    requires !s.changed
    requires forall i :: 0 <= i < |inputs| ==> inputs[i].held == {}
    ensures Run(ops, s, inputs).matrix == s.matrix
    ensures Run(ops, s, inputs).corners == s.corners
    ensures !Run(ops, s, inputs).changed
    decreases |inputs|
  {
    if inputs != [] {
      AccumulateUnheld(ops, s.matrix, KeyOrder, {});
      var next := Tick(ops, s, inputs[0]);
      assert next.matrix == s.matrix && next.corners == s.corners && !next.changed;
      assert forall i :: 0 <= i < |inputs[1..]| ==> inputs[1..][i] == inputs[i + 1];
      IdleRunKeepsGeometry(ops, next, inputs[1..]);
    }
  }

  /**
   * The accumulated matrix is never reset: holding the scale-up key for two
   * ticks applies Scale3D(m0) to the corners and then Scale3D(Scale3D(m0))
   * to the already scaled corners.
   */
  lemma HeldTwiceCompounds<M>(ops: MatrixOps<M>, s: TickState<M>)
    ensures var once := ops.scale3D(s.matrix, 100.05);
            var twice := ops.scale3D(once, 100.05);
            var r := Run(ops, s, [TickInput({W}, false), TickInput({W}, false)]);
            && r.matrix == twice
            && |r.corners| == |s.corners|
            && (forall i :: 0 <= i < |s.corners| ==> r.corners[i] == ops.apply(ops.apply(s.corners[i], once), twice))
  {
    var input := TickInput({W}, false);
    KeyOrderComplete(W);
    AccumulateSingle(ops, s.matrix, KeyOrder, W);
    var s1 := Tick(ops, s, input);
    AccumulateSingle(ops, s1.matrix, KeyOrder, W);
    var s2 := Tick(ops, s1, input);
    assert Run(ops, s, [input, input]) == Run(ops, s1, [input]);
    assert [input, input][1..][1..] == [];
    assert Run(ops, s1, [input]) == s2;
  }
}
