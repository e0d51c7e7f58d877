# Cube-Shader: CPU-side cube geometry

This project models the CPU-side bookkeeping of the Cube-Shader demo, which draws a
rotating, movable, scalable cube. The modelled logic is in `SFMLOpenGL/Game.cpp`:

- `arraySetup` installs eight cube corners (`m_transformableVertex`).
- `updateVertices` flattens the corners into the 24 scalars of `m_vertexArray`. It then
  copies them into the 36 vertex records of `m_vertex` through the `vertex_index` table.
- `setUpColour` colours the 36 vertices in runs of six from `m_colourArray`. Its counter
  is the global `index`.
- The loop in `initialize` fills the element buffer `triangles` with 0..35.
- `transformVertices` replaces every corner by `corner * m_Matrix`.
- `update` runs once per tick:
  - It toggles `flip` once a second.
  - Each of ten held keys replaces `m_Matrix` by an incremental operation on it and sets
    the dirty flag `m_changed`.
  - A dirty tick clears the flag and transforms the corners once.
  - In every case the vertex coordinates are then rebuilt.

The model has three modules:

- `Geometry` (`geometry.dfy`) holds the value types: `Vec3` for `MyVector3`, `Rgba`,
  `VertexStruct` and the `Byte` element of the triangle buffer. It also holds the pure
  index arithmetic: `Flatten` (corner i is at slots 3i..3i+2), `ColourIndexAt` (the value
  of the colour counter at step i) and the initial corners.
- `Controls` (`controls.dfy`) holds the per-tick input rule as specification functions:
  - `Key`, and the fixed test order `KeyOrder`.
  - `KeyMatrix`, the operation each key performs, with the source's constants: ±0.01 rad
    rotations, ±0.001 translation on x, and `Scale3D(99.95)` / `Scale3D(100.05)`.
  - `Accumulate`, the fold of held keys into the matrix.
  - `Tick`, one update step on the abstract state, and `Run`, a sequence of ticks.
- `CubeGame` (`cube_game.dfy`) holds the class `Game<M>`. It has the source's arrays as
  `array` fields, and the counter, the matrix and the two flags as mutable fields.
  - `ArraySetup`, `UpdateVertices`, `SetUpColour`, `TransformVertices` and `Update` model
    the source functions of the same names.
  - `FillTriangles` models the `triangles` loop inside `initialize`. `Initialize` models
    that function's CPU-side calls.
  - `TestKey` (one key test) and `PollKeys` (the ten tests in order) are the key-test part
    of `update`, factored out.
  - `UpdateVertices`, `TransformVertices`, `PollKeys` and `Update` are proved equal to the
    functions above (`Flatten`, `Transformed`, `Accumulate`, `Tick`). The other methods
    state their result outright in their `ensures`.

The vector and matrix classes are not part of this model, and neither are the tables
`vertex_index` and `m_colourArray`. They are parameters:

- The matrix type is the type parameter `M`.
- `RotationX`, `RotationY`, `RotationZ`, `Translate`, `Scale3D` and `vector * matrix` are
  the function-valued fields of `MatrixOps<M>`. Each receives the current matrix as its
  receiver. Nothing is assumed about how it combines with that receiver.
- The index table must have 36 entries, each in [0, 8).
- The colour table must have at least six entries.

Held keys are a `set<Key>` argument of `Update`. The one-second clock is a boolean
argument saying whether a second has elapsed.

Facts of the code the model keeps:

- The scale keys call `Scale3D(99.95)` and `Scale3D(100.05)`. The arguments are passed as
  written to the uninterpreted `scale3D`.
- Colours are written once, by `setUpColour` during `initialize`. `updateVertices` writes
  only coordinates.
- The colour of vertex i is `m_colourArray[index0 + i / 6]`, where index0 is the value of
  the global `index` when `setUpColour` starts. It is `m_colourArray[i / 6]` only because
  `initialize` calls `setUpColour` while the global still holds its zero initial value
  (`Game.cpp:67`), before `glGenBuffers` overwrites it (`Game.cpp:113`).
- Alpha (colour component 3) is never written, so it keeps the zero of the global array.

## Model

| member | source | states |
|---|---|---|
| `Controls.KeyMatrix` | SFMLOpenGL/Game.cpp:224-281 | reference definition: no contract; the call and constant of each of the ten key blocks. `TestKey` and `PollKeys` are proved equal to it |
| `Controls.Accumulate` | SFMLOpenGL/Game.cpp:224-281 | reference definition: no contract; the ordered fold of the ten key blocks over the matrix. `PollKeys` and `Update` are proved equal to it |
| `Controls.Transformed` | SFMLOpenGL/Game.cpp:406-409 | reference definition: no contract; every corner replaced by the one matrix applied to it. `TransformVertices` is proved equal to it |
| `Controls.Tick` | SFMLOpenGL/Game.cpp:198-288 | reference definition: no contract; one `update` on the abstract state. `Update` is proved equal to it |
| `Geometry.Flatten` | SFMLOpenGL/Game.cpp:387-393 | the flattened corner array has 3·n slots, and slots 3i, 3i+1, 3i+2 hold corner i's x, y, z |
| `Geometry.FlattenCornerAt` | SFMLOpenGL/Game.cpp:397-399 | reading slots 3c..3c+2 of the flattened corners gives back exactly corner c |
| `Geometry.ColourIndexAt` | SFMLOpenGL/Game.cpp:359-364 | the counter, stepped by one at each non-zero multiple of six, equals start + i / 6 while vertex i is coloured |
| `Geometry.ColourIndexBounds` | SFMLOpenGL/Game.cpp:361-367 | over the 36 vertices the counter stays within [start, start+5] and ends at start+5, so with start 0 it never reads past colour 5 |
| `Geometry.InitialCornerFaces` | SFMLOpenGL/Game.cpp:373-381 | corners 0–3 share z = −0.1, corners 4–7 share z = −0.5, and corner i+4 has corner i's x and y |
| `Controls.AccumulateSnoc` | SFMLOpenGL/Game.cpp:224-281 | testing one more key applies that key's operation to the matrix accumulated so far if it is held, and leaves it alone otherwise |
| `Controls.AccumulateUnheld` | SFMLOpenGL/Game.cpp:224-281 | when none of the tested keys is held, the matrix is unchanged |
| `Controls.AccumulateSingle` | SFMLOpenGL/Game.cpp:224-281 | with exactly one key held, among keys each tested once, the matrix is that key's single operation on the old matrix |
| `Controls.KeyOrderComplete` | SFMLOpenGL/Game.cpp:224-281 | each of the ten keys is tested, and each exactly once |
| `Controls.HeldIsSomeKey` | SFMLOpenGL/Game.cpp:224-283 | the dirty flag's condition "one of the ten keys is held" is the same as "the held set is non-empty" |
| `Controls.IdleRunKeepsGeometry` | SFMLOpenGL/Game.cpp:198-288 | any number of ticks with no key held, starting clean, leave matrix and corners as they were and the dirty flag clear |
| `Controls.HeldTwiceCompounds` | SFMLOpenGL/Game.cpp:277-287 | the matrix is never reset: two ticks of scale-up give matrix Scale3D(Scale3D(m0)), and each corner becomes apply(apply(c, Scale3D(m0)), Scale3D(Scale3D(m0))) |
| `CubeGame.Game.constructor` | SFMLOpenGL/Game.cpp:43-54 | the zero-initialised globals: zero vertex records, zero element buffer, counter 0; flags clear; given tables and starting matrix |
| `CubeGame.Game.ArraySetup` | SFMLOpenGL/Game.cpp:371-382 | the corner array becomes exactly the eight initial corners |
| `CubeGame.Game.UpdateVertices` | SFMLOpenGL/Game.cpp:384-402 | the scalar array is the flattened corners; every vertex i gets corner `vertexIndex[i]` as its coordinate and keeps its colour |
| `CubeGame.Game.SetUpColour` | SFMLOpenGL/Game.cpp:356-369 | vertex i's red, green and blue come from colour old(index) + i / 6; alpha and coordinate are unchanged; the counter ends at old(index) + 5 |
| `CubeGame.Game.FillTriangles` | SFMLOpenGL/Game.cpp:97-101 | element i of the index buffer is i, for all 36 slots |
| `CubeGame.Game.Initialize` | SFMLOpenGL/Game.cpp:57-101 | with the counter at zero: initial corners, each vertex at its indexed initial corner, coloured from colour i / 6 with alpha untouched, element buffer 0..35, counter 5 |
| `CubeGame.Game.TransformVertices` | SFMLOpenGL/Game.cpp:404-410 | each of the 8 corners becomes apply(old corner, matrix), with one matrix for all |
| `CubeGame.Game.TestKey` | SFMLOpenGL/Game.cpp:224-229 | a held key sets the dirty flag and replaces the matrix by its operation on the current matrix; an unheld key changes nothing |
| `CubeGame.Game.PollKeys` | SFMLOpenGL/Game.cpp:224-281 | after the ten key tests the matrix is the ordered accumulation of the held keys' operations; the dirty flag is set exactly when it was set or some key is held |
| `CubeGame.Game.Update` | SFMLOpenGL/Game.cpp:198-288 | the new state is `Tick` of the old one. With the flag set or a key held, every corner is transformed once by the new matrix; otherwise the corners are unchanged. The flag ends clear, the flip toggles exactly when a second elapsed, and the vertex coordinates follow the current corners with colours kept |

## Left out

- OpenGL work is left out as foreign graphics-API calls with no visible semantics: `glewInit` (`Game.cpp:63`), buffer generation and upload, shader source, compilation, linking and attribute lookup (`Game.cpp:103-195`), `render` (`Game.cpp:309-343`) and `unload` (`Game.cpp:345-352`).
- The SFML run loop, event polling, window handling and `isRunning` (`Game.cpp:11-35`, and its assignment at `Game.cpp:59`) are left out as windowing I/O. Held keys and the elapsed second are inputs to `Update` instead.
- The clock restart (`Game.cpp:204`) is left out: the clock is modelled only as "a second has elapsed".
- The float `rotationAngle` increment and its wrap at 360 (`Game.cpp:214-222`) are left out: they are floating-point state that nothing reads.
- The internals of `MyVector3` and of the matrix class are uninterpreted: they are not part of this model, and they are floating point.
- Scalars are `real`. Single- and double-precision rounding, including any narrowing from `m_vertexArray` into the `float` coordinates, is not modelled.
- The overwrite of the global `index` by `glGenBuffers` (`Game.cpp:113`) is a foreign call and is left out. `SetUpColour` runs before it.
- The global `index` is a `GLuint`. It is modelled as `nat`: every value it takes in the modelled code (0..5, during `setUpColour`) is an in-bounds colour-table position, so it cannot reach 2^32.
- The initial values of `m_changed`, `m_Matrix`, `m_transformableVertex` and `m_vertexArray`, and the contents of `vertex_index` and `m_colourArray`, come from `Game.h`, which is not part of this model. The constructor takes the tables and the starting matrix as arguments. It clears `changed` and zeroes the corners and scalars; `ArraySetup` and `UpdateVertices` overwrite those anyway.
- `CubeGame.Game.TestKey`: the ten if-blocks of `update` share one shape, so one method performs one key test, and `KeyMatrix` maps each key to the call and constant its block uses.
- Debug messages (`DEBUG_MSG`) are logging I/O and are left out.
