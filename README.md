# Solar-system renderer core, modelled in Dafny

This project models the exact parts of a small OpenGL solar-system viewer
(a sun and planets spinning and orbiting the origin). There are two pieces:

- **geometry.py** (module `Geometry`). It builds the sphere mesh, meaning
  the vertices plus the index buffer that is drawn as one triangle strip per
  stack. It also builds the orbit-ring polyline, maps pixel coordinates to
  normalised device coordinates (NDC), and holds the stepped turn rate with
  its dead band, applied to a normalised coordinate.
- **planet.py** (module `Bodies`). `Planet` is an object whose `update`
  advances its orbit and spin angles and moves it along its circular orbit
  every frame. Its model matrix is translation · rotation-about-y · scale.

Python floats are taken as exact reals. numpy's `pi`, `cos` and `sin`
cannot be computed here. They come in as a `Numerics.Trig` record of total
functions supplied by the caller, and any fact about them that a proof
needs (cos 0 = 1, sin 0 = 0) is a precondition of that lemma. The sphere
loops take the stack and sector counts as parameters, defaulting to
`STACKS = 20` and `SECTORS = 30`. A separate lemma covers those two values.

The form follows the source. The three mesh builders are methods with
loops that grow a sequence (nested loops for the sphere, one loop for the
ring), each proved against a closed-form description of its output. `get_ndc` and `calculate_turn_amout` are
functions. `Planet` is a class with field-level `modifies` on `Update`. The
state its `update` writes is also given as a value (`Motion`) with a pure
`Step`, so sequences of frames (`Run`) can be reasoned about in lemmas.

`Sun` and `TexturedPlanet` differ from `Planet` only in the uniforms they
upload. They become a `kind` argument of the one constructor (`BodyKind`).
A textured planet starts with no texture unit, and both subclasses use the
default colours.

planet.py has no parent: every body orbits the origin, and the model
follows the code.

## Model

| member | source | states |
|---|---|---|
| `Geometry.SphereIndices` | geometry.py:26-36 | The nested loops produce exactly `IndexBuffer(stacks, sectors)`: 2·stacks·(sectors+1) entries. Entry k is k/2 for even k and k/2 + sectors + 1 for odd k. |
| `Geometry.IndexPairs` | geometry.py:29-34 | For every k < stacks·(sectors+1), pair k is (k, k + sectors + 1): a vertex and the one directly above it. |
| `Geometry.StripLayout` | glwidget.py:126-131 | The draw loop's `stacks` strips of 2·(sectors+1) indices, at offsets i·per, cover the buffer exactly, with the last strip ending at its end. Strip i alternates between row i and row i+1 of the vertex grid. |
| `Geometry.IndicesInRange` | geometry.py:29-34 | Every index is below (stacks+1)·(sectors+1), the vertex count of the sphere mesh. |
| `Geometry.EveryVertexReferenced` | geometry.py:29-34 | With at least one stack, every vertex number below (stacks+1)·(sectors+1) occurs somewhere in the index buffer. |
| `Geometry.SphereIndexConstants` | geometry.py:5-36 | With 20 stacks and 30 sectors the buffer holds 1240 indices. All are below 651, so they fit in uint32. |
| `Geometry.SphereVertices` | geometry.py:8-24 | The output has 3·(stacks+1)·(sectors+1) floats. Vertex i·(sectors+1)+j is (cos φ·cos θ, sin φ, cos φ·sin θ) for the caller's trig, with latitude φ = πi/stacks − π/2 and longitude θ = 2πj/sectors. |
| `Geometry.OrbitRingVertices` | geometry.py:104-111 | The output has 3·(segments+1) floats, or none for negative `segments`. Point i lies at angle 2πi/segments on the circle of the given radius, and every y-component (flat position ≡ 1 mod 3) is 0. |
| `Geometry.Ndc` | geometry.py:114-116 | For any nonzero size, mapping the result back to pixels with (r+1)·size/2 gives back x. |
| `Geometry.NdcLandmarks` | geometry.py:114-116 | Pixel 0 maps to −1, size/2 maps to 0 and size maps to 1. |
| `Geometry.NdcTestValues` | unitTests.py:60-65 | get_ndc(100, 100) = 1 and get_ndc(50, 100) = 0. |
| `Geometry.NdcStrictlyIncreasing` | geometry.py:114-116 | For a positive size, get_ndc is strictly increasing in x. |
| `Geometry.NdcRange` | geometry.py:114-116 | For a positive size, x lies in [0, size] if and only if get_ndc(x, size) lies in [−1, 1]. |
| `Geometry.TurnAmount` | geometry.py:136-156 | The result is one of ±0.3, ±0.2, ±0.1 or 0. An unset coordinate gives 0. The result is positive exactly when c > 0.10 and negative exactly when c < −0.10. |
| `Geometry.TurnAmountBands` | geometry.py:143-154 | Each band as an if-and-only-if, with strict thresholds: [−0.10, 0.10] gives 0, (0.10, 0.40] gives 0.1, (0.40, 0.70] gives 0.2 and above 0.70 gives 0.3. The negative side mirrors this. |
| `Geometry.TurnAmountOdd` | geometry.py:143-154 | turn(−c) = −turn(c). |
| `Geometry.TurnAmountMonotone` | geometry.py:143-154 | a ≤ b implies turn(a) ≤ turn(b). |
| `Bodies.Planet.constructor` | planet.py:5-30 | Stores the parameters, with the Python defaults; a sun or textured planet takes the default colours. `vao` and `program` are unset, both angles and `time` are 0 and the position is (orbit_radius, 0, 0). |
| `Bodies.Planet.Update` | planet.py:32-41 | Each angle grows by its speed times delta_time. The position becomes (R·cos θ, 0, R·sin θ) for the new orbit angle θ, and `time` is set to delta_time. No other field is in the frame. The new state equals `Step` of the old one. |
| `Bodies.Planet.ModelMatrix` | planet.py:43-66 | T·R·S equals the rows [r·c, 0, r·s, px], [0, r, 0, py], [−r·s, 0, r·c, pz], [0, 0, 0, 1], where c and s are the cosine and sine of the spin angle. It reads the object and changes nothing. |
| `Bodies.TranslateRotateScale` | planet.py:45-65 | translation(p) @ rotationY(c, s) @ scale(r) multiplied out gives the rows above. |
| `Bodies.ModelMatrixWithoutSpin` | planet.py:46-65 | With spin angle 0 (cos 0 = 1, sin 0 = 0), the model matrix is translation(position) @ scale(radius). |
| `Bodies.InitialOnOrbit` | planet.py:25-29 | The constructed position is the orbit point at angle 0. |
| `Bodies.StepOnOrbit` | planet.py:37-40 | After an update the position is the orbit point of the new orbit angle, and its y-component is 0. |
| `Bodies.StepsCompose` | planet.py:32-41 | Updating by dt1 and then dt2 gives the same angles and position as one update by dt1 + dt2. `time` holds dt2 in the first case and dt1 + dt2 in the second. |
| `Bodies.RunAccumulates` | planet.py:32-41 | After any sequence of updates, each angle has grown by its speed times the sum of the steps and the body is on its orbit. `time` holds the last step, not the total. |
| `Bodies.RunConcat` | planet.py:32-41 | Running one sequence of frames and then another is the same as running the two joined. |
| `Bodies.CentralBodyStaysAtOrigin` | planet.py:37-40 | A body with orbit radius 0, as the sun is built at glwidget.py:178, stays at the origin through any sequence of updates. |
| `Bodies.RunStaysInOrbitPlane` | planet.py:37-40 | A body that starts in the y = 0 plane stays there through any sequence of updates. |

## Left out

- `get_look_at_matrix`, `get_view_matrix`, `get_projection_matrix` and `calulate_forward_vector` are not modelled. They rest on vector norms (square roots), trigonometry of the camera angles and `tan`, and their promises (orthonormal bases, tested with float tolerances) are floating-point numerics rather than exact statements.
- `get_ray_vertices` is not modelled. It is debugging output that prints.
- geometry.py's `get_model_matrix` and `get_background_vertices` are not modelled. They return constant arrays.
- `update_uniforms` of `Planet`, `Sun` and `TexturedPlanet` is not modelled. It only makes OpenGL uniform calls.
- The numpy casts to float32 (vertices) and uint32 (indices) are not modelled. Vertices are exact reals; for the indices, `SphereIndexConstants` shows every entry fits in uint32.
- `Geometry.SphereVertices`, `Geometry.OrbitRingVertices`, `Bodies.Planet.Update` and `Bodies.Planet.ModelMatrix`: the actual values of cos and sin are not modelled. The coordinates are stated in terms of the caller's `Trig` functions.
- `Geometry.SphereVertices` requires positive stack and sector counts, and `Geometry.OrbitRingVertices` requires a nonzero segment count. The Python code divides by them; the constants 20 and 30 and the default of 100 segments meet this.
- `Geometry.Ndc` requires a nonzero size. It does not model the ZeroDivisionError that get_ndc raises for size 0.
- `Bodies.Planet.constructor` accepts no texture unit for a textured planet. As in the source, it is assigned later by the renderer, and the object's fields stay writable, as in Python.
- The OpenGL, Qt and file parts are I/O and are not modelled: glwidget.py (shader compilation, buffer upload, the timer and wall-clock frame time), utility.py (shader and texture loading) and main.py (the window). The draw loop in glwidget.py is used only as the layout that `Geometry.StripLayout` states.
