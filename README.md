# Portal: a verified model of the portal geometry kernel and the observer

This project models the core of `portal`, a Go program that renders a scene containing
portals: paired planar windows through which one part of a 3D world is seen from, and walked
into from, another part. It has three parts.

- **The portal geometry kernel** (`portal.go`) includes:
  - the planar quad and its mesh;
  - the element tables;
  - `Quad.Apply`;
  - the cross product helpers;
  - the rotation taking one normal onto another;
  - `PortalTransform`, which builds each quad's canonical frame and the two transforms between them.
- **The observer** (`app/main.go`) covers:
  - one `Simulate` tick: impulse, movement, first-match portal crossing, integration, the ground and gravity policy, and the camera;
  - the idle and render-needed tests;
  - the key and pointer handlers;
  - the portal half of `LoadScene`: name parsing, the scale loop, the link tables and the pairing of linked portals.
- **The portal renderer** (`app/main.go`): `DrawPortalScene` and `StepDown`. They are modelled as a trace of draw calls over an abstract GL state: stencil test and reference level, colour writes, stencil operation, depth test, function and writes, clip plane, face culling, glow and program in use.

Files:

- `wrappers.dfy` defines `Option` and `Result`.
- `linalg.dfy` (module `LinearAlgebra`) holds the mathgl vectors and matrices over reals. Matrices are column-major.
  - `MathLib` is a record of the library operations the model does not interpret: `acos`, `sqrt`, `Normalize`, `HomogRotate3Dd`, `Mat4d.Inv`, and the quaternion helpers.
  - `InvExact(lib, m)` is the hypothesis that `Inv` is exact on `m`.
- `portal.dfy` (module `Portal`) holds `portal.go`.
- `observer.dfy` (module `Observer`) models the player and the tick as functions.
- `input.dfy` (module `Input`) models the key handlers and `MouseCoord`.
- `scene.dfy` (module `SceneLoading`) models the portal part of `LoadScene`.
- `render.dfy` (module `Render`) holds the GL state and `GLContext`. `GLContext` is a class whose methods record every draw call with the state in force.
- `app.dfy` (module `App`) holds the `Receiver` class, whose fields the callbacks update in place. Its methods are proved against the functions of the other modules.

The model makes these choices:

- Go's `float64` is modelled as `real`.
- mathgl's `ApproxEqual` against zero is modelled as `NearZero`: every component lies strictly within `Epsilon = 1e-10`.
- Each panic of the Go code becomes the `Failure` of a `Result`:
  - "no orthogonal axis found" becomes `DegenerateNormal`;
  - an `Atoi` error becomes `BadIndex`.
- A zero scale component becomes `ZeroScale`; the Go code divides by it.
- A portal whose exit is missing appends a warning `(index, exit)` to `Receiver.warnings`, where the Go code prints a line.

Some details of the code that a reader might not expect, and that the model follows:

- **Mesh second array.** The second array of `Mesh` repeats the nose point six times, rather than carrying the quad's normal.
- **Mesh in-plane y edge.** The y edge is `cross(planeV, normal) * scale.y`, that is `planeV x normal`, not `normal x planeV`.
- **A portal's `portalview`.** It is the canonical transform of the portal's own quad, the third result `AZ` of `PortalTransform(quad, flipped exit)`, not a transform of the exit.
- **Debug glow.** The glowing debug outline of the portals is drawn after the scene is drawn in colour, at `stencilLevel + 1`, not with the portal marking.
- **Zero scale.** The code does not test for a zero scale; see `Portal.Canonical` under "Left out".

## Model

| member | source | states |
|---|---|---|
| LinearAlgebra.MulVMul | portal.go:48-55 | applying a matrix product to a vector is applying the right factor, then the left one (`Mul4x1` of `Mul4`) |
| LinearAlgebra.MulAssoc | portal.go:107-119 | `Mul4` is associative, so the chains `scale * rotXZ * rotZ * translate` and `ZB * AZ` may be regrouped |
| Portal.Cross3D | portal.go:63-67 | the cross product of the xyz parts is orthogonal to both inputs' xyz parts |
| Portal.Cross3Dv | portal.go:69-72 | the cross product as a direction: `w = 0` and its xyz is orthogonal to both inputs |
| Portal.CrossAntiCommutative | portal.go:63-72 | `Cross3D(a, b) = -Cross3D(b, a)`, and `Cross3Dv` likewise |
| Portal.CrossSelf | portal.go:63-72 | `Cross3D(a, a)` and `Cross3Dv(a, a)` are zero |
| Portal.Flatten | portal.go:26-40 | a list of six points becomes 18 reals, and vertex `k` of the flat array is point `k` |
| Portal.Mesh | portal.go:17-41 | both arrays have exactly 18 reals, six xyz triples each |
| Portal.MeshLayout | portal.go:18-39 | vertices 0-3 are the corners `c -/+ px -/+ py`, vertex 4 is the centre, vertex 5 is `center + normal * (scale.z * 0.2)`, and all six triples of the second array are that nose point, not the normal |
| Portal.MeshCorners | portal.go:18-24 | `a + d = b + c = 2 * center`; `b - a = 2 * scale.x * planeV`; `c - a = 2 * scale.y * cross(planeV, normal)` |
| Portal.QuadElements | portal.go:43-46 | every index of both lists names one of the six mesh vertices; the strip has four indices and the line list has even length |
| Portal.Apply | portal.go:48-55 | centre and scale are unchanged (normal and plane vector go through `t`) |
| Portal.ApplyIdentity | portal.go:48-55 | applying the identity returns an equal quad |
| Portal.ApplyCompose | portal.go:48-55 | applying `s` and then `t` is applying `t * s` |
| Portal.FindAxis | portal.go:85-92 | the search returns the first unit axis from `e` whose cross with `n1` is not near zero, and returns nothing exactly when every remaining axis gives a near-zero cross |
| Portal.FindAxisFails | portal.go:85-93 | the axis search fails exactly when `n1`'s xyz is near zero |
| Portal.RotationBetweenNormals | portal.go:78-96 | three cases, each result stated: not parallel gives the rotation by `acos(dot)` about the normalized cross; parallel with `dot >= 0` gives the identity; antiparallel gives a half turn about the cross with the first usable unit axis; it fails, with `DegenerateNormal(n1)`, exactly when it is antiparallel and `n1`'s xyz is near zero |
| Portal.CenterToOrigin | portal.go:101 | `translateAZ` maps the quad's centre (a point) to the origin |
| Portal.Canonical | portal.go:101-107 | the canonical frame fails exactly when one of its two rotations fails or a scale component is zero |
| Portal.PortalTransform | portal.go:97-121 | it succeeds exactly when both canonical frames exist, and then returns them as `AZ` and `BZ` |
| Portal.RotationFixesOrigin | portal.go:78-96 | if every library rotation fixes the origin, so does every rotation `RotationBetweenNormals` returns, the identity included |
| Portal.CanonicalCentre | portal.go:101-107 | the canonical frame maps the quad's centre to the origin |
| Portal.PortalTransformFrames | portal.go:107-119 | with exact inverses, `BZ * AB = AZ` and `AZ * BA = BZ` |
| Portal.PortalTransformRoundTrip | portal.go:107-120 | with exact inverses, `AB * BA = I` and `BA * AB = I` |
| Portal.PortalTransformSelf | portal.go:97-121 | a quad against itself gives `AB = BA = I` |
| Observer.TransformPlayer | app/main.go:110-119 | `Player.Transform` leaves the pan and tilt axes unchanged (position and velocity go through `m`, orientations are pre-multiplied) |
| Observer.TransformPlayerRoundTrip | app/main.go:110-113 | transforming by `m` and then by its inverse restores position and velocity |
| Observer.Panned | app/main.go:624-631 | `PanView` changes only the two orientations: position, velocity and both axes are unchanged |
| Observer.PannedStill | app/main.go:624-631 | a zero pointer delta leaves the player unchanged, given the quaternion identity laws |
| Observer.CrossingTimeBounds | app/main.go:565-566 | for a position behind the plane moving forward, `t = -pos.z / v.z` is positive, `t <= 1` exactly when the displacement reaches the plane, and `pos.z + v.z * t = 0` |
| Observer.CrossingPoint | app/main.go:565-570 | a crossing happens at a time in `(0, 1]` and its hit point has `z = 0` exactly |
| Observer.CrossingSegment | app/main.go:565-570 | the crossing test holds exactly when a division-free segment test holds: behind, moving forward, reaching the plane, inside the unit square |
| Observer.FirstCrossing | app/main.go:560-579 | the search finds the first portal in list order that the displacement crosses, and finds none exactly when no portal is crossed |
| Observer.TickInputs | app/main.go:544-556 | the impulse is reset to zero exactly when it is not near zero; the movement input is never changed |
| Observer.TickPortal | app/main.go:560-579 | at most one portal applies, the first crossed in list order; the inception matrix is right-multiplied by its transform and is otherwise unchanged |
| Observer.SettleGround | app/main.go:581-592 | at or below the ground the vertical velocity is 0; a player that started the integration at or above the ground is put exactly on it; above the ground the vertical velocity grows by `gravity * deltaT`; the other components integrate `dp` |
| Observer.TickGround | app/main.go:581-592 | on the player a tick stores: on or below the ground its vertical velocity is zero; if it was at or above the ground after the portal step it lands exactly on the ground; above the ground its vertical velocity is the post-portal one plus gravity times the tick length |
| Observer.TickMovementNotStored | app/main.go:544-579 | for every tick, the stored x, z and w velocity is the kicked velocity, mapped by the inverse transform of the first portal crossed when there is one: the held movement never enters it; a near-zero impulse leaves the velocity unchanged |
| Observer.TickVelocityIgnoresMovement | app/main.go:551-579 | two ticks that differ only in the held movement and cross the same portal (or none) store the same x, z and w velocity |
| Observer.CrossingExampleHit | app/main.go:565-570 | from one unit behind the plane, a displacement of two crosses, at `t = 1/2` |
| Observer.CrossingExampleShort | app/main.go:565-570 | a displacement of one half undershoots the plane and does not cross |
| Observer.CrossingExampleOutside | app/main.go:565-570 | meeting the plane at `x = 1.5` misses the unit square and does not cross |
| Input.Bump | app/main.go:645-695 | `v[i]++` / `v[i]--` changes component `i` by `d` and no other component |
| Input.HandleSteps | app/main.go:645-695 | every Move/Stop/Strafe handler changes exactly one movement component by plus or minus one and leaves the impulse alone; `Jump` does the same to the impulse and leaves the movement alone |
| Input.ReleaseRestores | app/main.go:645-691 | each press followed by its release restores the input state |
| Input.MouseCoord | app/main.go:525-528 | the pointer position divided by the window size, with y flipped: `x * width = xpos` and `(1 - y) * height = ypos` |
| Input.MouseCoordInUnitSquare | app/main.go:525-528 | a pointer inside the window lands in the unit square |
| SceneLoading.DigitRun | app/main.go:220 | the greedy `\d+` run is all digits and is followed by a non-digit or the end |
| SceneLoading.ParsePortalName | app/main.go:247-263 | a name without the `Portal_` prefix is not a portal, and every parsed index and exit lies within `Atoi`'s range |
| SceneLoading.ParseMatchesPattern | app/main.go:220-263 | a name is classified as a portal (in range or out of it) if and only if it is `Portal_`, a numeral, `_`, a numeral and a suffix not starting with a digit, which is what the anchored pattern `^Portal_(\d+)_(\d+)` with greedy digit runs matches |
| SceneLoading.ParseNumerals | app/main.go:220 | `Portal_` + numeral + `_` + numeral + a suffix that does not start with a digit yields the two values, unless one of them (the index checked first) is beyond `Atoi`'s range |
| SceneLoading.ParseRoundTrip | app/main.go:260-263 | naming a node `Portal_<i>_<j>...` makes it portal `i` with exit `j`, or fails on the first out-of-range numeral |
| SceneLoading.NotPortalNames | app/main.go:220 | a lower-case prefix, a missing second numeral, an empty first numeral and a trailing underscore are not portal names |
| SceneLoading.QuadOfTransformFrame | app/main.go:265-286 | the portal quad sits at the transform's translation, its normal and plane vector are its normalized third and first columns, and each extent is the length of a column's xyz |
| SceneLoading.ColumnScales | app/main.go:269-279 | the scale loop reads exactly the entries `4i + j` (`i, j < 3`) and returns the square roots of the column sums of squares |
| SceneLoading.CollectedBy | app/main.go:244-291 | the collected tables always have the same keys in the link map and the quad map |
| SceneLoading.CollectedKeys | app/main.go:287-288 | exactly the indices that some portal node is named with get an entry |
| SceneLoading.CollectedFails | app/main.go:260-263 | the load stops exactly when some node's name has a numeral beyond `Atoi`'s range |
| SceneLoading.CollectedLastWins | app/main.go:287-288 | among nodes named with the same index, the last one decides the exit and the quad |
| SceneLoading.CollectPortals | app/main.go:244-291 | the node loop computes `Collected` |
| SceneLoading.PrefixFailure | app/main.go:260-263 | once a prefix of the nodes fails, the whole load fails with the same error |
| SceneLoading.Linked | app/main.go:294-296 | the linked indices are collected portals whose exit is a collected portal |
| SceneLoading.Unlinked | app/main.go:294-306 | the unlinked indices and the linked ones split the collected portals |
| SceneLoading.LinkExamples | app/main.go:294-306 | a one-way link `0 -> 1` pairs nothing and warns about 0; a mutual link pairs both ends; a self-link pairs one portal |
| SceneLoading.FlippedExit | app/main.go:297-299 | the flipped exit keeps its centre and scale |
| SceneLoading.PairPortal | app/main.go:297-303 | pairing succeeds exactly when both canonical frames exist; the portal's event horizon is the quad and its portal view is the quad's canonical frame |
| SceneLoading.PairAll | app/main.go:294-303 | pairing a list of linked indices yields one portal per index |
| SceneLoading.PairAllAt | app/main.go:294-303 | pairing a list succeeds exactly when every index pairs, and the portal at each position is that index's pairing |
| SceneLoading.PairPortalLandsAtExit | app/main.go:297-303 | with exact inverses, the portal view composed with the portal transform is the flipped exit's canonical frame |
| App.LinkStepLinked | app/main.go:295-303 | visiting a linked index that pairs keeps the linking invariant and appends its portal |
| App.PairAllSnoc | app/main.go:294-303 | pairing one more linked index appends its portal |
| App.LinkStepUnlinked | app/main.go:304-306 | visiting an index whose exit is missing keeps the invariant and appends one warning |
| App.LinkInvariantDone | app/main.go:294-307 | once every index is visited, the invariant gives the whole outcome: one portal per linked index in visiting order, and one warning per unlinked index |
| App.Receiver.constructor | app/main.go:147-202 | the initial player stands one unit above the origin, at rest, with identity orientations; the picture starts invalid |
| App.Receiver.Simulate | app/main.go:540-598 | the new player, inputs, inception and camera matrices are one `Tick` of the old ones (see `TickInputs`, `TickPortal`, `SettleGround`, `TickMovementNotStored`); the projection is unchanged |
| App.Receiver.ApplyImpulse | app/main.go:544-549 | a pending impulse that is not near zero, turned by the heading, is added to the velocity once and cleared |
| App.Receiver.PassThroughPortals | app/main.go:560-579 | the loop tests the portals in order and, at the first crossing, transforms the player and `dp` by the inverse transform and right-multiplies the inception matrix (`Traverse`); nothing else changes |
| App.Receiver.Integrate | app/main.go:581-592 | integration and the ground policy give `Settle` (see `SettleGround`) |
| App.Receiver.IsIdle | app/main.go:603-618 | idle exactly when impulse, movement and velocity are all near zero |
| App.Receiver.NeedsRender | app/main.go:636-638 | a render is needed exactly when the player is not idle or the picture is invalid |
| App.Receiver.ToggleDebug | app/main.go:640-643 | the debug flag flips (so toggling twice restores it) and the picture is invalid |
| App.Receiver.OnKey | app/main.go:645-695 | a key handler updates the input state as `Handle` says (see `HandleSteps`, `ReleaseRestores`) |
| App.Receiver.PanView | app/main.go:624-634 | the view turns by the pointer delta (`Panned`) and the picture is invalid |
| App.Receiver.MouseMove | app/main.go:511-523 | the normalized position is always stored; when a pointer action is bound, the first sample passes a zero delta and later ones the difference from the last position |
| App.Receiver.LoadScene | app/main.go:244-307 | an out-of-range numeral stops the load before anything is appended; otherwise the load stops if and only if some linked portal fails to pair, with that pairing's fault as `BadGeometry`, and when it does not stop the portals and warnings appended are exactly those `Linking` describes |
| App.Receiver.LinkPortals | app/main.go:294-307 | a fault is reported if and only if some linked index fails to pair, and it is that pairing's fault; without a fault, visiting the collected indices in any order appends one portal per linked index (in visiting order) and one warning per unlinked index |
| App.Receiver.LinkOne | app/main.go:295-306 | a linked index appends its paired portal exactly when pairing succeeds, or else reports the pairing's own fault; an unlinked index appends one warning `(index, exit)` and nothing else |
| App.Receiver.Draw | app/main.go:362-387 | the frame is drawn at depth 1: every draw is stencil-masked at level 0 or 1 and well drawn as for `DrawPortalScene`; the trace is level 0's own draws (`LevelDraws` from the state with depth testing on, the scene program and no glow) followed by one portal pass per portal in list order, so the scene is painted unclipped at level 0 even without portals; the scene is drawn exactly `|portals|` times at stencil level 1; the state is restored and the picture is valid |
| App.Receiver.DrawPortalScene | app/main.go:389-461 | from depth `d` at level `l`: every draw is masked at a level in `l .. l + d`; the coloured scene is clipped if and only if its level is above 0, the glowing outline if and only if it is drawn above level 1, and nothing else is clipped; only portal quads raise the stencil and only the fill quad lowers it, without painting; the fill quad either clears depth or steps the stencil down with no depth test or write; only the debug outline glows; the fill program is used exactly for the fill quad; at depth 0 the trace is one draw, and above it is `l`'s own draws followed by one portal pass per portal in list order (`LevelThenPasses`); the trace holds exactly `|portals|^d` scene draws at stencil level `l + d`; stencil, clip, culling and glow are off on return |
| App.Receiver.DrawRecursive | app/main.go:400-461 | the `depth > 0` case: the level's own draws, then one portal pass per portal in list order, all within `l .. l + d`; exactly `|portals|^d` scene draws at level `l + d`; the state restored |
| App.Receiver.DrawLeaf | app/main.go:391-399 | the single leaf draw is the scene, in colour and writing depth, masked at the level and clipped exactly when the level is above 0; the stencil test and clipping are off afterwards |
| App.Receiver.DrawThroughPortal | app/main.go:434-458 | one portal pass: portal `i`'s quad raises the stencil at `l`, the fill quad at `l + 1` follows, and the pass ends with the fill quad decrementing at `l + 1` (`PortalPass`); every draw is well drawn within `l .. l + 1 + d`; the pass holds exactly `|portals|^d` scene draws at level `l + 1 + d`; the context is ready at level `l` again |
| App.Receiver.ReturnToLevel | app/main.go:429-431 | exactly one draw, the fill quad decrementing the stencil at `l + 1` from the state in force (`StepDownDraw`), after which the context is ready to draw at level `l` |
| App.Receiver.DrawLevel | app/main.go:400-431 | the first half of a level draws exactly `LevelDraws` from the state it starts in (marking, colour pass, step-down; see `LevelDrawsShape`), within levels `l .. l + 1`, and leaves the context ready for the portal loop at level `l` |
| App.Receiver.MarkPortals | app/main.go:400-411 | the trace gains exactly the depth-only scene draw at `l`, the portal model raising the stencil at `l` with culling and `DepthLE`, and in debug mode its outline (`MarkingDraws`); colour and depth writes are back on, culling off and the stencil operation is `Keep` afterwards |
| App.Receiver.DrawScene | app/main.go:413-425 | the trace gains exactly the coloured scene at `l`, clipped if and only if `l > 0`, and in debug mode the glowing outline at `l + 1` (`ColourDraws`); glow and clipping are off afterwards and only the reference level may have moved to `l + 1` |
| App.Receiver.RaisePortal | app/main.go:435-449 | exactly two draws: portal `i`'s quad incrementing the stencil at `l` with culling and no colour, then the fill quad with the fill program, `DepthAlways` and no colour at `l + 1`; both well drawn, and the context is ready again at level `l` |
| App.Receiver.EnterLevel | app/main.go:448-449 | the scene program, a fresh stencil pass (colour and depth writes on, stencil kept), stencil and depth tests on, `DepthLE`, and the mask at the given level; nothing is drawn |
| App.Receiver.StepDown | app/main.go:463-469 | one fill-quad draw decrements the stencil at `level` without colour, depth test or depth writes; the stencil test is off afterwards and depth writes stay off until the next stencil pass |
| Render.GLContext.Enable | app/main.go:393 | `gl.Enable` (and `Stencil.Depth()`) switches the capability on and changes nothing else |
| Render.GLContext.StencilEnable | app/main.go:395 | `Stencil.Enable()` turns the stencil test on and starts a fresh pass: colour and depth writes on, stencil kept; nothing else changes |
| Render.GLContext.DepthWrite | app/main.go:466 | `NoDepthMask` switches depth writes and changes nothing else |
| Render.GLContext.Disable | app/main.go:398 | `gl.Disable` switches the capability off and changes nothing else |
| Render.GLContext.Mask | app/main.go:395 | the stencil reference level is set and nothing else changes |
| Render.GLContext.ColorWrite | app/main.go:400 | colour writes are switched and nothing else changes |
| Render.GLContext.StencilOperation | app/main.go:402 | the stencil operation is set and nothing else changes |
| Render.GLContext.DepthFunction | app/main.go:402 | the depth function is set and nothing else changes |
| Render.GLContext.SetGlow | app/main.go:419 | the glow uniform is set and nothing else changes |
| Render.GLContext.UseProgram | app/main.go:430 | the program is set and nothing else changes |
| Render.GLContext.DrawElements | app/main.go:438 | one draw call is appended with the state in force; the state is unchanged |
| App.LevelDrawsShape | app/main.go:400-431 | a level's own draws start with the depth-only scene at `l` and the portal model incrementing at `l`, paint the scene in colour exactly once, at `l`, clipped if and only if `l > 0`, end with the fill quad decrementing at `l + 1`, hold no scene draw at another level, and are all well drawn within `l .. l + 1` |
| App.PassesExtend | app/main.go:433-459 | appending a portal pass for the next portal to a level and its earlier passes extends that structure by one pass |
| App.LevelStart | app/main.go:400-431 | a level's own draws start the structure with no pass, keep within the levels of any recursion at least one deep, and draw no scene at its innermost level |
| App.PassAssembled | app/main.go:434-458 | raising portal `i`, a recursion within `l + 1 .. l + 1 + d` and one step-down draw together make a portal pass within `l .. l + 1 + d` whose innermost scene draws are exactly the recursion's |
| App.LoopStep | app/main.go:433-459 | one turn of the portal loop adds pass `n` and `per` more innermost scene draws to `n * per` |
| Render.SceneDrawsAtAppend | app/main.go:389-461 | scene draws at a level are counted additively over concatenated traces |
| Render.SceneDrawsAtNone | app/main.go:389-461 | a trace with no scene draw at a level counts zero there |
| Render.WellDrawnWiden | app/main.go:389-461 | a draw well drawn in a range of stencil levels is well drawn in any wider range |
| Render.DrawnSinceTrans | app/main.go:434-458 | two stretches of well-drawn calls make one well-drawn stretch over the union of their level ranges |

## Left out

- OpenGL, glfw and shader plumbing are not modelled: buffers, uniforms other than `glow`, `Reshape`, `Init`'s GL setup, textures, and the clear colour. The matrix `mv` that `DrawPortalScene` uploads as the world view is passed on but not recorded in the trace.
- `DrawModel` and `DrawGeometry` each become one recorded draw call on an abstract target. How many meshes a model holds is not modelled.
- go-glutil's stencil builder is not part of this model. Each of its calls (`Mask`, `NoDraw`, `Draw`, `Increment`, `Keep`, `DepthLE`, `DepthAlways`, `Depth`, `NoDepth`, `NoDepthMask`, `Disable`) is modelled as setting one GL switch, except `Enable()`, which is modelled as starting a fresh stencil pass: the stencil test on, colour and depth writes on, and the stencil kept. The renderer relies on that reset: `StepDown` turns depth and colour writes off and nothing else turns them back on before the scene is drawn through a portal. The stencil comparison function and masks other than the reference level are not modelled.
- The COLLADA document, the up-axis switch and the `geometryTemplates` pass of `LoadScene` are not modelled. The visual scene is a list of named nodes with world transforms, and the up-axis correction `model` is a parameter. Ordinary (non-portal) nodes do not reach the scene model here.
- Go map iteration order in the linking loop is not fixed. `LinkPortals` visits the indices in an arbitrary order, chosen with `:|`. Its contract holds for every order, and it records the order it took in ghost out-parameters.
- `LoadConfiguration`, `ResetKeyBindingDefaults`, the key-binding tables, `Quit`, `MouseClick`, `KeyPress` and `Scroll` are not modelled. Their I/O and foreign libraries are outside the model. `OnKey` stands for whichever handler a binding calls, and `MouseMove` takes whether a pointer action is bound as a parameter.
- `CreatePortals` is not modelled: it is dead code, and its call is commented out.
- The transcendental and library operations are uninterpreted fields of `MathLib`: `acos`, `sqrt`, `Normalize`, `HomogRotate3Dd`, `Inv`, and the quaternion helpers `Rotate`, `QuatRotated`, `Mul`, `Conjugate().Mat4()`, `Quaternion(RotationComponent(m))` and `ToHomogVec4D`. As a consequence:
  - Angle units are not modelled.
  - No quaternion identity is assumed, except as the hypothesis of `Observer.PannedStill`.
  - No inverse law is assumed, except through `InvExact`.
- Floating-point rounding is not modelled: all arithmetic is on exact reals.
  - `ApproxEqual` is modelled as the fixed threshold `Epsilon`.
  - The "within floating-point tolerance" round trips are proved exactly, assuming an exact `Inv`.
- Portal.Canonical: where the Go code divides by a zero scale component (producing an infinity), the model reports `ZeroScale`. Real division by zero has no meaningful value.
- Input.MouseCoord requires a positive window size. A zero-sized window would divide by zero in the Go code too.
- `Atoi` is taken with its 64-bit range (`MaxInt = 2^63 - 1`). Numerals are digit runs only, so signs never occur.
- A failed link stops the load with `BadGeometry` and keeps the portals appended before it. For a degenerate normal the Go code panics there. For a zero scale component the Go code does not stop: it appends a portal whose matrices have infinite entries and keeps loading, while the model stops with `ZeroScale` (see `Portal.Canonical` above).
- `Simulate` records `simulationTime`, but elapsed time only feeds a shader uniform, which is not modelled.
- The collection loop is modelled as `CollectedBy`, which takes the name classifier as a parameter. Its laws hold for any classifier. `Collected`, which `LoadScene` uses, instantiates it with `ParsePortalName`.
