# Clifford torus projection engine, modelled in Dafny

This project models the animation engine of a small web visualisation of a
Clifford torus (`hooks/useTorusAnimation.ts`). The engine keeps points on the
torus x² + y² = z² + w² = 1/2 in 4-space. Every frame it does the following:

- turns the points in the six coordinate planes by angles that grow with time;
- projects them stereographically to 3-space;
- turns them by a view rotation that the user steers by dragging;
- maps them to the screen with a perspective divide;
- sorts them back to front and gives each a radius and an opacity that grow with depth.

The model works over Dafny's `real`, so floating-point rounding is idealised away.
`Math.cos`, `Math.sin`, `Math.sqrt` and `Math.PI` are fields of a `MathLib` value.
`MathLib.Valid()` states what the engine relies on:

- cos² + sin² = 1;
- cos 0 = 1 and sin 0 = 0;
- sqrt(v)² = v for v ≥ 0;
- π > 0.

Every property below holds for any such functions.

Files, one module each:

- `js_math.dfy` (`JsMath`): `Math.abs/min/max` and the `MathLib` value.
- `types.dfy` (`Types`): the tuples and records of `types.ts` and of the hook.
- `geometry.dfy` (`Geometry`): `rotate4D`, `stereographicProjection` (with its inverse as a partner) and `rotate3D`.
- `generator.dfy` (`Generator`): `generatePoints`, with the random angles as inputs.
- `interaction.dfy` (`Interaction`): the drag behaviour as a state machine over start/drag/end events.
- `pipeline.dfy` (`Pipeline`): the body of the frame callback. This covers the angles, the per-point mapping, the screen formula, the in-place depth sort (an array insertion sort), and the radius and opacity.
- `animation.dfy` (`Animation`): the class `TorusAnimation` holding the hook's mutable state. That state is `isDragging`, `rotation.current` and `pointsRef.current`. The class also holds the drag handlers, the generator call and the frame callback as methods.

Two points where the code is not what one might expect:

- The timer passes milliseconds and the code scales them by 0.001 (hooks/useTorusAnimation.ts:126), so the rotation speeds are in radians per second. The model does the same.
- One might expect the 4D rotations to keep the points on the torus. In the code an XZ rotation mixes the two circles, so only x² + y² + z² + w² = 1 is kept. The model therefore proves that rotated points stay on the unit 3-sphere (`Geometry.Rotate4DKeepsNorm`, `Pipeline.RotatedTorusPointOnSphere`). It proves the torus constraint only for the generated points.

## Model

| member | source | states |
|---|---|---|
| `JsMath.Abs` | hooks/useTorusAnimation.ts:50 | Math.abs is non-negative and is v or -v |
| `JsMath.Min` | hooks/useTorusAnimation.ts:143 | Math.min is a lower bound of both arguments and equals one of them |
| `JsMath.Max` | hooks/useTorusAnimation.ts:161 | Math.max is an upper bound of both arguments and equals one of them |
| `Geometry.RotationKeepsLength` | hooks/useTorusAnimation.ts:14-16 | one 2D rotation step keeps u² + v² when cos² + sin² = 1 |
| `Geometry.RotatePlane` | hooks/useTorusAnimation.ts:13-41 | a plane step changes only its own coordinate pair |
| `Geometry.RotatePlaneKeepsNorm` | hooks/useTorusAnimation.ts:13-41 | each plane step keeps x² + y² + z² + w² |
| `Geometry.Rotate4D` | hooks/useTorusAnimation.ts:9-44 | rotate4D is the composition of the plane steps XY, XZ, XW, YZ, YW, ZW in that order; each step reads the coordinates left by the step before |
| `Geometry.Rotate4DKeepsNorm` | hooks/useTorusAnimation.ts:9-44 | rotate4D keeps x² + y² + z² + w² for every angle vector |
| `Geometry.Rotate4DAtZeroIsIdentity` | hooks/useTorusAnimation.ts:9-44 | with all six angles 0, rotate4D returns its input |
| `Geometry.Stereographic` | hooks/useTorusAnimation.ts:47-52 | near the pole (abs(1 - w) < 1e-6) the result is exactly (0,0,0); otherwise each result coordinate times 1-w is the input coordinate |
| `Geometry.StereographicFixesEquator` | hooks/useTorusAnimation.ts:47-52 | a point with w = 0 projects to (x, y, z) |
| `Geometry.StereographicRoundTrip` | hooks/useTorusAnimation.ts:47-52 | off the pole, lifting the projection of a unit-sphere point gives the point back |
| `Geometry.InverseStereographicOnSphere` | hooks/useTorusAnimation.ts:47-52 | the partner inverse maps every point of 3-space onto the unit 3-sphere |
| `Geometry.StereographicOfInverse` | hooks/useTorusAnimation.ts:47-52 | projecting a lifted point gives it back unless the guard catches it |
| `Geometry.Yaw` | hooks/useTorusAnimation.ts:58-61 | the yaw step changes only x and z |
| `Geometry.Pitch` | hooks/useTorusAnimation.ts:63-66 | the pitch step changes only y and z |
| `Geometry.Rotate3D` | hooks/useTorusAnimation.ts:55-69 | rotate3D is the yaw by angles.y followed by the pitch by angles.x, the pitch reading the z left by the yaw |
| `Geometry.YawKeepsNorm` | hooks/useTorusAnimation.ts:58-61 | the yaw step keeps x² + y² + z² |
| `Geometry.PitchKeepsNorm` | hooks/useTorusAnimation.ts:63-66 | the pitch step keeps x² + y² + z² |
| `Geometry.Rotate3DKeepsNorm` | hooks/useTorusAnimation.ts:55-69 | rotate3D keeps x² + y² + z² |
| `Geometry.Rotate3DAtZeroIsIdentity` | hooks/useTorusAnimation.ts:55-69 | with pitch and yaw 0, rotate3D returns its input |
| `Geometry.Rotate3DFixesOrigin` | hooks/useTorusAnimation.ts:55-69 | rotate3D maps the origin to itself for every view angle |
| `JsMath.MathLib.Sqrt1_2` | hooks/useTorusAnimation.ts:6 | SQRT1_2 is positive and its square is 0.5 |
| `Generator.ScaledUnitPair` | hooks/useTorusAnimation.ts:84-89 | SQRT1_2 times a point of the unit circle lies on the circle of squared radius 0.5 |
| `Generator.TorusPointAt` | hooks/useTorusAnimation.ts:84-90 | the point built from θ and φ has id i, lies on the torus x² + y² = z² + w² = 0.5, and has the colour of the scale at φ/2π |
| `Generator.GeneratePoints` | hooks/useTorusAnimation.ts:79-91 | exactly count points, ids 0..count-1 in order, each on the torus, colour of point i is the scale at φᵢ/2π |
| `Generator.TorusOnUnitSphere` | hooks/useTorusAnimation.ts:84-89 | a torus point lies on the unit 3-sphere |
| `Interaction.ClampPitch` | hooks/useTorusAnimation.ts:119 | the clamped pitch is in [-π/2, π/2], unchanged when already in range, ±π/2 when beyond |
| `Interaction.Handle` | hooks/useTorusAnimation.ts:114-121 | 'start' sets dragging, 'end' clears it, a drag adds dx·0.005 to the yaw and leaves the pitch in range |
| `Interaction.InitialState` | hooks/useTorusAnimation.ts:75-76 | the drag starts not dragging, with pitch and yaw π/4, and the pitch is in [-π/2, π/2] |
| `Interaction.ReplayKeepsPitchInRange` | hooks/useTorusAnimation.ts:116-120 | after any sequence of events the pitch is in [-π/2, π/2] |
| `Interaction.ReplayYaw` | hooks/useTorusAnimation.ts:117 | after any sequence the yaw has moved by exactly 0.005 times the summed dx, never wrapped |
| `Interaction.ReplayUpwardPitch` | hooks/useTorusAnimation.ts:118-119 | for upward-only drags the pitch is min(π/2, pitch - 0.005·Σdy) |
| `Interaction.PitchPinnedAtTop` | hooks/useTorusAnimation.ts:118-119 | a drag sequence that would push the pitch past π/2 leaves it exactly at π/2 |
| `Interaction.ReplayDownwardPitch` | hooks/useTorusAnimation.ts:118-119 | for downward-only drags the pitch is max(-π/2, pitch - 0.005·Σdy) |
| `Interaction.PitchPinnedAtBottom` | hooks/useTorusAnimation.ts:118-119 | a drag sequence that would push the pitch below -π/2 leaves it exactly at -π/2 |
| `Pipeline.FrameAngles` | hooks/useTorusAnimation.ts:126-135 | with the speeds in radians per second, a thousand times each plane angle is the elapsed milliseconds times that plane's speed |
| `Pipeline.FrameAnglesAccumulate` | hooks/useTorusAnimation.ts:126-135 | plane angles are linear in the elapsed time: they add up and are not wrapped |
| `Pipeline.FrameAnglesAtStart` | hooks/useTorusAnimation.ts:126-135 | at elapsed 0 the 4D rotation is the identity |
| `Pipeline.ViewPoint` | hooks/useTorusAnimation.ts:138-140 | a point whose 4D rotation lands near the pole is viewed at the origin; otherwise the view rotation keeps the distance of its stereographic image from the origin |
| `Pipeline.Scale` | hooks/useTorusAnimation.ts:143 | the scale is 0.4 of the smaller of width and height: bounded by 0.4 of each and equal to one of them |
| `Pipeline.Screen` | hooks/useTorusAnimation.ts:142-148 | the screen offset from the centre times (1.5 + z) is (x, -y) times 1.5·scale |
| `Pipeline.ScreenCentre` | hooks/useTorusAnimation.ts:142-148 | a point with x = y = 0 is drawn at the viewport centre |
| `Pipeline.ScreenOnHorizontalPlane` | hooks/useTorusAnimation.ts:142-148 | a point with y = 0 is drawn on the horizontal centre line, at width/2 + x·scale·1.5/(1.5 + z) |
| `Pipeline.Project` | hooks/useTorusAnimation.ts:137-152 | a projected point carries the stored id and colour, the view-space depth, and the screen position of its view point |
| `Pipeline.MapFrame` | hooks/useTorusAnimation.ts:137-152 | one entry per stored point, in the stored order, each the projection of that stored point |
| `Pipeline.MapFrameKeepsIds` | hooks/useTorusAnimation.ts:137-152 | the ids of the mapped frame are the stored ids in the stored order |
| `Pipeline.SortedIffAdjacent` | hooks/useTorusAnimation.ts:154 | depth order holds for all pairs exactly when it holds for neighbours |
| `Pipeline.AdjacentChain` | hooks/useTorusAnimation.ts:154 | neighbour-wise depth order gives order between any two positions |
| `Pipeline.SortByDepth` | hooks/useTorusAnimation.ts:154 | after the sort, depth never decreases and the array holds the same points |
| `Pipeline.SinkIntoPlace` | hooks/useTorusAnimation.ts:154 | one insertion pass extends the sorted prefix and keeps the multiset |
| `Pipeline.SwapDown` | hooks/useTorusAnimation.ts:154 | an exchange of neighbours keeps the multiset and touches nothing else |
| `Pipeline.Radius` | hooks/useTorusAnimation.ts:161 | the radius is (z + 1.5)·0.8 when that is ≥ 0.1 and exactly 0.1 otherwise, so never below either |
| `Pipeline.Opacity` | hooks/useTorusAnimation.ts:163 | the opacity is (z + 1.5)·0.5 when that is ≥ 0.1 and exactly 0.1 otherwise, so never below either |
| `Pipeline.DepthCuesMonotone` | hooks/useTorusAnimation.ts:161-163 | nearer points get no smaller radius and no lower opacity |
| `Pipeline.Draw` | hooks/useTorusAnimation.ts:156-163 | a circle is keyed by the point's id, sits at the point's screen x and y, has its colour, and has the radius and opacity of its depth (both ≥ 0.1) |
| `Pipeline.Circles` | hooks/useTorusAnimation.ts:156-163 | one circle per frame entry, in drawing order, each drawn from that entry |
| `Pipeline.PaintersOrderGrowsCircles` | hooks/useTorusAnimation.ts:154-163 | in painter's order radii and opacities never decrease |
| `Pipeline.RotatedTorusPointOnSphere` | hooks/useTorusAnimation.ts:137-139 | a generated point stays on the unit 3-sphere under rotate4D; off the pole its projection determines it |
| `Pipeline.AtRestEndToEnd` | hooks/useTorusAnimation.ts:125-152 | zero speeds, zero view angles, θ = φ = 0: (SQRT1_2, 0, SQRT1_2, 0) maps to (SQRT1_2, 0, SQRT1_2) and to the screen point of the formula |
| `Pipeline.SamePointsSameIds` | hooks/useTorusAnimation.ts:154-157 | two frames with the same points have the same multiset of ids |
| `Animation.TorusAnimation.constructor` | hooks/useTorusAnimation.ts:75-77 | not dragging, pitch and yaw π/4, no points; the invariant holds |
| `Animation.TorusAnimation.GeneratePoints` | hooks/useTorusAnimation.ts:79-93 | the stored set is replaced wholesale by count points with ids 0..count-1; all lie on the torus |
| `Animation.TorusAnimation.DragStart` | hooks/useTorusAnimation.ts:115 | the state becomes Handle(old state, Start) |
| `Animation.TorusAnimation.OnDrag` | hooks/useTorusAnimation.ts:116-120 | the state becomes Handle(old state, Drag(dx, dy)) and the pitch invariant is kept |
| `Animation.TorusAnimation.DragEnd` | hooks/useTorusAnimation.ts:121 | the state becomes Handle(old state, End) |
| `Animation.TorusAnimation.RenderFrame` | hooks/useTorusAnimation.ts:125-163 | the frame is a permutation of the mapped points in painter's order, its ids are a permutation of the stored ids, one circle per point |

## Left out

- The d3 selection, data join and attribute binding (hooks/useTorusAnimation.ts:156-163) belong to a foreign DOM library. The model keeps only the attribute values, as `Circle` records keyed by id.
- `d3.timer` scheduling, the `ResizeObserver` (hooks/useTorusAnimation.ts:107-112) and the effect cleanup (hooks/useTorusAnimation.ts:166-170) are lifecycle plumbing. The elapsed time and the surface's width and height are inputs of `RenderFrame`.
- `Math.random` (hooks/useTorusAnimation.ts:82-83) is replaced by per-point angle inputs `thetas` and `phis`.
- `d3.interpolateViridis` (hooks/useTorusAnimation.ts:80, 90) is an arbitrary function `colorScale` from reals to colour strings.
- IEEE-754 rounding, NaN and Infinity are idealised away. This includes the sort comparator on NaN and concrete trigonometric values. Identities that hold only up to rounding in floating point are exact equalities over `real`.
- The perspective divide 1.5/(1.5 + z) (hooks/useTorusAnimation.ts:142) has no guard in the code. `Pipeline.Project`, `Pipeline.MapFrame` and `Animation.TorusAnimation.RenderFrame` require 1.5 + z ≠ 0 instead of modelling an Infinity.
- React plumbing is not modelled: `useState`, `useRef`, `useEffect`, the re-run of the effects when the parameters change, and the asynchronous nature of `setIsDragging`. `isDragging` is a plain field set at once.
- `components/Controls.tsx`, `App.tsx` and `components/TorusVisualization.tsx` are UI without logic worth verifying and are not part of this model.
- `ProjectedPoint` in types.ts:4-9 has no `id` field, but the hook sets one (hooks/useTorusAnimation.ts:146). The model's `ProjectedPoint` carries it.
- Generator.GeneratePoints: the count is a `nat`. `Array.from` would also accept a negative or fractional length, but the control panel only supplies whole positive counts.
- Interaction.Handle: a drag event is handled in any state. The d3 drag behaviour only fires it between 'start' and 'end', and the handler itself does not check the flag.
- Pipeline.SortByDepth: the insertion sort is stable, like `Array.prototype.sort`, but stability is not stated. Only painter's order and the permutation are proved.
- Geometry.Rotate4D: the order of the six plane steps is fixed by its contract. The model does not prove that another order gives a different motion, because that needs concrete trigonometric values.
