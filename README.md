# Boids in Dafny

A model of the flocking simulation of the `boids` repository: the boid
agent of `src/Boid.ts` and the two frame loops that drive a population of
boids, `src/objets/Scene.tsx` (the loop the application mounts) and
`src/objets/Boids.tsx` (a variant with obstacles and a roaming camera).

The project has five modules, one file each:

- `vectors.dfy` (`Vectors`): the parts of three.js's `Vector3` that the
  boids use, over `real`. The square root behind every length is a
  parameter `sqrt`. The lemmas that need it to be a square root require
  `IsSqrt(sqrt)`.
- `flocking.dfy` (`Flocking`): the steering laws as pure functions of what
  a boid sees:
  - the neighbour filter and the sums that `align`, `cohere` and
    `separate` accumulate;
  - the random jitter, `flock`'s combined force, and `avoid` / `doAvoid`;
  - the division by zero in `separate`.
- `boid.dfy` (`BoidAgent`): the class `Boid` with its mutable fields.
  Every method is proved against the function that specifies it: `edges`
  against `Wrap`, `update` against `Integrate`, and the three rules,
  `flock` and `avoid` against `Flocking`.
- `scene.dfy` (`SceneFrame`): the scene's frame loop. It covers:
  - the initial positions;
  - the `n`³ grid of copies and the flat layout of mesh references;
  - the two passes of `useFrame`, proved against closed-form value
    definitions of each pass.
- `boids_frame.dfy` (`BoidsFrame`): the same for `Boids.tsx`. It also
  covers the frame counter and the camera boid. One proof shows that its
  first pass does not depend on the order in which the boids are visited.

The two loops differ in one place:

- `Scene.tsx` wraps each boid into the box just before that boid flocks.
  So boid `k` sees the boids before it already wrapped (`WrapFirst`).
- `Boids.tsx` wraps in the second pass. So every boid steers on the
  motions the frame started with (`SteeredReadsFrameStart`).

Both loops are stated for any steering `Rule` and proved for it. The boids
use `FlockRule`, which is `flock`.

Four details of the code:

- A new boid's speed is `maxSpeed`, 0.2 when the constructor runs
  (`src/Boid.ts:21,40-46`).
- The jitter of `addRandomForce` has length `maxForce / 100`
  (`src/Boid.ts:138-148`).
- `avoid` returns when the first hit lies strictly beyond the radius
  (`src/Boid.ts:188`), and `doAvoid` returns when the point lies at or
  beyond it (`src/Boid.ts:160`).
- The frame loop of `Boids.tsx` calls `boid.setBounds(boundsStart,
  boundsEnd)` (`src/objets/Boids.tsx:140`), and `Boid` defines no
  `setBounds`, so that call throws a `TypeError` on the first boid of
  every frame. The modelled loop is that loop without the call: the
  bounds stay the ones each boid was constructed with
  (`src/Boid.ts:38`).

## Model

| member | source | states |
|---|---|---|
| Vectors.LengthNonNegative | src/Boid.ts:68 | a length or distance (`distanceTo`) is never negative |
| Vectors.LengthZeroIff | src/Boid.ts:68 | a length is zero exactly for the zero vector, so two boids are at distance zero exactly when they coincide |
| Vectors.Normalize | src/Boid.ts:120 | `normalize` leaves the zero vector at zero, whatever the host's root gives for its length |
| Vectors.SetLength | src/Boid.ts:201 | `setLength` leaves the zero vector at zero |
| Vectors.NormalizeLength | src/Boid.ts:120 | `normalize` gives a vector of length one, and leaves the zero vector at zero |
| Vectors.SetLengthLength | src/Boid.ts:201 | `setLength(s)` gives length `abs(s)`, and leaves the zero vector at zero |
| Vectors.ClampLengthLength | src/Boid.ts:79 | `clampLength(0, hi)` gives a vector whose length is the old length clamped to `[0, hi]` |
| Vectors.ClampLengthKeepsShort | src/Boid.ts:79 | `clampLength(0, hi)` leaves a vector no longer than `hi` unchanged |
| Vectors.LengthOfScale | src/Boid.ts:81 | `multiplyScalar(s)` multiplies the length by `abs(s)` |
| Vectors.LengthOfScaleMonotone | src/Boid.ts:178 | `multiplyScalar` by a factor of smaller absolute value never gives a longer vector |
| Flocking.NeighbourCount | src/Boid.ts:65-74 | the neighbour count `total` never exceeds the number of candidates |
| Flocking.VelocitySum | src/Boid.ts:67-74 | the summed neighbour velocities are zero when no candidate is a neighbour |
| Flocking.PositionSum | src/Boid.ts:90-97 | the summed neighbour positions are zero when no candidate is a neighbour |
| Flocking.Repulsion | src/Boid.ts:118-122 | one neighbour's repulsion, defined as zero for a neighbour at distance zero |
| Flocking.RepulsionLength | src/Boid.ts:118-122 | a neighbour at a positive distance `d` pushes with strength exactly `1 / d` |
| Flocking.RepulsionAntisymmetric | src/Boid.ts:118-122 | two boids push each other with opposite forces of the same size, the zero-distance case included |
| Flocking.RepulsionSum | src/Boid.ts:114-125 | the summed repulsions are zero when no candidate is a neighbour |
| Flocking.Align | src/Boid.ts:63-84 | `align` returns the zero vector when no candidate is a neighbour, whatever the factor |
| Flocking.Cohere | src/Boid.ts:86-108 | `cohere` returns the zero vector when no candidate is a neighbour, whatever the factor |
| Flocking.Separate | src/Boid.ts:110-136 | `separate` returns the zero vector when no candidate is a neighbour, whatever the factor |
| Flocking.Neighbours | src/Boid.ts:67-70 | the candidates the rules take into account are exactly those that are not the boid itself and are strictly closer than the perception radius |
| Flocking.SumsOverNeighbours | src/Boid.ts:63-136 | the three loops' counter and accumulators are the plain count and sums over exactly the neighbours |
| Flocking.RulesSeeOnlyNeighbours | src/Boid.ts:63-136 | two populations with the same neighbours, in the same order, give the same three steering forces |
| Flocking.SteerBounded | src/Boid.ts:76-81 | a rule's result, clamped and then scaled by a factor `>= 0`, is no longer than `factor * maxForce`, and zero when `maxForce < 0` |
| Flocking.AlignBounded | src/Boid.ts:76-81 | with `alignFactor >= 0`, `align` is no longer than `alignFactor * maxForce` |
| Flocking.CohereBounded | src/Boid.ts:99-105 | with `cohereFactor >= 0`, `cohere` is no longer than `cohereFactor * maxForce` |
| Flocking.SeparateBounded | src/Boid.ts:127-133 | with `separateFactor >= 0`, `separate` is no longer than `separateFactor * maxForce` |
| Flocking.Direction | src/Boid.ts:139-143 | with `Math.random()` values in [0, 1), the random direction lies in the cube [-1, 1)³ |
| Flocking.RandomForceLength | src/Boid.ts:138-148 | the jitter has length `abs(maxForce) / 100`, except for the zero direction, which stays zero |
| Flocking.FlockWithoutNeighbours | src/Boid.ts:150-155 | with no neighbours, `flock` adds only the jitter to the acceleration |
| Flocking.AvoidScale | src/Boid.ts:162-164 | the avoidance scale `clamp(1 - d / r, 0, 1)²` lies in [0, 1] |
| Flocking.AvoidScaleMonotone | src/Boid.ts:162-164 | the avoidance scale never grows with the distance |
| Flocking.AvoidScaleEnds | src/Boid.ts:162-164 | the avoidance scale is one at distance zero and zero from the radius on |
| Flocking.DoAvoid | src/Boid.ts:157-181 | `doAvoid` adds nothing exactly when the hit point is at least the perception radius away. Otherwise its force is no longer than `abs(avoidanceFactor)` times the turned normal minus the velocity |
| Flocking.Damped | src/Boid.ts:178 | scaling by `avoidanceFactor * scale`, with a scale in [0, 1], never lengthens a vector beyond `abs(avoidanceFactor)` times its length |
| Flocking.DampedMonotone | src/Boid.ts:178 | with the same base and factor, a smaller scale in [0, 1] gives a force no longer than a larger one |
| Flocking.DoAvoidMonotone | src/Boid.ts:157-181 | for the same boid and hit normal, a hit point at most as far away, and within the radius, gets an avoidance force at least as long |
| Flocking.AvoidNoOp | src/Boid.ts:182-195 | `avoid` leaves the acceleration as it is when nothing is hit, the first hit is beyond the radius, the hit has no face normal, or the hit point is at least the radius away |
| Flocking.AvoidActs | src/Boid.ts:182-195 | when `avoid` acts, the first hit is within the radius and has a face normal, and the force is `doAvoid`'s for that hit |
| Flocking.RepulsionAsWritten | src/Boid.ts:118-122 | the source's repulsion is NaN exactly when the neighbour is at distance zero |
| Flocking.RepulsionSumAsWrittenNaN | src/Boid.ts:114-125 | the source's repulsion sum is NaN exactly when some neighbour coincides with the boid, and otherwise equals `RepulsionSum` |
| Flocking.SeparateAsWrittenAgrees | src/Boid.ts:110-136 | the source's `separate` is NaN exactly when a neighbour coincides with the boid, and otherwise equals `Separate` |
| Flocking.CoincidentBoidsGiveNaN | src/Boid.ts:115-122 | two distinct boids at one point: the source's `separate` is NaN, while `Separate` stays within its bound |
| BoidAgent.WrapAxis | src/Boid.ts:49-57 | a coordinate above the end becomes exactly the start, one below the start becomes exactly the end, one in range is unchanged, and with `start <= end` the result is in range |
| BoidAgent.Wrap | src/Boid.ts:48-61 | after wrapping, with an ordered box, the position is inside the box, and a position already inside is unchanged |
| BoidAgent.WrapIdempotent | src/Boid.ts:48-61 | wrapping twice is wrapping once, for any box |
| BoidAgent.IntegrateProperties | src/Boid.ts:197-203 | after `update` the acceleration is zero and the speed is `abs(maxSpeed)`, or zero if velocity plus acceleration was zero |
| BoidAgent.UpdateCanLeaveBox | src/objets/Boids.tsx:146-147 | a wrapped boid on a face whose smoothed velocity points outwards leaves the box in `update`: the in-box guarantee holds after `edges` only |
| BoidAgent.View | src/Boid.ts:67-70 | the candidates boid `j` iterates over: every boid's position and velocity, with exactly entry `j` marked as itself |
| BoidAgent.ViewExcludesSelf | src/Boid.ts:70 | a boid is never one of its own neighbours, and no other entry is marked as itself |
| BoidAgent.Boid.Sees | src/Boid.ts:67-70 | the candidates as the boid iterates over them; `other !== this` is reference inequality |
| BoidAgent.SeesIsView | src/Boid.ts:67-70 | in a population of distinct boids, what boid `j` sees is the `View` at index `j` of the population's positions and velocities |
| BoidAgent.Boid.constructor | src/Boid.ts:38-46 | a new boid is at the origin, at rest apart from its random heading scaled to 0.2, with the default tuning and the given bounds |
| BoidAgent.Boid.Edges | src/Boid.ts:48-61 | `edges` sets the position to `Wrap` of the old position, and changes nothing else |
| BoidAgent.Boid.Align | src/Boid.ts:63-84 | the loop computes `Flocking.Align` of the boid against the population, and writes no field |
| BoidAgent.Boid.AlignTail | src/Boid.ts:76-81 | dividing the sum by the count, subtracting the velocity, clamping to `maxForce` and weighting computes `Flocking.Steer`, and writes no field |
| BoidAgent.Boid.Cohere | src/Boid.ts:86-108 | the loop computes `Flocking.Cohere` of the boid against the population, and writes no field |
| BoidAgent.Boid.Separate | src/Boid.ts:110-136 | the loop computes `Flocking.Separate` of the boid against the population, and writes no field |
| BoidAgent.Boid.AddRandomForce | src/Boid.ts:138-148 | the acceleration grows by the jitter, and nothing else changes |
| BoidAgent.Boid.Flock | src/Boid.ts:150-155 | only the acceleration changes: it grows by separate, align, cohere and the jitter, in that order |
| BoidAgent.FlockSum | src/Boid.ts:150-155 | the four additions of `flock`, in order, are `Flocking.Flock` |
| BoidAgent.Boid.DoAvoid | src/Boid.ts:157-181 | only the acceleration changes, by `Flocking.DoAvoid`'s force if there is one |
| BoidAgent.Boid.Avoid | src/Boid.ts:182-195 | only the acceleration changes, by `Flocking.Avoid`'s force if there is one |
| BoidAgent.Boid.Update | src/Boid.ts:197-203 | the motion state becomes `Integrate` of the old one: position plus the old smoothed velocity, velocity set to `maxSpeed`, smoothed velocity 90% of the way to it, acceleration zero |
| BoidAgent.Boid.SetFactors | src/Boid.ts:205-215 | the four factors take the given values, and nothing else changes |
| BoidAgent.Boid.SetPerceptionRadius | src/Boid.ts:217-219 | the radius takes the given value, and nothing else changes |
| BoidAgent.Boid.SetLimits | src/Boid.ts:221-224 | `maxSpeed` becomes `0.1 * s` and `maxForce` becomes `0.008 * f`, whatever they were, so repeated calls never compound |
| BoidAgent.Boid.GetVelocity | src/Boid.ts:226-228 | returns the velocity, as a value that is not shared with the boid |
| SceneFrame.RandomInBounds | src/objets/Scene.tsx:26-32 | with `Math.random()` values in [0, 1), a start position lies in the box, below its far faces |
| SceneFrame.Populate | src/objets/Scene.tsx:37-48 | creates one fresh, distinct boid per start position, at that position, with the constructor's state and tuning |
| SceneFrame.Spawn | src/objets/Scene.tsx:35-48 | the scene's 100 fresh, distinct boids on the box [-20, 20]³, each at `randomInBounds()`, with the constructor's velocity (the random heading set to length 0.2), zero smoothed velocity and acceleration, and the default tuning |
| SceneFrame.SpawnInBox | src/objets/Scene.tsx:39-44 | every boid starts inside the box |
| SceneFrame.GridCellDigits | src/objets/Scene.tsx:79-84 | the floating-point `x`, `y`, `z` of copy `i` are its base-`n` digits `i mod n`, `floor(i/n) mod n` and `floor(i/n²)`, which recompose `i`, and `z < n` for `i < n³` |
| SceneFrame.GridPositionOfScene | src/objets/Scene.tsx:79-90 | copy `i` is placed at its cell times 40; with `n = 1` the only copy is at the origin |
| SceneFrame.MeshIndexLayout | src/objets/Scene.tsx:133-134 | the mesh index `j * count + i` is below `n³ * count`, is distinct for distinct (copy, boid) pairs, and equals `i` when `n = 1` |
| SceneFrame.SceneTuning | src/objets/Scene.tsx:123-125 | the panel's tuning: the three weights, the radius, and the limits `0.1 * maxSpeed` and `0.008 * maxForce` |
| SceneFrame.PanelTunings | src/objets/Scene.tsx:122-125 | once the first pass has visited the first `m` boids, those have the panel's tuning and the rest are unchanged |
| SceneFrame.PanelTuningsStep | src/objets/Scene.tsx:122-125 | boid `m`'s setters take the tunings from `m` visited boids to `m + 1` |
| SceneFrame.WrapFirst | src/objets/Scene.tsx:126-127 | once the first `m` boids are wrapped, those are in the box, the rest are unchanged, and no velocity changes |
| SceneFrame.SceneStep | src/objets/Scene.tsx:126-127 | boid `i`'s turn wraps only boid `i` and changes nothing but its position and acceleration |
| SceneFrame.ScenePassStep | src/objets/Scene.tsx:122-128 | boid `m`'s turn, on the state after `m` turns, gives the closed form of `m + 1` turns: each boid steers on the boids before it wrapped and those after it not yet wrapped |
| SceneFrame.ScenePassInBox | src/objets/Scene.tsx:122-128 | after the first pass every visited boid is inside the box and has the panel's tuning |
| SceneFrame.SceneSteeringInsideBox | src/objets/Scene.tsx:126-127 | when every boid starts the frame inside the box, each steers on the frame-start population, as in the variant that wraps later |
| SceneFrame.SceneSteerOne | src/objets/Scene.tsx:123-127 | one boid's setters, `edges` and `flock`: wrapped position, the panel's tuning, `flock`'s acceleration, velocities unchanged |
| SceneFrame.ScenePass1Step | src/objets/Scene.tsx:122-128 | one turn of the first pass on the boids is `SceneStep` on their motions, and sets only that boid's tuning |
| SceneFrame.ScenePass1 | src/objets/Scene.tsx:122-128 | the first pass leaves the motions `ScenePass` of the old motions and the tunings `PanelTunings` |
| SceneFrame.UpdateFirstStep | src/objets/Scene.tsx:130-131 | integrating boid `m` after the first `m` gives the first `m + 1` integrated |
| SceneFrame.UpdateFirstSettles | src/objets/Scene.tsx:130-131 | after the second pass every acceleration is zero, every position has moved by its smoothed velocity, and every speed is its limit, or zero |
| SceneFrame.MeshPositionsAt | src/objets/Scene.tsx:133-134 | copy `j` of boid `k` shows the position of boid `k` |
| SceneFrame.CopyingStep | src/objets/Scene.tsx:133-134 | writing copy `j` of boid `m` extends the written meshes by exactly that mesh |
| SceneFrame.CopyingRow | src/objets/Scene.tsx:133-136 | once all copies of boid `m` are written, boid `m` is done |
| SceneFrame.CopyingDone | src/objets/Scene.tsx:130-137 | once every boid is copied, every mesh shows its boid's position |
| SceneFrame.CopyToMeshes | src/objets/Scene.tsx:133-136 | the inner loop writes boid `i`'s position into all its `n³` meshes and leaves the boids alone |
| SceneFrame.UpdateOne | src/objets/Scene.tsx:131 | `update` on boid `i` integrates it alone |
| SceneFrame.ScenePass2 | src/objets/Scene.tsx:130-137 | the second pass integrates every boid under its own speed limit, keeps every tuning, and leaves every mesh showing its boid's new position |
| SceneFrame.FrameSettles | src/objets/Scene.tsx:119-138 | after a frame every boid has zero acceleration, sits at its wrapped start plus its smoothed velocity, and moves at `0.1 *` the speed slider, or zero |
| SceneFrame.SceneTick | src/objets/Scene.tsx:119-138 | one frame is the first pass, then the second, stated on the motions, the tunings and the meshes |
| BoidsFrame.Stretch | src/objets/Boids.tsx:56-58 | `Math.random() * width` lies in `[0, width]`, and below the width when it is positive |
| BoidsFrame.RandomInQuarter | src/objets/Boids.tsx:54-60 | with `Math.random()` values in [0, 1), a start position lies in [-dim/4, dim/4]³ (below dim/4 when dim > 0), hence in the box |
| BoidsFrame.Spawn | src/objets/Boids.tsx:65-76 | one fresh, distinct boid per draw, on the box `±dim`, at `randomInBounds()`, with the constructor's motion |
| BoidsFrame.BoidsTuning | src/objets/Boids.tsx:132-139 | the panel's tuning: all four weights, the radius, and the limits `0.1 * maxSpeed` and `0.008 * maxForce` |
| BoidsFrame.TunedStep | src/objets/Boids.tsx:131-139 | boid `m`'s setters take the tunings from `m` set boids to `m + 1` |
| BoidsFrame.TunedAll | src/objets/Boids.tsx:131-139 | after the first pass every boid has the panel's tuning, whatever it had before |
| BoidsFrame.SteerAt | src/objets/Boids.tsx:141-142 | one boid's `flock` and `avoid` change only that boid's acceleration |
| BoidsFrame.SteeredKeepsKinematics | src/objets/Boids.tsx:131-143 | the first pass changes no position and no velocity |
| BoidsFrame.SteeredStep | src/objets/Boids.tsx:131-143 | the turn of a boid not yet visited adds it to the visited set, whichever boids came before |
| BoidsFrame.SteeredFirstIsOver | src/objets/Boids.tsx:131-143 | visiting the boids before `m` in the source's order is visiting the set of them |
| BoidsFrame.SteeredFirstStep | src/objets/Boids.tsx:131-143 | boid `m`'s turn after the boids before it gives the first pass up to `m + 1` |
| BoidsFrame.VisitSteered | src/objets/Boids.tsx:131-143 | visiting distinct, not yet visited boids in any order adds exactly them to the visited set |
| BoidsFrame.VisitAnyOrder | src/objets/Boids.tsx:131-143 | the first pass ends in the same state for every order that visits each boid once |
| BoidsFrame.SteeredReadsFrameStart | src/objets/Boids.tsx:131-147 | each boid's first-pass steering reads the positions and velocities the frame started with, and the pass keeps its position, velocity and smoothed velocity |
| BoidsFrame.SettledFirstStep | src/objets/Boids.tsx:145-147 | wrapping and integrating boid `m` after the first `m` gives the first `m + 1` |
| BoidsFrame.SettleProperties | src/objets/Boids.tsx:146-147 | after `edges` and `update` a boid has zero acceleration, sits at its wrapped position plus its smoothed velocity, and moves at its speed limit, or zero |
| BoidsFrame.ShownStep | src/objets/Boids.tsx:149 | showing boid `m` after the first `m` extends the shown refs by exactly that one |
| BoidsFrame.ShownAll | src/objets/Boids.tsx:145-150 | once every boid is shown, each ref shows its boid's position |
| BoidsFrame.FrameSettles | src/objets/Boids.tsx:128-160 | after a frame every boid has zero acceleration, sits at its wrapped frame-start position plus its smoothed velocity, and moves at `0.1 *` the speed slider, or zero |
| BoidsFrame.NextTime | src/objets/Boids.tsx:167-172 | the counter goes up by one and returns to 0 on every thousandth frame, so from [0, 999] it stays in [0, 999] |
| BoidsFrame.PickCamera | src/objets/Boids.tsx:171 | `Math.floor(Math.random() * count)` is a boid index for `count > 0` |
| BoidsFrame.NextCamera | src/objets/Boids.tsx:169-172 | the camera boid changes only on the frame where the counter resets, and stays a boid index |
| BoidsFrame.TimeAfterIsRemainder | src/objets/Boids.tsx:125-172 | after `k` frames from 0 the counter reads `k mod 1000` |
| BoidsFrame.FrameClock.constructor | src/objets/Boids.tsx:125-126 | the counter and the camera index start at 0 |
| BoidsFrame.FrameClock.Advance | src/objets/Boids.tsx:167-172 | the counter and the camera index take their next values, and both stay in range |
| BoidsFrame.SteerOne | src/objets/Boids.tsx:132-142 | one boid's setters, `flock` and `avoid`: the panel's tuning, and only the acceleration changes, to `flock` and then `avoid` on the boid's own motion |
| BoidsFrame.Pass1Step | src/objets/Boids.tsx:131-143 | one turn of the first pass on the boids is `SteerAt` on their motions, and sets only that boid's tuning |
| BoidsFrame.Pass1 | src/objets/Boids.tsx:131-143 | the first pass leaves the motions `SteeredFirst` of the frame-start motions and every boid with the panel's tuning |
| BoidsFrame.SettleOne | src/objets/Boids.tsx:146-147 | `edges` then `update` on boid `i` wraps and integrates it alone |
| BoidsFrame.ShowOne | src/objets/Boids.tsx:149 | copies boid `i`'s position into its ref and leaves the boids alone |
| BoidsFrame.Pass2 | src/objets/Boids.tsx:145-160 | the second pass wraps and integrates every boid under its own speed limit, keeps every tuning, and leaves each ref showing its boid's new position |
| BoidsFrame.AdvanceClock | src/objets/Boids.tsx:167-172 | the counter's step leaves the boids alone |
| BoidsFrame.Tick | src/objets/Boids.tsx:128-173 | one frame is the first pass, the second pass, then the counter step, stated on the motions, the tunings, the refs and the counter |

## Left out

- The `rotation` getter (`src/Boid.ts:24-36`) is quaternion and Euler code. The frame loops also copy it into the meshes (`src/objets/Scene.tsx:135`, `src/objets/Boids.tsx:150`). The model copies positions only.
- `applyAxisAngle` (`src/Boid.ts:166-173`) is a parameter `rotate(normal, axis)`. The model does not state what the 30° rotation does.
- `Raycaster.intersectObjects` (`src/Boid.ts:3, 183-184`) is a parameter `cast(origin, direction)` that returns the hits nearest first. The obstacle meshes (`src/objets/Boids.tsx:180-276`) are not modelled.
- `Math.sqrt` behind every length is a parameter. Facts about lengths assume `IsSqrt`, the law of a non-negative square root.
- Floating point: coordinates are exact reals, with no rounding, infinities or NaN. The one NaN the source can produce is listed under Findings.
- The `Math.random()` values of the constructor, `addRandomForce`, `randomInBounds` and the camera pick are parameters (`Draw`, `rand`). The random material choice (`src/objets/Boids.tsx:44-52`) is rendering.
- Rendering and UI are not modelled (`src/objets/Boids.tsx:152-165`). This covers JSX, meshes, materials, leva's `useControls`, `OrbitControls`, `Environment`, the camera's lerp and `lookAt`, and `freeCamera`. The panel's values are the `Controls` parameters.
- The `delta` read from the clock in both loops has no effect: `update` takes no argument.
- The `debugger` statements (`src/Boid.ts:52, 55`) have no effect on state.
- `setBounds` (`src/objets/Boids.tsx:140`): `Boid` does not define it, so the call throws a `TypeError` on the first boid and the rest of the frame never runs. The model leaves the call out and keeps each boid's bounds from construction, so `BoidsFrame.Pass2` requires every boid to have been built on the box the component wraps into.
- SceneFrame.SceneSteerOne: the scene calls `setFactors` with three arguments (`src/objets/Scene.tsx:123`), which sets `avoidanceFactor` to `undefined`. The model keeps the boid's previous value. The scene never calls `avoid`, so the value is never read.
- SceneFrame.ScenePass2: the mesh array's length is `n³` times the number of boids. The scene builds it from the same `count` as the population (`src/objets/Scene.tsx:35, 94`).
- BoidsFrame.NextTime: the counter is an unbounded integer. The model relies on it starting at 0 and staying non-negative, where JavaScript's `%` agrees with Dafny's.

## Findings

| source | as written | input that shows it | evidently intended | confidence | as-written member | corrected member |
|---|---|---|---|---|---|---|
| src/Boid.ts:118-122 | `separate` normalises the offset to a neighbour and divides it by the distance `d`. At `d == 0`, `normalize` gives the zero vector, and `divideScalar(0)` multiplies it by `Infinity`, which gives NaN in every component. The boid's acceleration, and then its velocity and position, become NaN. | two distinct boids at the same position with a positive perception radius, e.g. `Kin(p, v)` and `[Seen(false, p, w)]` | a coincident neighbour adds no repulsion, so `separate` stays finite and within `separateFactor * maxForce` | not executed | Flocking.CoincidentBoidsGiveNaN | Flocking.Separate |
