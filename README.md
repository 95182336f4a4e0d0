# Collapsing chimney: a verified model of the brick physics and collapse sequencing

The animation shows a chimney of twenty bricks that can be made to collapse
brick by brick or be blown apart by an explosion. Its core is two small
classes in `script.js`:

- `Brick` holds a position, a velocity, a rotation angle, an angular velocity
  and two flags, `active` (still part of the standing structure) and
  `connected`. Its `update` is one explicit Euler step with gravity, clamping
  at the side walls and the floor, and bounce/friction damping; it does
  nothing while the brick is still `active`. Its `applyExplosionForce`
  detaches the brick and gives it an outward impulse when it lies inside the
  explosion radius.
- `Chimney` holds the ordered array of bricks, a `falling` flag and the
  cascade cursor `collapseIndex`. `build` stacks the bricks, `startFalling`
  starts the collapse, `update` peels off the brick at the cursor when a coin
  flip succeeds and then steps every brick, and `applyExplosion` blasts every
  brick. The reset button rebuilds the array and clears `falling`.

The model has three modules:

- `Settings` (`settings.dfy`): the fixed dimensions and the constants of the
  source, the slider parameters as a `Config` value (`Defaults` holds their
  initial values) and the drawing surface as a `Canvas` value.
- `Bricks` (`bricks.dfy`): the value `BrickState`; the functions `Advance`,
  `WallResponse`, `FloorResponse` and `Step` that specify one frame; the
  relation `Blasted` that specifies an explosion; and the class `Brick`,
  whose methods update its fields in place and are proved against them.
- `Chimneys` (`chimney.dfy`): the value `ChimneyState`; `ChimneyUpdate`
  (one frame), `Started`, `Exploded` and `Stacked` (the build); `Run`, which
  strings frames together, with lemmas about the whole collapse; and the
  class `Chimney`, which holds a `seq<Brick>` of distinct brick objects and
  updates them in place.

All numbers are `real`. Each `Math.random()` draw is a parameter: the
cascade coin is the frame's `roll` (the coin succeeds when `roll < 0.1`), and
the three draws of an explosion kick are a `Jitter`. The `Math.sqrt` distance
of an explosion is a parameter too. `IsDistance` states what it must be, and
`Chimney.ApplyExplosion` requires it of every brick.

What the code does, where its own comments or its evident intent say otherwise:

- Brick `i` is placed at `y - 20 * i` and the canvas `y` axis points down, so
  brick 0 is the BOTTOM brick, although the comment at script.js:151 calls
  `bricks[0]` the top brick.
- The cascade moves the cursor to 1 before it detaches anything, so it never
  detaches brick 0. `startFalling` pushes brick 0 (`vx = 1.5`, angular
  velocity `0.05`), but that brick stays in the structure, and a brick in the
  structure is never integrated, so the push never moves it unless an
  explosion reaches brick 0. Its centre is 160 from the explode button's
  blast point, beyond the default radius of 120; with a larger radius the
  stored push and spin add to its blast velocity
  (`ExplosionReleasesStartPush`). Without an explosion,
  `CollapseLeavesBase` and `RunNeverReattaches` prove that brick 0 stays. A collapse by the
  cascade alone therefore never brings all twenty bricks down; brick 0 stays
  standing, tilted.
- At distance 0 the code divides by zero (the result is not a number) and has
  no guard. This case is reached in ordinary use: the explode button's blast
  point is exactly the centre of brick 8 of the chimney the page builds
  (`ExplodeButtonHitsBrickCentre`). The model leaves that brick's velocity
  unconstrained instead of inventing a guard.
- Reset does not zero `collapseIndex`; only `startFalling` does.

## Model

| member | source | states |
|---|---|---|
| `Settings.BrickCountIsTwenty` | script.js:114 | the chimney is built from floor(400 / 20) = 20 bricks |
| `Bricks.Step` | script.js:35-60 | a brick in the structure is left exactly as it was; a free brick ends the frame inside the canvas (`y + height <= H`, and `0 <= x <= W - width` when `width <= W`); the step never changes `active`, `connected`, `index`, `width` or `height`; the angle advances by the old angular velocity |
| `Bricks.StepFreeFlight` | script.js:38-44 | without wall or floor contact: `angle' = angle + av`, `av' = 0.99 av`, `vy' = vy + g`, `x' = x + vx`, `y' = y + vy + g` (velocity is updated before position) |
| `Bricks.StepWallContact` | script.js:47-51 | on a side-wall hit without floor contact: `x` is clamped to 0 or `W - width`, `vx' = -vx * bounce`, the spin is damped by 0.99 and 0.8, the vertical motion is free flight |
| `Bricks.StepFloorContact` | script.js:46-58 | on a floor hit, with or without a wall hit in the same frame: `x'` is the wall-clamped or free-flight position, `y' = H - height`, `vy'` is minus the post-gravity `vy` times bounce, `vx'` is the velocity the wall test left times friction, the spin gets a further 0.8 |
| `Bricks.Brick.constructor` | script.js:19-32 | a new brick is at rest at the given position and index, upright, 60 by 20, active and connected |
| `Bricks.Brick.Update` | script.js:35-60 | the new state of the brick is `Step` of the old one |
| `Bricks.Brick.Integrate` | script.js:37-44 | rotation, gravity and the Euler move, as `Advance` |
| `Bricks.Brick.HitWalls` | script.js:46-51 | the side-wall test and response, as `WallResponse` |
| `Bricks.Brick.HitFloor` | script.js:53-58 | the floor test and response, as `FloorResponse` |
| `Bricks.ImpulseMagnitude` | script.js:89 | for a positive force the impulse `(1 - d/R) F` lies in `(0, F]` and equals `F` exactly at the centre |
| `Bricks.ImpulseDecreasing` | script.js:89 | the impulse strictly decreases as the distance grows |
| `Bricks.ImpulseAtHalfRadius` | script.js:89 | at half the radius the impulse is half the force |
| `Bricks.PushHasImpulseLength` | script.js:83-93 | the directed part of the kick, `(dx/d) F'` and `(dy/d) F'`, has length exactly the impulse `F'`: it is the impulse along the unit vector from the explosion point to the brick centre |
| `Bricks.BlastDetachesWithinRadius` | script.js:81-97 | an explosion detaches a brick exactly when it is still in the structure and strictly inside the radius (distance 0 included), clears `connected` with it, and leaves a free brick untouched |
| `Bricks.BlastSpinKickBounded` | script.js:92-94 | an explosion does not displace or rotate the brick, and its random spin kick lies in `[-0.1, 0.1)` |
| `Bricks.Brick.ApplyExplosionForce` | script.js:80-98 | the new state is one that `Blasted` allows: no change out of reach; in reach, detached, spin kicked, and for a positive distance each velocity component gets the directed push plus the random kick |
| `Chimneys.Stacked` | script.js:113-119 | the build stacks `n` bricks, brick `i` fresh at `(x, y - 20 i)` with index `i` |
| `Chimneys.Chimney.Build` | script.js:113-119 | pushes exactly `BrickCount` new brick objects onto the array, in that layout, keeping the bricks already there and their distinctness |
| `Chimneys.Chimney.constructor` | script.js:103-110 | a new chimney holds the 20 stacked fresh bricks, is not falling, and its cursor is 0 |
| `Chimneys.Chimney.Reset` | script.js:224-226 | after reset the chimney holds 20 new, fresh, active bricks in the original layout (brick 0 at the original position), `falling` is false, and the cursor is unchanged |
| `Chimneys.ChimneyUpdate` | script.js:122-140 | a standing chimney does not change; a falling one never moves its cursor back or past the last brick, deactivates at most the brick at the cursor as it was after the tilt step (and does when the coin succeeds), never detaches brick 0, never re-attaches a brick, never moves a brick that is still in the structure, and leaves every free brick above the floor, and between the side walls when the canvas is at least one brick wide and the bricks have the standard size |
| `Chimneys.Chimney.Update` | script.js:122-140 | the new chimney is `ChimneyUpdate` of the old one, with the same brick objects |
| `Chimneys.Chimney.TiltTop` | script.js:126-129 | on the first falling frame brick 0 gets the initial tilt and the cursor moves to 1 |
| `Chimneys.Chimney.PeelNext` | script.js:132-135 | when the coin succeeds and the cursor is inside the array, the brick at the cursor leaves the structure and the cursor advances |
| `Chimneys.Chimney.StepBricks` | script.js:138 | every brick is stepped once, as `Step` |
| `Chimneys.Started` | script.js:148-156 | `startFalling` sets `falling`, zeroes the cursor, gives brick 0 `vx = 1.5` and angular velocity `0.05` and changes nothing else about it, detaches nothing, moves nothing and leaves every other brick unchanged |
| `Chimneys.ExplodeButtonHitsBrickCentre` | script.js:206-207 | the blast point of the explode button is exactly the centre of brick 8 of the chimney the page builds at script.js:170, at distance 0 and within reach at the default radius |
| `Chimneys.Chimney.StartFalling` | script.js:148-156 | the new chimney is `Started` of the old one |
| `Chimneys.ExplosionReleasesStartPush` | script.js:148-156 | brick 0 of the chimney the page builds lies at distance 160 from the explode button's blast point (script.js:206-207); an explosion with a radius above 160 detaches it, its velocity keeps the push `startFalling` stored, and with centred draws the next frame moves it sideways by exactly that push |
| `Chimneys.ExplosionDetachesWithinRadius` | script.js:159-162 | an explosion, with each brick's Euclidean distance from the blast point, detaches exactly the standing bricks whose centre is strictly inside the radius, re-attaches none, and keeps the cursor within the stack |
| `Chimneys.Chimney.ApplyExplosion` | script.js:159-162 | every brick is blasted with its own distance and draws, the chimney is falling afterwards whatever it was, and the cursor is unchanged |
| `Chimneys.Run` | script.js:185 | frames keep the number of bricks and the `falling` flag |
| `Chimneys.RunCursorBounded` | script.js:126-135 | over any number of frames the cursor never decreases and never exceeds the number of bricks |
| `Chimneys.RunNeverReattaches` | script.js:126-138 | over any number of frames no brick becomes active again, a brick still in the structure has not moved, and brick 0 keeps its flag |
| `Chimneys.RunCursorFollowsRule` | script.js:126-135 | the cursor of a falling chimney evolves by the cursor rule alone, independent of the bricks' motion |
| `Chimneys.CursorCountsHits` | script.js:126-135 | after a non-empty run of frames the cursor is `min(n, max(k, 1) + number of successful coin flips)` |
| `Chimneys.RunKeepsStaged` | script.js:126-135 | during a cascade-only collapse brick 0 stands, bricks 1 up to the cursor are detached and the rest stand |
| `Chimneys.CollapseLeavesBase` | script.js:122-156 | after reset, start, and frames with at least 19 successful coin flips, every brick except brick 0 is detached and brick 0 is still in the structure |

## Left out

- Drawing: `Brick.draw`, `Chimney.draw`, `animate`, `drawExplosion` and its delayed redraw are canvas calls and a timer with no state of the model.
- The button and slider handlers, the `simulationStarted` gating and `requestAnimationFrame` scheduling are UI and frame driving. The slider values are the `Config` argument. One call of `Chimney.Update` is one frame.
- The random colour string of a brick is cosmetic and is not modelled.
- `Math.random()` and `Math.sqrt` are parameters: the model does not model randomness, and it does not model that the cascade coin is drawn only while the cursor is inside the array.
- Bricks.Brick.ApplyExplosionForce: requires only a non-negative `distance`. The contract holds for any such value. That the value is the Euclidean distance (`IsDistance`) is required one level up, by `Chimney.ApplyExplosion`.
- Bricks.Blasted: at distance 0 the source computes `0/0` (not a number). The model leaves the new velocity unconstrained there rather than modelling IEEE not-a-number values. The explode button reaches this case whenever brick 8 still stands (`ExplodeButtonHitsBrickCentre`). In the source that brick's velocity and, from the next frame, its position are not-a-number: the wall and floor tests (script.js:47, script.js:53) are false for it, so it is never clamped, and `draw` skips it (script.js:64), so it disappears. The in-canvas bounds of `Bricks.Step` and `Chimneys.ChimneyUpdate` do not describe that brick: the model gives it some real velocity and then clamps it like any other.
- Chimneys.Run: every frame of a run uses one `Config` and one `Canvas`, so the lemmas about runs assume the sliders (script.js:259-287) do not move during the run. The cursor and flag lemmas do not depend on either value.
- Floating point: all arithmetic is on exact reals, without IEEE rounding.
