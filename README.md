# Voxel player physics

A model of the player physics of a small first-person voxel world. The player is a box
of height 1.8 and horizontal radius 0.3 that moves through a list of unit-cube blocks,
each given by its centre. Each tick, gravity lowers the vertical velocity by 0.01. The
tentative position is then clamped against the first block, in list order, that lies
within the player's height below it. A move down lands on that block (and makes the
player eligible to jump); a move up is a "head strike". The held movement keys are then
summed into signed speeds. The motion along the view's forward and right vectors is
resolved one axis at a time, and each step is kept only when the collision test finds
no block in the exclusive band `0.1 < dy < 1.7`. A jump launches the player at 0.2 per
tick when it is eligible.

Modules:

- `Vectors` (vectors.dfy): points, vector sum and scaling, the physics constants.
- `Collisions` (collisions.dfy): the collision test `CheckCollision` and `FirstClamp`,
  the first block that clamps vertical motion.
- `Physics` (physics.dfy): the player as a value (`PlayerState`) and each operation as a
  function on it (`GravityStep`, `HorizontalMove`, `JumpStep`, `IntentSpeeds`, `Tick`),
  with the lemmas about them.
- `PlayerBody` (player.dfy): class `Player` with fields `x`, `y`, `z`, `velocityY` and
  `canJump`, updated in place by `ApplyGravity` (a scan with `break` on the first
  match), `MoveWithCollision`, `Jump` and `UpdatePlayerPhysics`. Each method is proved
  to leave `State()` equal to the matching function of `Physics` applied to the old
  state.

The block list is a parameter of every operation. The forward and right unit vectors
are parameters too; the source derives them from the camera. The movement speed, 0.1,
is the global declared in main.js:66. Coordinates are exact reals.

Three observations about the code. First, the head-strike branch uses the same band as
the landing branch (`0 < dy <= 1.8`), so the block it reacts to lies below the tentative
position, and the snap to `block.y - 0.01` puts the player below that block
(`HeadStrikeSnapsBelowBlock`). The model follows the code here. As a consequence a
gravity step can leave the player inside the blocking band of another block, even from
a collision-free state (`GravityCanEndInCollision`): the clamp is not a guarantee of a
collision-free position. This is a property of the operation on an arbitrary state; it
is not claimed to be reachable in play from a player at rest. Second, jump
eligibility is only ever held at zero vertical velocity, and every operation keeps it
that way (`RestingPreserved`). Third, main.js builds the ground grid as meshes only, so
the block list the physics scans is whatever the host supplies.

## Model

| member | source | states |
|---|---|---|
| `Collisions.CheckCollision` | collisions.js:14-31 | a collision is reported exactly when some block overlaps horizontally within the Minkowski reach and lies in the exclusive vertical band |
| `Collisions.CheckCollisionBand` | collisions.js:20-24 | the same equivalence in the literal numbers: \|dx\| < 0.8, \|dz\| < 0.8, 0.1 < dy < 1.7 |
| `Collisions.StandingOnTopIsFree` | collisions.js:23-24 | standing exactly 1.8 above a block, or at most 0.1 above it, is never a collision |
| `Collisions.FirstClamp` | collisions.js:43-67 | the index found is the first block in list order that overlaps horizontally with 0 < dy <= 1.8; none is found only when no block qualifies |
| `Physics.GravityStep` | collisions.js:36-72 | a gravity step never changes x or z |
| `Physics.GravityFreeFall` | collisions.js:37-39 | with no qualifying block, velocity drops by exactly 0.01, y moves by the new velocity, and jump eligibility is lost |
| `Physics.GravityLands` | collisions.js:48-57 | moving down onto the first qualifying block gives y = block.y + 1.8, velocity 0 and jump eligibility |
| `Physics.GravityHeadStrike` | collisions.js:60-66 | moving up into the first qualifying block gives y = block.y - 0.01, velocity 0, and jump eligibility unchanged |
| `Physics.HeadStrikeSnapsBelowBlock` | collisions.js:60-62 | the block a head strike reacts to is below the tentative position, and the player ends below that block |
| `Physics.GravityFirstWins` | collisions.js:43-67 | any block list that agrees up to and including the first qualifying block gives the same result |
| `Physics.GravityIgnoresLaterBlocks` | collisions.js:57-65 | appending blocks after a qualifying block changes nothing |
| `Physics.ClampClearsBlock` | collisions.js:52-62 | after a clamp the player does not collide with the block that clamped it |
| `Physics.GravityCanEndInCollision` | collisions.js:61-70 | a gravity step from a collision-free state can end inside the blocking band of another block: a head strike on a step block snaps the player into the ground block below |
| `Physics.RestingIsStable` | collisions.js:52-56 | a player at rest exactly on top of a block stays at the same y and becomes eligible to jump, when every other overlapping block is level with it, more than 0.01 lower or at least 1.79 higher (none of them clamps first) |
| `Physics.FreeFallClosedForm` | collisions.js:36-72 | in a column with no horizontally overlapping block, n ticks give velocity v - 0.01n and height y + n·v - 0.01·n(n+1)/2, with jump eligibility lost |
| `Physics.GravityGrantsJumpOnlyOnLanding` | collisions.js:52-71 | for a resting-consistent player, a gravity step leaves jump eligibility exactly when it was a landing |
| `Physics.HeadStrikeKeepsJumpDisabled` | collisions.js:61-71 | a head strike never makes a resting-consistent player eligible to jump |
| `Physics.HorizontalMove` | collisions.js:77-92 | the move ends at p, p+f, p+r or p+f+r, and it ends at the start or at a position that collides with nothing (each step is kept exactly when its target is free: see `MoveBothFree`, `MoveSlidesForward`, `MoveSlidesAlongWall`, `MoveBothBlocked`) |
| `Physics.MovePreservesFree` | collisions.js:84-91 | a start that collides with nothing leads to an end that collides with nothing |
| `Physics.MoveEmptyWorld` | collisions.js:80-89 | with no blocks both steps are taken |
| `Physics.MoveKeepsHeight` | collisions.js:80-89 | level step vectors leave y unchanged |
| `Physics.MoveSlidesAlongWall` | collisions.js:83-89 | a blocked forward step does not stop a free right step |
| `Physics.MoveBothFree` | collisions.js:84-89 | when the forward target and then p+f+r are free, the move ends at p+f+r |
| `Physics.MoveSlidesForward` | collisions.js:84-89 | a free forward step is kept even when the right step after it is blocked: the move ends at p+f |
| `Physics.MoveBothBlocked` | collisions.js:84-89 | when both steps from the start are blocked, the player does not move |
| `Physics.IntentSpeeds` | collisions.js:110-114 | each axis speed is -0.1, 0 or 0.1; it is 0 exactly when both opposing keys agree, and its sign follows the key held alone |
| `Physics.JumpStep` | collisions.js:122-127 | a jump never moves the player and always leaves it ineligible to jump (exact values in `JumpLaunches`, idempotence in `JumpTwiceIsOnce`) |
| `Physics.JumpLaunches` | collisions.js:122-127 | an eligible jump sets velocity 0.2 and clears eligibility; an ineligible one changes nothing |
| `Physics.JumpTwiceIsOnce` | collisions.js:122-127 | a second consecutive jump is a no-op |
| `Physics.RestingPreserved` | collisions.js:36-127 | gravity, jump and a whole tick keep jump eligibility tied to zero vertical velocity |
| `Physics.Tick` | collisions.js:97-117 | a tick's velocity and eligibility are those of its gravity step, and the horizontal part never brings a collision-free player into collision (height in `TickVerticalIsGravity`) |
| `Physics.TickVerticalIsGravity` | collisions.js:97-117 | with level step vectors, a tick's height, velocity and eligibility are those of its gravity step |
| `PlayerBody.Player.constructor` | collisions.js:7-9 | a new player is at its spawn point with velocity 0 and no jump eligibility |
| `PlayerBody.Player.ApplyGravity` | collisions.js:36-72 | the in-place scan with break on the first match leaves the player in the state `GravityStep` gives |
| `PlayerBody.Player.MoveWithCollision` | collisions.js:77-92 | the in-place per-axis move leaves the position `HorizontalMove` gives, at the start or at a free position, and keeps velocity and eligibility |
| `PlayerBody.Player.Jump` | collisions.js:122-127 | an eligible jump sets velocity 0.2 and clears eligibility; otherwise nothing changes |
| `PlayerBody.Player.UpdatePlayerPhysics` | collisions.js:97-117 | gravity, then the summed key intents moved along the given vectors, as `Tick` gives |
| `PlayerBody.SpawnFall` | main.js:31 | a player spawned at height 2 above a block at y = 0 lands after six ticks at y = 1.8, eligible to jump |

## Left out

- All of main.js: scene, camera, renderer and lighting setup, pointer-lock mouse look, the ground-grid meshes, the key listeners, the render loop and the resize handler. These are presentation and host wiring. The spawn point of main.js:31 appears only in `SpawnFall`.
- The derivation of the forward and right vectors from the camera (collisions.js:100-107). It uses library calls and square roots, so the vectors are parameters. Normalising a zero vector (looking straight up or down) is not modelled.
- The `keydown` listener that calls `jump` on Space (collisions.js:129-131). This is I/O wiring; `Jump` itself is modelled.
- IEEE-754 double arithmetic. Coordinates are exact reals, and 0.1, 0.01, 0.3 and 1.8 are exact. Boundary cases such as `dy == 1.8` can come out differently in floating point.
- Flight mode, double-tap detection, ray-targeted block placement and removal, and a voxel set with insert and remove. None of them is in collisions.js or main.js.
- The global `window.blocks` and the shared player object. The block list is a parameter of each operation, and the player is one `Player` object.
