# Desktop mascot: the cat's autonomous motion

This project models the controller of a small desktop mascot: a cat sprite
that walks inside a 272 × 192 pixel box (280 × 200 minus the border). The
cat is one mutable record: position, direction, walk-cycle frame index and a
moving flag. Three handlers change it. The movement handler runs every 50 ms,
the animation handler every 150 ms, and a one-shot timer resumes the cat
after a random stop.

- `mascot.dfy`, module `Mascot`: the configuration constants, the four
  directions with their step vectors, the opposite-direction table, the
  boundary test, the final clamp and the random direction choice. These are
  pure functions.
- `state.dfy`, module `MascotState`: the cat record as a value (`CatState`)
  and one function per handler that says what the handler does to it
  (`MovementTick`, `AnimationTick`, `Stopped`, `Resumed`). Then the lemmas
  about the state machine: each handler keeps the invariant, the branches of
  a movement tick exclude each other, the walk cycle repeats, a stopped cat
  stays frozen, and any interleaving of handlers (`Run`) stays in bounds.
- `cat.dfy`, module `MascotCat`: class `Cat` with the record's fields. The
  methods `MovementLoop`, `AnimationLoop`, `StopCat` and `Resume` update
  those fields in place, in the handler's order and with its early returns.
  Each is proved to keep `Valid()` and to leave the state that the matching
  `MascotState` function gives.

Randomness comes in through parameters:
- the stop draw (`Math.random() < STOP_CHANCE`) is `stop: bool`;
- the turn draw is `turn: bool`, and the direction drawn is `turnDir`;
- the resume's coin (`Math.random() < 0.5`) is `redirect: bool`, and the
  direction drawn is `dir`.

`RandomDirection` models `getRandomDirection` as a function of the draw
`u ∈ [0, 1)`. It proves that each direction gets the quarter of the interval
given by its row, so a uniform draw gives a uniform direction.

The box numbers come from `src/main.js`:
- the largest legal corner is (208, 128);
- the cat starts at (104, 64);
- a step is 2 pixels.

The boundary test in the code bounces when the next coordinate *reaches* the
wall (`<= 0`, `>= BOX - SPRITE`), not only when it would cross it. The model
follows the code. So a cat walking left bounces at x = 2. It is at x = 0 only
after a random turn, and that is the one case where the clamp changes a
step (`TurnIntoWallIsClamped`, `StraightMoveIsExact`).

## Model

| member | source | states |
|---|---|---|
| Mascot.Info | src/main.js:19-26 | each direction's step is a unit vector along one axis, and its row is its index in the random-choice order |
| Mascot.Name | src/main.js:68-69 | a direction's class name is the name at its row in the list "down", "left", "right", "up" |
| Mascot.NameInjective | src/main.js:26 | different directions have different names |
| Mascot.Opposite | src/main.js:87-95 | the opposite direction is a different one whose step vector is the negation of the given one |
| Mascot.OppositeInvolution | src/main.js:87-95 | taking the opposite twice gives back the direction |
| Mascot.OppositeBijective | src/main.js:87-95 | the opposite map is injective and onto, a permutation of the four directions |
| Mascot.CheckBoundary | src/main.js:98-116 | a bounce is signalled iff the step vector points at a wall and the tentative coordinate on that axis reaches or passes it; the signalled direction is then the opposite one |
| Mascot.BounceIffStepLeavesInterior | src/main.js:98-116 | for a cat inside the box, a bounce happens iff the tentative coordinate on the axis of travel leaves the open interior of that axis |
| Mascot.NoDoubleBounce | src/main.js:98-116 | after a bounce, the boundary test in the new direction from the same place is silent |
| Mascot.SilentBoundaryStepInside | src/main.js:98-116 | when no bounce is signalled, the unclamped step stays inside the box, strictly inside on the axis of travel |
| Mascot.Clamp | src/main.js:166-167 | the clamped coordinate lies in [0, hi], equals the input when that is in range, and is the nearest point of [0, hi] to the input |
| Mascot.RandomDirection | src/main.js:82-84 | the direction drawn for u is the one whose row r has r ≤ 4u < r + 1 |
| Mascot.RandomDirectionSurjective | src/main.js:82-84 | every direction can be drawn |
| MascotState.Initial | src/main.js:29-36 | the start state keeps the invariant, is exactly centred in the legal area, faces down, shows frame 0 and is moving |
| MascotState.AnimationTick | src/main.js:73-79 | while moving, the frame index goes to the next index, wrapping from 3 to 0; while stopped, nothing changes; position, direction and flag never change; the invariant is kept |
| MascotState.Stopped | src/main.js:119-122 | stopping turns movement off and shows the stand frame; position and direction are kept; the invariant holds afterwards |
| MascotState.Resumed | src/main.js:125-131 | resuming turns movement on and keeps position and frame; it takes the drawn direction exactly when the coin says so |
| MascotState.Step | src/main.js:160-167 | the cat lands on the tentative position (one step along its direction) when that is in the box, and otherwise on the in-box point nearest to it on each axis; so it is inside the box whatever the state before; direction, frame and flag are kept; from inside the box, each coordinate moves by at most one step |
| MascotState.MovementTick | src/main.js:135-170 | a tick keeps the invariant, and a tick on a stopped cat changes nothing |
| MascotState.TickEffects | src/main.js:135-167 | exactly one branch is taken. Stop: position and direction kept, stopped on the stand frame. Bounce: position kept, direction reversed. Move: the turned direction, only that axis changes, by at most one step, and the cat lands on the step along the turned direction, or the in-box point nearest to it |
| MascotState.BounceNeverMoves | src/main.js:146-152 | if the position changes in a tick, that tick was a move, never a bounce or a stop |
| MascotState.StraightMoveIsExact | src/main.js:160-167 | on a move without a turn, the clamp does not bind and the cat advances by the full step vector |
| MascotState.TurnIntoWallIsClamped | src/main.js:154-167 | at x = 0 moving up, a turn to the left gives a tentative x below 0, and the clamp keeps the cat at x = 0 |
| MascotState.BounceAtRightWall | src/main.js:106-108 | at the right wall moving right, a tick without a stop sets direction to left and keeps the position |
| MascotState.AnimationCycle | src/main.js:73-79 | while moving, n animation ticks advance the frame index by n modulo 4 and change nothing else |
| MascotState.WalkCycle | src/main.js:15-16 | from frame 0, the displayed frame values run 0, 1, 2, 1 and repeat |
| MascotState.SpriteWalkCycle | src/main.js:69-76 | from frame 0, a moving cat's sprite after n animation ticks shows its direction and frame 0, 1, 2, 1 by n modulo 4 |
| MascotState.AnimationFrozenWhileStopped | src/main.js:73-79 | while stopped, any number of animation ticks leave the state unchanged |
| MascotState.RunKeepsInv | src/main.js:73-170 | every sequence of animation ticks, movement ticks and resumes keeps the invariant |
| MascotState.Reachable | src/main.js:29-36 | every state reachable from the start is inside the box, has a valid frame index, and shows the stand frame when stopped |
| MascotState.FrozenUntilResume | src/main.js:119-138 | once stopped, no sequence of animation and movement ticks without a resume changes the state |
| MascotState.RunKeepsEven | src/main.js:160-167 | with even coordinates at the start, every sequence of handlers keeps both coordinates even |
| MascotState.WalkDown | src/main.js:135-170 | from the start, k ≤ 31 plain movement ticks move the cat down by 2k pixels and change nothing else |
| MascotState.WalkDownThenBounce | src/main.js:109-114 | after 31 plain ticks the cat is at y = 126 facing down; the 32nd tick turns it up without moving |
| MascotState.SpriteOf | src/main.js:62-70 | the sprite shows the cat's direction and a frame value in 0..2; a stopped cat on the stand index shows the stand frame |
| MascotState.SpriteClasses | src/main.js:68-69 | the classes added are the direction's name and a seven-character "frame-" class whose last digit is the frame value |
| MascotState.SpriteClassesInjective | src/main.js:62-70 | two sprites get the same pair of CSS classes iff they are the same sprite |
| MascotCat.Cat.constructor | src/main.js:29-36 | the new record is the start state and is valid |
| MascotCat.Cat.AnimationLoop | src/main.js:73-79 | updates the frame index in place to the state AnimationTick gives, keeping the invariant |
| MascotCat.Cat.StopCat | src/main.js:119-125 | updates the record in place to the state Stopped gives, keeping the invariant |
| MascotCat.Cat.Resume | src/main.js:125-131 | updates the record in place to the state Resumed gives, keeping the invariant |
| MascotCat.Cat.MovementLoop | src/main.js:135-170 | runs the stop, bounce, turn, step and clamp phases in place and leaves the state MovementTick gives, keeping the invariant |

## Left out

- The DOM glue: `init`, the element lookup and its error log, `updatePosition` and the `classList` edits of `updateSprite` (src/main.js:39-70, 173). These only render the state. The sprite is modelled as the pure value `SpriteOf` and the class names as `SpriteClasses`.
- `setInterval`, `setTimeout`, the tick periods and the random stop duration (src/main.js:8-9, 12-13, 51-52, 124-125). Time does not change the state logic. The timer's firing is the event `ResumeFired` and the method `Cat.Resume`.
- `Math.random()`: each draw is an input. `RandomDirection` works on mathematical reals, not IEEE doubles. Multiplying by 4 is exact in binary floating point, so the quarter intervals are the same.
- `Cat.Resume`: the model lets a resume fire at any point, also when the cat is already moving. In the source only a stop schedules it. The invariant is proved for this larger set of interleavings.
- `Mascot.Opposite`: the `default` branch of the switch (src/main.js:93) cannot be reached with a closed four-value direction type.
- `Mascot.Clamp` requires `0 <= hi`, because it is called only with the constant limits 208 and 128.
- The class methods require `Valid()`, the record's invariant. Every state the record can reach satisfies it (`Reachable`).
- Speech bubbles, monologues and clicks: `src/main.js` has no such code.
