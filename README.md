# Breakout round rules of the `Game` scene, in Dafny

This project models the round state machine of the Phaser scene `Game` in a
single-level breakout game (`src/scenes/Game.ts`). The scene keeps the
remaining lives, the score, a "ball launched" flag (`gameStarted`), the list
of live blocks and the paddle's x position. Five handlers change that state:

- `init` resets the round.
- `startGame` launches the ball on `pointerdown`.
- `handleTouchMove` moves the paddle on `pointermove`.
- `handleBallCollide` runs on each ball collision. It classifies the body, removes a block, scores a point and detects a win.
- `update` runs once per frame. It detects a ball that fell off the bottom of the screen, takes a life, then either detects a loss or puts the ball back on the paddle.

Everything the engine supplies becomes a parameter: the collided body, the
pointer's x, the ball's y, the paddle's width and the screen's size.

The project has four modules:

- `Blocks` (`blocks.dfy`): the block list, and what `findIndex` and `splice(idx, 1)` do to it.
- `Round` (`round.dfy`): the round state as a value, `Round.State`, and one function per handler. Each function's contract says what the handler does to the state.
- `Play` (`play.dfy`): a round as the engine drives it, a sequence of pointer, collision and frame events. It proves what holds of every such sequence: how score and lives are counted, an invariant kept by every handler, that the end is final, that launching is idempotent, and the win and loss scenarios.
- `Scene` (`scene.dfy`): the class `Scene.Game`. It has the scene's fields and one method per handler, written step by step as the source updates the fields. Each method proves that its fields end up as the matching `Round` function says (`Snapshot() == Round.X(old(Snapshot()), ...)`). So every lemma of `Round` and `Play` also holds of the class. `Scene.StartScene` shows that a constructed scene after `Init` and `Create` is in `Play.Start`, the state the round-level scenarios begin from.

Two fields stand for engine calls:

- `outcome` (`InProgress | Won | Lost`) records the two `scene.start('game-over', ...)` requests: "You Win" at line 116 and "Game Over" at line 126.
- `ballAttached` records the paddle's `attachBall` (true) and `launch` (false).


### Behaviour of the code worth noting

- `startGame` checks only `gameStarted`. It still launches after a game-over request has been made.
- `handleTouchMove` moves the paddle only while the ball is launched; before a launch, and whatever the outcome, `gameStarted` alone decides.
- A collision with a block-tagged object that is no longer in the list still adds a point. The list is left unchanged, and the win test still runs. `Round.CollideWithRemovedBlock` states this. So the score counts block-tagged collisions (`Play.ScoreCountsBlockHits`). It is at least the number of blocks destroyed, not always equal to it (`Play.BlocksOnlyShrink`).
- `update` makes no phase check. Losing is tested with `lives <= 0`, so lives can go below zero if frames keep arriving after the request. Any body without a game object, and any game object not tagged `block` (the ball itself can be `bodyA`), changes nothing.
- The live blocks are an ordered list searched by object identity.

## Model

| member | source | states |
|---|---|---|
| `Blocks.FindIndex` | src/scenes/Game.ts:104 | the result is -1 exactly when the block is absent; otherwise it is a position holding the block with no earlier occurrence |
| `Blocks.RemoveFirst` | src/scenes/Game.ts:104-107 | an absent block leaves the list as it is; a present one shortens it by exactly one |
| `Blocks.RemoveFirstMultiset` | src/scenes/Game.ts:104-107 | as a bag, the new list is the old one minus one copy of the block |
| `Blocks.RemoveFirstDropsFirstOccurrence` | src/scenes/Game.ts:104-107 | the element removed is the first occurrence, and the blocks before and after it keep their order |
| `Blocks.RemoveFirstKeepsOthers` | src/scenes/Game.ts:104-107 | every other block is on the new list exactly when it was on the old one |
| `Round.IsBlock` | src/scenes/Game.ts:94-102 | a body counts as a block exactly when it has a game object whose `type` data is "block"; a body without a game object never does |
| `Round.Clamp` | src/scenes/Game.ts:87 | `Phaser.Math.Clamp`: the result is never below the lower bound and, when the bounds are ordered, never above the upper one; a value already within the bounds is returned unchanged; when the bounds are ordered, a value outside goes to the nearer bound, otherwise the result is the lower bound |
| `Round.Init` | src/scenes/Game.ts:20-24 | lives 3, score 0, not launched, no game-over request; blocks, paddle and ball attachment untouched |
| `Round.InitForgetsRound` | src/scenes/Game.ts:20-24 | `init` gives the same state whatever lives, score, flag and outcome the previous round left |
| `Round.StartGame` | src/scenes/Game.ts:78-83 | afterwards the ball is launched; an already launched ball makes it change nothing; otherwise it sets the flag and detaches the ball and changes nothing else |
| `Round.StartGameIdempotent` | src/scenes/Game.ts:78-83 | calling `startGame` twice is the same as calling it once |
| `Round.TouchMove` | src/scenes/Game.ts:85-89 | only `paddleX` can change; before launch it does not; once launched it is exactly `Clamp(x, w/2, width - w/2)`, so when the paddle fits the screen it lies in `[w/2, width - w/2]` and equals the pointer's x whenever that is within those bounds |
| `Round.Collide` | src/scenes/Game.ts:91-118 | a non-block body changes nothing; a block body removes the first occurrence of that block (`RemoveFirst`) and adds exactly 1 to the score; only score, blocks and outcome change; an empty list after a block hit means `Won`; the outcome never becomes `Won` while blocks remain |
| `Round.CollideWithRemovedBlock` | src/scenes/Game.ts:104-117 | a hit on a block that is no longer listed, while others remain, changes only the score, by one |
| `Round.HitFront` | src/scenes/Game.ts:104-117 | a hit on the block at the front of the list removes just that block and wins when it was the last one |
| `Round.TwoDistinctHits` | src/scenes/Game.ts:104-112 | two hits on two distinct listed blocks score 2 and remove two blocks, one of each |
| `Round.Update` | src/scenes/Game.ts:120-134 | a ball at or above `height + 100` changes nothing; below it, lives drop by exactly 1, and then either the lives are `<= 0` and the outcome is `Lost` with flag and attachment untouched, or the ball is reattached, the launch re-armed and the outcome kept; score, blocks and paddle never change |
| `Play.Step` | src/scenes/Game.ts:73-75 | each engine event goes to the handler the scene registers for it (and each frame to the scene's `update`): `pointerdown` to `startGame`, `pointermove` to `handleTouchMove`, a ball collision to `handleBallCollide`, a frame to `update` |
| `Play.Start` | src/scenes/Game.ts:20-62 | the state after `init` and `create` is consistent, with 3 lives, score 0, ball not launched and the level's blocks |
| `Play.StepKeepsConsistent` | src/scenes/Game.ts:78-134 | each handler keeps the invariant: `Lost` only with no lives, `Won` only with no blocks, no lives only after a game-over request, and the ball is attached exactly when not launched |
| `Play.RunKeepsConsistent` | src/scenes/Game.ts:78-134 | the invariant holds after any sequence of events |
| `Play.ScoreCountsBlockHits` | src/scenes/Game.ts:104-113 | after any events, the score has grown by exactly the number of block-tagged collisions, so it never decreases |
| `Play.LivesCountFalls` | src/scenes/Game.ts:120-123 | after any events, lives have dropped by exactly the number of frames with the ball below the margin, so they never increase |
| `Play.StepOnlyShrinks` | src/scenes/Game.ts:104-107 | one event removes at most one block, only on a block-tagged collision, and adds none |
| `Play.BlocksOnlyShrink` | src/scenes/Game.ts:104-112 | after any events, the blocks are a sub-bag of the original ones, and the number destroyed is at most the points scored |
| `Play.EndIsFinal` | src/scenes/Game.ts:115-128 | once a game-over screen has been requested, no sequence of events returns the round to in-progress |
| `Play.LaunchIdempotent` | src/scenes/Game.ts:78-83 | two `pointerdown` events in a row have the effect of one |
| `Play.ThreeFallsLose` | src/scenes/Game.ts:120-134 | from a fresh round, launching and losing the ball three times gives 0 lives, `Lost` and score 0 |
| `Play.FallThenRelaunch` | src/scenes/Game.ts:120-134 | losing the ball with 3 lives leaves 2, reattaches the ball and re-arms the launch, and the next `pointerdown` launches again |
| `Play.ThreeHitsWin` | src/scenes/Game.ts:104-117 | from a fresh round on any three block ids, repeats included, launching and hitting each listed block once, front to back, gives score 3, no blocks and `Won` |
| `Scene.Game.constructor` | src/scenes/Game.ts:10-14 | the field initialisers: 3 lives, score 0, no blocks, not launched |
| `Scene.Game.Init` | src/scenes/Game.ts:20-24 | resets lives, score and flag in place, leaves blocks and paddle alone, and agrees with `Round.Init` |
| `Scene.Game.Create` | src/scenes/Game.ts:34-62 | the level's blocks become the list, the paddle is centred at `width / 2` and the ball is attached; the round fields are untouched |
| `Scene.Game.StartGame` | src/scenes/Game.ts:78-83 | sets the flag and launches only when not yet launched, changes nothing else, and agrees with `Round.StartGame` |
| `Scene.Game.HandleTouchMove` | src/scenes/Game.ts:85-89 | once launched, the paddle is clamped into the screen; otherwise it is unchanged; it agrees with `Round.TouchMove` |
| `Scene.Game.HandleBallCollide` | src/scenes/Game.ts:91-102 | the two early returns, then the block branch; the new fields are exactly `Round.Collide` of the old ones |
| `Scene.Game.HitBlock` | src/scenes/Game.ts:104-117 | splices out the first matching block, adds 1 to the score, asks for `Won` on an empty list and keeps the outcome otherwise; nothing else changes |
| `Scene.Game.Update` | src/scenes/Game.ts:120-134 | takes one life for a ball below `height + 100`, then loses the round or reattaches the ball and re-arms the launch; agrees with `Round.Update` |
| `Scene.StartScene` | src/scenes/Game.ts:10-62 | a new scene after `init` and `create` holds exactly `Play.Start` of the level's blocks with the paddle at `width / 2` |
| `Scene.TwoBlockWin` | src/scenes/Game.ts:104-117 | a scene started on a two-block level, launched and hit on both blocks ends `Won` with score 2, no blocks and 3 lives |

## Left out

- Loading the `level1` tilemap and creating blocks from its layer (lines 29-44), including the half-tile offset of each block's position: this is asset loading. The level's block identities are a parameter of `Scene.Game.Create`.
- The random tint of each block (line 42): presentation only, and nondeterministic.
- The Matter.js body setup for the ball and paddle (lines 46-60): circle radius, infinite inertia, friction, bounce, chamfer. This is physics-engine configuration with floating-point motion. The ball's y is a parameter of `update`, and bounces off walls and the paddle are left to the engine.
- The `Paddle` class (its `attachBall` and `launch`): `src/game/Paddle.ts` is not part of this model. Their effect is recorded in `ballAttached` only.
- The text labels, the sound and `goA.destroy(true)` (lines 64-71, 109-113, 123): rendering, audio and engine object lifetime.
- Event wiring through `setOnCollide` and `input.on` (lines 73-75): the model calls the handlers directly. Only `bodyA` of a collision is looked at, as in the source.
- The scene change made by `scene.start('game-over', ...)`: it is recorded in `outcome`. The model does not stop the scene, so handlers can still be called afterwards, as they can until the engine processes the request. `Init` clears `outcome`, because a new run of the scene starts with `init`.
- Round.TouchMove: coordinates are integers, and the paddle's half-width `paddle.width / 2` is rounded down. The source keeps a fractional bound for odd widths, and the pointer's x is fractional too.
- Scene.Game.HandleTouchMove: the same integer rounding of the half-width as `Round.TouchMove`.
- Round.Update: the ball's y is an integer; a fractional y compares with `height + 100` the way its ceiling does.
- Scene.Game.Create: `width * 0.5` is rounded down to an integer for odd screen widths. The paddle's y (`height * 0.9`) and the ball's starting position are not modelled.
- Scene.Game.HandleBallCollide: its contract is stated only as agreement with `Round.Collide`. The field-by-field consequences are in `Round.Collide`'s contract and in `Scene.Game.HitBlock`'s.
- A game object without `type` data: it is modelled as a game object whose tag is any string other than `block`.
