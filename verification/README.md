# LS20 puzzle rules in Dafny

This project models the rules of the LS20 puzzle scene of a small browser game selector
(`LS20Scene` in `game.js`). The board is a 64×64 grid. The player is two cells tall: its top half
stands on `(x, y)` and its bottom half on `(x, y+1)`. A level has rectangular walls `[x, y, w, h]`
and goal cells. Each move costs one unit of a 22-move budget. Running out of budget costs one of
three lives. Losing the last life restarts the scene. Landing on a goal advances to the next level,
or returns to the selector after the last level.

Modules:

- `Board` (`board.dfy`) holds cells, walls and levels, and `Fits`, the footprint statement of
  where the player may stand. It also holds `CanMoveTo`, the scene's own bounds-then-walls loop,
  proved to decide exactly `Fits`.
- `Scene` (`scene.dfy`) holds an immutable `GameState` and one pure function per transition:
  `Create`, `LoadLevel`, `Update` (one frame of input), `MovePlayer`, `LoseLife`, `GameOver`,
  `CheckWin`, `Settle` (a delayed callback firing), `Leave` (ESC) and `Launch` (the selector
  starting the scene). `Step` and `Run` apply events.
- `Safety` (`safety.dfy`) holds the state invariant `Inv` and proves that every transition keeps it.
- `Shipped` (`shipped.dfy`) holds the level table the scene builds in `create()`, and facts about it.
  Every goal lies inside a wall, so the shipped game can never be won. Twenty-two presses of
  "down" from the start cost exactly one life.

The scene's input flag `canMove` is not a separate field. It is `phase == Playing`. The phase is
one of `Playing`, `WinPending`, `GameOverPending` or `InMenu`. The two timed callbacks that
change state (the level advance after a win, the restart after game over) become the pending
phases. The `Timer` event resolves them through `Settle`. The callback scheduled by `loseLife`
only redraws. Its state reset happens at once, so it has no phase.

The level table is a parameter `levels` of every transition that reads level data. `create()` rebuilds the same literal
each time, so the table is constant while the game runs. `Shipped.Levels` is that literal. The
general lemmas hold for every table that `Safety.WellFormed` accepts.

The model follows the code as written:

- The budget check runs before the goal check (game.js:273-278). A move that spends the last unit
  of budget costs a life even when it lands on a goal.
- After a life is lost, the player is reset at once and input stays enabled (game.js:292-301).
- The footprint is 1×2 cells and the step is one cell per axis (game.js:262-263, 315-320).
- Right overrides left and down overrides up (game.js:251-254). A frame may carry both a
  horizontal and a vertical step, which gives a diagonal move. Only the destination is checked
  (game.js:262-265).
- `loadLevel` resets lives to 3 as well as the budget, so advancing a level restores lives
  (game.js:130-131).

## Model

| member | source | states |
|---|---|---|
| Board.CanMoveTo | game.js:314-323 | the bounds check `0 <= x < 64`, `0 <= y < 63`, followed by the wall loop, accepts exactly the positions where both footprint cells are on the grid and no wall covers either (`Fits`) |
| Board.CoveredCellRejected | game.js:318-321 | a cell covered by a wall can hold neither the top nor the bottom half of the player |
| Scene.DeltaX | game.js:249-252 | the horizontal step is 1 exactly when right is pressed, -1 exactly when left is pressed without right, else 0 |
| Scene.DeltaY | game.js:253-254 | the vertical step is 1 exactly when down is pressed, -1 exactly when up is pressed without down, else 0 |
| Scene.LoadLevel | game.js:125-133 | loading level `index` puts the scene on that level with 3 lives, 22 moves, the player at that level's spawn and input on (both callers enable input first, game.js:101 and 335) |
| Scene.Create | game.js:96-122 | the scene starts on level 0 with 3 lives, 22 moves, input enabled and the player at the first level's spawn |
| Scene.GameOver | game.js:305-311 | game over locks input and starts the restart pause (resolved by `Settle`, game.js:309-310), changing nothing else |
| Scene.LoseLife | game.js:284-303 | one life is taken and the level is kept; with lives left the player is back at the spawn with 22 moves and the phase is unchanged; at zero lives the game-over pause starts and position and budget stay |
| Scene.CheckWin | game.js:325-344 | the win pause starts exactly when the player stands on a goal of the current level; otherwise nothing changes |
| Scene.MovePlayer | game.js:261-282 | a move to a destination that does not fit changes nothing; an accepted move with budget left commits the destination, spends exactly one move, keeps lives, and starts the win pause exactly on a goal; a move that spends the last move costs a life instead of checking goals |
| Scene.BudgetCheckedBeforeGoal | game.js:273-278 | a move that spends the last unit of budget never starts the win pause and always takes a life |
| Scene.Update | game.js:246-259 | a frame is ignored while input is locked or when no direction is pressed; otherwise it is the move selected by the keys |
| Scene.Settle | game.js:332-340 | after a win the level index goes up by one and either the next level loads fresh (3 lives, 22 moves, spawn, input on) or the scene returns to the selector with lives, budget and position untouched; after game over the scene restarts on level 0 (the restart at game.js:309-310); with nothing pending nothing changes |
| Scene.Leave | game.js:114-117 | ESC hands control to the selector and changes nothing else |
| Scene.Launch | game.js:62-63 | starting the scene from the selector runs its creation afresh: level 0, 3 lives, 22 moves, input on, player at the first spawn; while it runs, this event changes nothing |
| Scene.Step | game.js:333-338 | every event keeps the level index within the table (below its length while the scene runs), and the index never decreases except by a full restart |
| Safety.LoadLevelEstablishesInv | game.js:125-133 | loading any level of a well-formed table gives a state that satisfies the invariant, with input on |
| Safety.MovePreservesInv | game.js:261-268 | a move from a valid playing state keeps the player where it fits and the counters in range, because only a validated destination is committed |
| Safety.StepPreservesInv | game.js:246-259 | every event (frame, timer, ESC, launch) preserves the invariant |
| Safety.RunPreservesInv | game.js:246-259 | any sequence of events preserves the invariant |
| Safety.ReachableStatesSafe | game.js:96-101 | from creation, whatever happens, the player is never off the grid or in a wall while the scene runs, 0 <= lives <= 3, 0 <= moves <= 22, and while playing at least one move and one life remain |
| Safety.LockedFramesIgnored | game.js:247 | while input is locked, no sequence of key presses changes the state |
| Shipped.LevelsWellFormed | game.js:104-112 | the shipped spawn (0,18) is a place the player fits |
| Shipped.GoalsInsideWalls | game.js:107-110 | each shipped goal (7,4), (10,10), (13,16) lies inside a wall, so the collision test rejects it |
| Shipped.NeverWon | game.js:319 | from any unwon valid state of the shipped game, no sequence of events reaches the win pause or leaves level 0 |
| Shipped.ShippedGameNeverWon | game.js:104-112 | the shipped game, played in any way from its creation, never wins: only life loss and game over are reachable |
| Shipped.DownPresses | game.js:261-268 | in the wall-free column 0 each press of down moves one row and spends one move while budget remains |
| Shipped.TwentyTwoDownPresses | game.js:273-295 | 22 presses of down from the start cost exactly one life and leave the player at the spawn with 22 moves |

## Left out

- Tones (`playTone`, game.js:3-15): audio through the browser's oscillator API. The blocked-move
  tone (game.js:280) is the only sign that a move was rejected. The model does not tell a rejected
  move apart from a frame with no key pressed: both leave the state unchanged.
- All drawing: the grid, walls and goals in `loadLevel`, plus `drawPlayer`, `drawLives` and
  `drawMoves` (game.js:126-185, 188-244). The grey squares of the move bar are
  `MaxMoves - movesLeft`, which `Inv` keeps within `0 .. 22`.
- The selector, the placeholder scene and the engine configuration (game.js:18-84, 348-413).
  These hold no puzzle rules. The selector appears only as the `InMenu` phase and the `Launch` event.
- Keyboard polling: each direction is one boolean per frame. It stands for "the arrow key or its
  letter key was just pressed". The engine's just-pressed bookkeeping is not modelled.
- Real time: the 800 ms and 1000 ms delays become the pending phases and the `Timer` event.
  The 500 ms redraw after a life is lost has no effect on state.
- Scene.Leave: when the scene stops, the engine drops pending callbacks. The model states this
  by moving to `InMenu`, where `Settle` does nothing. Engine internals are not modelled.
