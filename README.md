# Extended Wampus World: the game state machine

A Dafny model of the game logic of the one-file pygame game `Wampus.py`.
A player walks a 10 x 10 board. The board holds five pits, a bag of gold
and a Wampus that wanders at random. The player has one arrow, which kills
the Wampus if it is anywhere on the player's row or column. The game ends
when the player steps on a pit, is caught by a live Wampus, or comes back
to cell (0, 0) holding the gold.

Every quantity in the game logic is an integer: grid cells and millisecond
timestamps. The model has four modules:

- `Board` (Board.dfy): cells, the bounds check that both the player and
  the Wampus use, and the Wampus's four directions.
- `Rules` (Rules.dfy): the game as functions on values. It has the `World`
  record and one function per block of the main loop (movement, arrow,
  Wampus timer, gold, end checks). `Tick` and `Frame` are one pass of the
  loop, `NewRound` is `reset_game`, `Initial` is the program start, and
  `Run` is a sequence of passes. The properties are `ensures` clauses of
  these functions, plus lemmas about runs.
- `Entities` (Entities.dfy): the classes `Player`, `Wampus` and `Gold`,
  whose fields the game changes in place. Each `Value()` gives a `Rules`
  record, and each method's new value is a `Rules` function of the old one.
  Pits never change, so they are the `Rules.Pit` datatype.
- `Session` (Session.dfy): the class `Game`, which holds the script's
  module-level state (`player`, `wampus`, `pits`, `gold`, `game_over`,
  `wampus_move_timer`, `game_start`). It has one method per block of the
  loop, then `Tick`, `Frame`, the `while running` loop as `Play`, and
  `reset_game` as `ResetGame`. Each method's new `State()` is the matching
  `Rules` function of the old state. `PitAt` is the pit loop with its
  `break`.

Outside inputs become parameters:

- The clock reading (`pygame.time.get_ticks`) is `now`.
- The frame time (`clock.get_time`) is `elapsed`.
- The held keys (`pygame.key.get_pressed`) are a `Keys` record.
- Whether a key-down event arrived on the start screen is `keyDown`.
- The Wampus's `random.choice` is a `Dir`.
- The `random.randint` placements of `reset_game` are arguments.

On these points the model follows the code as written:

- **No priority among the end checks.** The three end checks each set the
  same `game_over` flag in the same pass (Wampus.py:200-215), and nothing
  records which one fired. The model has no outcome kind and no priority
  order.
- **Every held key applies.** All held direction keys are applied within
  one opening of the 500 ms gate. `last_move_time` is set even when the step
  is refused at the edge of the board (Wampus.py:160-172).
- **Strict timer threshold.** The Wampus timer fires only when it is
  strictly above 1000 ms. It then drops to 0 and loses the remainder
  (Wampus.py:182-185).
- **Reset is partial.** `reset_game` does not touch the Wampus timer or the
  start-screen flag (Wampus.py:92-99, 107-108), so `NewRound` keeps both.
  The script calls it only once, at program start.
- **Winning needs only the gold.** Winning needs the gold and cell (0, 0)
  only. A live Wampus does not prevent it, although the start-screen text
  (Wampus.py:123) also asks the player to kill the Wampus.
- **Up and Down.** Up is row - 1 and Down is row + 1, because
  `Player.move(dx, dy)` adds `dy` to the row (Wampus.py:38-44, 167-172).

`Rules.WellFormed` is the invariant of reachable states. It says:

- every entity is on the board, and there are five pits;
- `gold.collected == player.has_gold`;
- a dead Wampus means the arrow is spent;
- `game_over` implies that an end condition holds;
- `game_over` is never set while the start screen shows;
- the Wampus timer is at most 1000.

`Frame` and `Run` preserve it.

## Model

| member | source | states |
|---|---|---|
| `Board.Step` | Wampus.py:38-44 | the bound-checked step: the target is taken exactly when it is on the board, an off-board target leaves the position unchanged, and a position on the board stays on it |
| `Rules.MoveKeys` | Wampus.py:158-172 | with the gate closed or no arrow key held the player is unchanged; with the gate open and a key held `last_move_time` becomes `now`; the player stays on the board and moves at most one cell per axis; with neither Up nor Down held the row is unchanged, with neither Left nor Right the column; from any cell on the board the new row and column are `AxisAfter` of the old ones, so every held key applies in turn and each is refused only at the edge it would leave (Left then Right at column 0 ends in column 1); away from the edges the new cell is the old one plus down - up rows and right - left columns (dx moves the column, dy the row); arrow and gold flags untouched |
| `Rules.GateOpen` | Wampus.py:49-51 | the gate is shut at the instant `last_move_time` was set and open again when exactly 500 ms have passed |
| `Entities.Player.CanMove` | Wampus.py:49-51 | `can_move(t)` holds exactly when `Rules.GateOpen` does, i.e. when t - `last_move_time` >= 500; it is false at the very time of the last move |
| `Rules.GateScenario` | Wampus.py:49-51 | from `last_move_time = 0` a held left key is refused at t = 400 and taken at t = 500 |
| `Rules.GateClosesAfterMove` | Wampus.py:160-172 | after a gated move at `now`, `can_move(t)` holds exactly when t >= now + 500 |
| `Rules.Shoot` | Wampus.py:174-179 | without space or without the arrow nothing changes; a shot always spends the arrow; the Wampus is dead after it exactly when it was dead before or was alive on the player's row or column; nothing else changes |
| `Rules.WampusMove` | Wampus.py:59-67 | a dead Wampus never moves; `alive` is unchanged; a live one moves at most one orthogonal cell, only in the drawn direction, and stays on the board; a live one whose drawn target is on the board does move there |
| `Rules.AdvanceWampus` | Wampus.py:181-185 | the timer adds the elapsed time; strictly above 1000 the Wampus takes exactly one `move_random` step and the timer is 0, otherwise the Wampus is unchanged and the timer is the sum; the timer never exceeds 1000; nothing else changes |
| `Rules.PickUpGold` | Wampus.py:194-198 | `collected` and `has_gold` only go false to true, and they are set together exactly when the player stands on uncollected gold; nothing else changes |
| `Rules.CheckEnd` | Wampus.py:200-215 | `game_over` becomes true exactly when it was true or the player is on a pit, at (0, 0) with the gold, or on a live Wampus's cell, with no priority among these; nothing else changes |
| `Rules.Tick` | Wampus.py:139-215 | once `game_over` is set the pass changes nothing; otherwise `game_over` afterwards holds iff an end condition holds in the new state (gold picked up and Wampus moved in this pass included); the flags change one way only; the player's cell changes only through an open gate; a shot spends the arrow, without space held the arrow is unchanged, and a shot kills exactly a live Wampus in line with the player's new cell; gold is taken exactly when the player's new cell holds uncollected gold; the invariant is preserved when the start screen is gone (the only case in which the script runs this pass) |
| `Rules.Frame` | Wampus.py:110-219 | on the start screen only a key-down event changes anything, and it clears `game_start`; a finished game past the start screen is frozen; flags change one way only; the invariant is preserved |
| `Rules.NewRound` | Wampus.py:92-99 | `reset_game` places the entities at the given cells, restores the arrow, a live Wampus, uncollected gold, `has_gold = false`, `last_move_time = 0`, clears `game_over`, keeps the timer and start-screen flag, and yields a well-formed state whenever the kept timer is at most 1000 (as it is in every well-formed state) |
| `Rules.Initial` | Wampus.py:101-108 | the program-start state is well-formed, shows the start screen, has a zero timer and fresh entities at the given cells |
| `Rules.Run` | Wampus.py:110-219 | the passes of `while running`, one `Frame` per input: no frames leave the state as it is; every state reached from a well-formed state is well-formed; over any run `collected`, `has_gold` and `game_over` only go false to true, `arrow`, `alive` and `game_start` only go true to false, and the pits and the gold's cell never change |
| `Rules.RunLastFrame` | Wampus.py:110-219 | a run of n + 1 frames is one more `Frame` applied after the run of the first n |
| `Rules.RunFrozen` | Wampus.py:147-156 | from a well-formed finished game no run of passes changes any entity, timer or flag |
| `Rules.SessionEndsOnlyByEndCondition` | Wampus.py:101-219 | in any run from program start, a finished game has an end condition holding and the start screen gone, and player and Wampus are on the board |
| `Session.PitAt` | Wampus.py:200-205 | the pit loop with `break` reports a fall exactly when some pit is on the player's cell |
| `Entities.Player.constructor` | Wampus.py:30-36 | a new player is at the given cell with the arrow, without gold, and `last_move_time = 0` |
| `Entities.Player.Move` | Wampus.py:38-44 | the player's cell becomes `Step(cell, dy, dx)` and nothing else changes |
| `Entities.Wampus.constructor` | Wampus.py:54-57 | a new Wampus is alive at the given cell |
| `Entities.Wampus.MoveRandom` | Wampus.py:59-67 | the Wampus's new value is `WampusMove` of the old one in the given direction |
| `Entities.Gold.constructor` | Wampus.py:82-85 | new gold is uncollected at the given cell |
| `Session.Game.constructor` | Wampus.py:92-108 | the session starts in `Initial` of the given placements, and is well-formed |
| `Session.Game.ResetGame` | Wampus.py:92-99 | the new state is `NewRound` of the old one, with fresh entity objects, and the invariant is kept |
| `Session.Game.HandleMovement` | Wampus.py:158-172 | the player's new value is `MoveKeys` of the old one |
| `Session.Game.ShootArrow` | Wampus.py:174-179 | the new state is `Shoot` of the old one |
| `Session.Game.AdvanceWampusTimer` | Wampus.py:181-185 | the new state is `AdvanceWampus` of the old one |
| `Session.Game.CollectGold` | Wampus.py:194-198 | the new state is `PickUpGold` of the old one |
| `Session.Game.CheckEndConditions` | Wampus.py:200-215 | the new state is `CheckEnd` of the old one |
| `Session.Game.Tick` | Wampus.py:139-219 | the new state is `Rules.Tick` of the old one, on the same entity objects, and the invariant is kept |
| `Session.Game.Frame` | Wampus.py:113-137 | the new state is `Rules.Frame` of the old one: the start screen waits for a key-down event, afterwards `Tick`; the invariant is kept |
| `Session.Game.Play` | Wampus.py:104-110 | the `while running` loop over a sequence of frames ends in `Run` of the initial state and keeps the invariant |

## Left out

- Drawing: the `draw` methods, `screen.fill`, `blit`, `display.flip`, fonts and the instruction text. These are rendering only.
- Event polling and key reading (`pygame.event.get`, `pygame.key.get_pressed`). They are replaced by the `Keys` record and the `keyDown` flag of each frame's `Input`.
- The `running` flag with its QUIT and ESC handling. `Play` runs a finite sequence of frames instead of stopping on those events.
- The clock (`pygame.time.get_ticks`, `clock.get_time`, `clock.tick(60)`). Readings enter as the integer parameters `now` and `elapsed`, unconstrained, so the model does not assume the clock is monotonic.
- `random.randint` and `random.choice`. The placements and the Wampus's direction are arguments, so the model says nothing about their distribution.
- `print` messages, `pygame.init` and `pygame.quit`. These are output only.
- `Player.move_delay` as a per-object attribute. It is never reassigned, so it is the constant `MOVE_DELAY`.
