# Staircase game: lane generator and move state machine

A model of the logic of a one-screen staircase game (`js/main.js`). The
character stands on a zig-zag staircase. On each move the player either keeps
the facing direction ("forward") or reverses it ("turn"). The move succeeds
when that direction is the side the next step lies on.

The model has three modules:

- `Lane` (`lane.dfy`): `getNextColumnIndex` as `NextColumn`, and the walk of
  columns that the reset loop produces (`ColumnAt`).
- `Window` (`window.dfy`): the step record, the game's constants (`Config`),
  and the window invariant `WindowOK`. It also holds pure definitions of the
  window built at reset (`InitialWindow`) and of the window after one shift
  (`Shifted`), with the lemmas that both keep the invariant.
- `Game` (`game.dfy`): the session class with the module globals of the page
  as fields (`steps`, `score`, `dir` for `currentDir`, `stepsCreated`,
  `gameFinished`) plus `failed`, which stands for the game-over overlay being
  shown. `createStep`, `resetSteps`, `shiftSteps`, `move` and `resetGame` are
  its methods. The `forEach` that moves every step down is a loop that
  updates `steps` in place.

The step a character stands on always has ordinal `score`: every accepted move
shifts the window, and a shift of a valid window always drops the front step,
because that step sat at `baseY`. So the ordinal of `steps[i]` is
`score + i`, and no ordinal is stored in the step record. `NewStep` is the
record that `createStep` builds, marked as the goal when the count of steps
created so far equals `goalSteps`. That the mark sits on ordinal `goalSteps`
and nowhere else, in every window, is the last clause of `Laid`: it is proved
for the reset window by `InitialWindowOK` and kept by each push by
`AppendKeepsLaid`. The goal step is the current step exactly when
`score == goalSteps`. `Move` therefore proves that a move that finishes the
game leaves only the goal step in the window.

Randomness is passed as parameters:
- `rightward: bool` is the `Math.random() > 0.5` draw of one `getNextColumnIndex` call.
- `first` is the random first column, which must lie in `[0, columns)`.
- `draws` is the sequence of draws used by the reset loop, one per iteration.

The constants `columns`, `stepsVisible`, `goalSteps`, `stepGap` and `baseY`
are parameters of the session (`Config`). The shipped values are 7, 9, 30 and
56 (js/main.js:13-20). For `baseY`, `Shipped` takes the page's initial value
560 (js/main.js:18). That value is only the initial one: the first
`resetGame` replaces it with `computeBaseY()` before any step is built
(js/main.js:117, 255). The model requires `columns >= 2` and `stepGap > 0`.
Positions are integers.

`Game.FirstMoveScenarios` is a worked example on the shipped configuration.
It starts in column 3 with every draw rightward. A forward first move is a
jump that scores 1. A turn as the first move is a fall, and the character
ends up facing left.

## Model

| member | source | states |
|---|---|---|
| `Lane.NextColumn` | js/main.js:101-108 | The result is on the track. From an in-track column it is exactly one column away. From column 0 it is 1 and from `columns - 1` it is `columns - 2`, whatever the draw. Between the edges it follows the draw. |
| `Lane.ColumnAt` | js/main.js:119-123 | The column walk of the reset loop starts at the first column and never leaves the track. |
| `Window.InitialLength` | js/main.js:120 | The reset loop runs `min(stepsVisible, goalSteps + 1)` times. |
| `Window.InitialWindow` | js/main.js:118-124 | The initial window has one step per loop iteration. |
| `Window.InitialWindowAt` | js/main.js:118-124 | Step `i` of the initial window has column `ColumnAt(i)`, height `Height(i)` (`baseY - i * stepGap` by `HeightClosed`), and is the goal exactly when `i == goalSteps`. |
| `Window.InitialWindowOK` | js/main.js:110-126 | The initial window holds ordinals `0 .. len-1`, with `len = min(stepsVisible, goalSteps + 1)`. Its first step is at `baseY` and each later step is `stepGap` higher. Its columns are on the track and one apart. Only the goal ordinal is marked as goal. |
| `Window.MinYIsMinimum` | js/main.js:170 | `topY` (`MinY`) is a lower bound of every step's `y` and is the `y` of some step. |
| `Window.Raise` | js/main.js:159-162 | Moving every step down keeps the number of steps. |
| `Window.RaiseAt` | js/main.js:159-162 | After the `forEach` (`Raise`), every step is exactly one gap lower and otherwise unchanged. |
| `Window.Evicted` | js/main.js:164-168 | Eviction leaves the window as it is or drops exactly its front step. It drops it exactly when the front step is at least one gap below `baseY`. |
| `Window.Appended` | js/main.js:170-176 | The old window is a prefix of the new one. One step is added exactly when `stepsCreated <= goalSteps`. On a track of at least two columns, when the last step is on the track, the added step is on the track and one column from the last step. |
| `Window.HeightClosed` | js/main.js:118-122 | The `y` of the step `i` places up is `baseY - i * stepGap`. |
| `Window.HeightDecreases` | js/main.js:118-122 | Steps further up the window are never lower on screen. |
| `Window.TopIsLast` | js/main.js:170-171 | In a laid-out window, `topY` is the `y` of the last step. |
| `Window.EvictionDropsFront` | js/main.js:164-168 | Moving a laid-out window down always evicts its front step. What stays is the old steps from the second on, laid out again from the next ordinal. |
| `Window.AppendKeepsLaid` | js/main.js:170-176 | Pushing the new step keeps the window laid out and keeps the old steps as a prefix. It adds one step exactly when `stepsCreated <= goalSteps`. |
| `Window.KeptShape` | js/main.js:159-168 | After moving down and evicting, the window holds the old steps from the second on when the front step was evicted, and from the first on otherwise. Each is one gap lower. The last step's column is kept. |
| `Window.ShiftedShape` | js/main.js:158-177 | For any window of at least two steps, `Shifted` is what `shiftSteps` leaves (`ShiftOutcome`): each retained step is one gap lower. Only the front step can be removed, exactly when its new `y` is `>= baseY + stepGap`. One step is appended exactly when `stepsCreated <= goalSteps`, in column `NextColumn` of the last step's and one gap above the topmost step that stays. |
| `Window.ShiftMovesSteps` | js/main.js:158-177 | On a valid window the shift always drops the front step and moves the rest down one gap. The length stays the same exactly when a step is appended. |
| `Window.ShiftKeepsWindow` | js/main.js:158-177 | A shift keeps the window invariant with the current ordinal one further on, and `stepsCreated` grows by one exactly when a step was created. |
| `Game.Intended` | js/main.js:190-193 | The intended direction differs from the facing exactly when the action is a turn. |
| `Game.Required` | js/main.js:195 | The required direction is right when the next column is one greater, and left when it is one less. |
| `Game.Session.CreateStep` | js/main.js:65-99 | The new step has the given column and `y`. It is the goal exactly when the old `stepsCreated` equals `goalSteps`, so it is the `NewStep` record for that count. `stepsCreated` grows by exactly 1. |
| `Game.Session.ResetSteps` | js/main.js:110-126 | The window becomes the initial window. `stepsCreated` equals its length, which is `min(stepsVisible, goalSteps + 1)`. The facing is right. The window invariant holds with the current ordinal 0. |
| `Game.Session.RaiseSteps` | js/main.js:159-162 | The in-place loop leaves every step one gap lower (`Raise`). |
| `Game.Session.EvictFront` | js/main.js:164-168 | Only the front step is dropped, and only when it is at least one gap below `baseY`. |
| `Game.Session.AppendStep` | js/main.js:170-176 | The new window is `Appended` of the old one: one step is pushed exactly when `stepsCreated <= goalSteps`, one gap above the top and, when the last step is on the track, one column from it. |
| `Game.Session.ShiftSteps` | js/main.js:158-177 | The new window and `stepsCreated` are those of `Shifted` and `CreatedAfterShift`. |
| `Game.Session.Move` | js/main.js:179-235 | With the game finished, failed, or no `steps[1]`, nothing changes. A wrong direction turns the character to the intended side and fails the game. Score, window and `stepsCreated` stay unchanged. A right direction turns the character to the required side, shifts the window and adds 1 to the score. The game finishes exactly when the score reaches `goalSteps`, and then only the goal step is left. The score never decreases and never exceeds `goalSteps`. The session invariant is kept. |
| `Game.Session.ResetGame` | js/main.js:237-249 | From any state: score 0, not finished, no overlay, facing right, a fresh initial window, and the invariant holds. |
| `Game.Session.constructor` | js/main.js:30-38 | The page load sets the globals and resets the game (line 255). The result is a valid new game with the given constants. |

## Left out

- DOM element lookups, rendering, CSS classes and the goal frame and star
  overlay (js/main.js:1-11, 40-63, 79-95, 130, 133-156) are presentation only.
  `goalStep` and `frameWrapEl` are only used for drawing and are not modelled.
- The step image choice (js/main.js:68) is a random pick that only affects drawing.
- The pixel `x` of a step, `columnX`, `computeColumns` and `computeBaseY` use
  floating-point layout. `baseY` is a fixed integer of the configuration. It is
  not recomputed at reset.
- The resize handler (js/main.js:257-261) recomputes `baseY` mid-game. It is
  left out because it breaks the window geometry.
- `busy` and the `setTimeout` callbacks (js/main.js:201-207, 222-234) are left
  out. `busy` is taken as false between moves. The overlay is taken as shown at
  once on a fall: `failed` is set inside `Move`, because in the source every
  move in between is turned away by `busy` anyway. That does not hold for
  `resetGame`, which `busy` does not gate (js/main.js:237-249). A reset within
  the 520 ms fall delay is followed by the pending callback, which shows
  "Game Over" over the new game and clears `busy` (js/main.js:201-207). In the
  same way, a reset within the 900 ms success delay is followed by the
  "Mission Success" overlay over the new game, and `busy` is cleared
  (js/main.js:222-228). The model has neither race.
- Event wiring (js/main.js:251-253) is not modelled. `Move` takes the action
  directly, as a two-valued datatype for `"turn"` and `"forward"`.
- `Math.random` is not modelled. Its draws are parameters. The draw that
  `shiftSteps` takes when no step is added is ignored, as in the source.
- The reset loop's draws are a sequence with one draw per iteration
  (`|draws| >= stepsVisible`). A finite sequence stands for the unbounded random source.
- Configurations with `columns < 2` or `stepGap <= 0` are excluded by `Config.Ok`.
  The source's constants are 7 and 56.
- `goalSteps == 0` is allowed. The game then starts on the goal step while not
  finished, and no move has any effect, as in the source.
- Game.Required: its contract gives the direction only for a next column one
  away from the current one. That is the only case a lane produces
  (`NextColumn`, `WindowOK`). The definition itself follows the source's
  `>` comparison for every input.
