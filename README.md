# Sequence memory game: a Dafny model of the game engine

The game shows a growing sequence of flashing tiles and the player repeats it
by tapping tiles in order. All of its logic lives in one React component,
`h/src/App.js`. This project models that engine:

- the progression policy (`progression.dfy`, module `Progression`): grid side
  per level and difficulty, the four tile palettes, and reveal timing;
- input validation (`validation.dfy`, module `Validation`): how one tap is
  judged, and what a run of taps within a level yields;
- the component (`game.dfy`, module `Game`): phases, the high-score store keyed
  by difficulty, the touch/click filter, sequence generation, the timed
  reveal, and the class `SequenceMemoryGame`. The class holds the component's
  fields. Its methods are the event handlers and timer callbacks.

Timers become explicit steps. `StartGame` and `NextLevel` return a `Deal`
(the level, the number of ids to draw from, the pause) that their scheduled
deal captured; a `LevelComplete` verdict of `HandleColorClick` stands for the
`NextLevel` it schedules, which the environment calls as its own step. The environment later
calls `DealSequence` with that value. The end of a reveal is the separate
step `FinishReveal`, so taps made during a reveal meet the guard. Randomness
is an injected chooser `rng: nat -> nat`; `Math.floor(Math.random() * k)`
becomes `rng(i) % k`. `DrawnReachesEverySequence` shows that every sequence
of ids below `k`, repeats included, can be drawn. Clock readings arrive
inside the pointer event. Reveal durations are integers: `Timing.doubleBefore`
holds twice the pre-delay in milliseconds, because easy and medium halve a
speed that may be odd (125 ms gives 62.5 ms). Hardest keeps its literal 37 ms
and 75 ms, so there the pre-delay is not half the lit time.

Behaviours of the code worth knowing, all kept in the model:

- Taps are not ignored after a completed level. The state stays playing until
  the next reveal starts. An extra tap meets an index past the end of the
  sequence and ends the game (`ReplayOverTap`, `OverTapScenario`).
- Taps made after `NextLevel` has cleared the input are still judged against
  the old sequence, until the deal replaces it.
- The 300 ms `nextLevel` timer and the deal timers are never cancelled (only
  the countdown timer is cleared, by its effect's cleanup). A deal runs from
  whatever phase the game is in, even after a game over (`DealSequence`,
  `StaleDealScenario`).
  So the input can be longer than the sequence, or out of step with it.
- The level recorded at game over is the level being attempted when the
  player failed, not the last one completed.
- The empty difficulty `''` (`Unset`) uses the hardest timing and never
  reaches the 5x5 grid.

## Model

| member | source | states |
|---|---|---|
| `Progression.GridLevel` | h/src/App.js:98-105 | the grid side is always 2..5, and 5 only with a chosen difficulty past level 10 |
| `Progression.FirstFiveByFive` | h/src/App.js:99-101 | the 5x5 grid starts at level 11 (hardest), 16 (hard) or 18 (medium, easy) |
| `Progression.GridBands` | h/src/App.js:98-105 | 2 up to level 3, 3 for 4..7, 4 from 8 until the difficulty's 5x5 level, 5 from then on |
| `Progression.GridMonotone` | h/src/App.js:98-105 | for a fixed difficulty the grid never shrinks as the level rises |
| `Progression.HarderGridNotSmaller` | h/src/App.js:98-105 | a harder difficulty shows a grid at least as large at every level and unlocks 5x5 no later |
| `Progression.UnsetGridSmallest` | h/src/App.js:98-105 | without a difficulty the grid is never above 4 nor above any difficulty's |
| `Progression.UpgradeLevels` | h/src/App.js:329-359 | the grid grows between two levels exactly when the new level is 4, 8 or the difficulty's 5x5 level, the levels that get an upgrade message |
| `Progression.Palette` | h/src/App.js:28-108 | the palette for side g has g*g tiles whose ids are 0..g*g-1; other sides fall back to the 2x2 palette |
| `Progression.MaxColors` | h/src/App.js:364 | the draw bound is between 4 and 25 |
| `Progression.MaxColorsIsPaletteSize` | h/src/App.js:363-364 | the draw bound equals the palette size for every side, so every drawn id names a rendered tile |
| `Progression.FirstLevelDrawsFromFour` | h/src/App.js:264 | the first draw from 4 ids matches the 2x2 grid of level 1 for every difficulty |
| `Progression.CalculateSpeed` | h/src/App.js:127-137 | base speed up to level 10; above it at least 125 ms, and either 50 ms or more below the base or at the floor; never above a base of at least 125 |
| `Progression.SpeedDropsEveryFiveLevels` | h/src/App.js:130-136 | past level 10 every five further levels take another 50 ms off, floored at 125 |
| `Progression.SpeedFirstDrop` | h/src/App.js:131-133 | levels 11..14 already run 50 ms faster than the base (floored) |
| `Progression.SpeedSecondDrop` | h/src/App.js:131-133 | levels 15..19 run 100 ms faster than the base (floored); with the five-level step this fixes every level |
| `Progression.SpeedNonIncreasing` | h/src/App.js:127-137 | with a base of at least 125 the speed never rises with the level |
| `Progression.RevealTiming` | h/src/App.js:139-156 | easy and medium light for the slow-tier speed from 400 and 250 ms at that level; hard for 100 ms; the pre-delay is half the lit time for easy, medium and hard; hardest and no difficulty give 37 ms and 75 ms; never above 400 ms |
| `Progression.TimingBands` | h/src/App.js:142-152 | easy stays within 125..400 ms and medium within 125..250 ms, at their base up to level 10; hard is 50 ms and 100 ms |
| `Progression.HarderIsFaster` | h/src/App.js:142-156 | at a fixed level a harder difficulty never lights a tile longer |
| `Progression.TimingNonIncreasing` | h/src/App.js:142-156 | for a fixed difficulty neither duration grows with the level |
| `Validation.Judge` | h/src/App.js:310-324 | never Ignored; Mismatch exactly when the tap is past the end or differs from the sequence at its index; LevelComplete exactly when it matches at the last index; Continue exactly when it matches at an earlier index |
| `Validation.JudgeMeaning` | h/src/App.js:310-324 | when earlier taps matched: complete iff the input equals the sequence, continue iff it is a proper initial part, mismatch iff it is not an initial part |
| `Validation.Replay` | h/src/App.js:283-325 | successive taps with no timer firing in between give one verdict each; the first tap is never ignored, and after a mismatch every later tap is ignored |
| `Validation.ReplayWholeSequence` | h/src/App.js:307-324 | tapping the exact sequence gives Continue on every tap but the last and LevelComplete on the last |
| `Validation.ReplayDiverges` | h/src/App.js:307-316 | taps that first differ at index k give Continue before k and Mismatch at k; every later tap is ignored |
| `Validation.TapPastTheEnd` | h/src/App.js:311-312 | with the whole sequence entered, the next tap is a mismatch |
| `Validation.ReplayOverTap` | h/src/App.js:284-324 | one tap beyond a completed sequence is still judged and ends the game right after LevelComplete |
| `Game.Edge` | h/src/App.js:217-260 | the phase changes of the ordinary flow (screen buttons, countdown, reveal, tap, next deal from playing or game over); none stays in place or returns home, and playing leads only to game over or the next reveal. A stale deal entering Showing from another phase, and `FinishReveal` from any phase, are outside it |
| `Game.StorageKey` | h/src/App.js:112 | the key is the fixed prefix followed by exactly the difficulty name, longer than the prefix exactly for a chosen difficulty |
| `Game.StorageKeysDistinct` | h/src/App.js:112 | different difficulties store their best levels under different keys |
| `Game.LoadHighScore` | h/src/App.js:111-118 | the stored value for the difficulty's key, and 0 when there is none |
| `Game.NewBest` | h/src/App.js:380-385 | the best level after a game over is the larger of the old best and the level; it changes iff the level strictly exceeds it |
| `Game.Dedup` | h/src/App.js:291-300 | only a click within 500 ms of the last touch is dropped; only a touch moves the last-touch time |
| `Game.TouchThenClickCountsOnce` | h/src/App.js:291-300 | a touch passes, and its echo click passes iff it comes 500 ms or more after the touch |
| `Game.Drawn` | h/src/App.js:366-368 | the drawn sequence has the requested length and every id below the bound |
| `Game.DrawnReachesEverySequence` | h/src/App.js:366-368 | every sequence of ids below the bound, repeats included, is produced by some chooser |
| `Game.RandomSequence` | h/src/App.js:366-368 | the loop builds a sequence of length n, ids below the bound, equal to the chooser's draws |
| `Game.Reveal` | h/src/App.js:158-164 | one flash per id, in order, each lit for the active time after its pre-delay, none overlapping, total time length times period |
| `Game.SequenceMemoryGame.constructor` | h/src/App.js:6-22 | starts at home, level 1, empty sequences, countdown 5, no difficulty, best level loaded from the store |
| `Game.SequenceMemoryGame.GoToHowToPlay` | h/src/App.js:217-219 | home moves to the instructions |
| `Game.SequenceMemoryGame.GoToDifficultySelect` | h/src/App.js:222-224 | instructions, confirmation or game over move to the difficulty screen |
| `Game.SequenceMemoryGame.SelectDifficulty` | h/src/App.js:227-245 | unless the event is a touch echo: difficulty set, its best level loaded, confirmation shown; the filter's clock is updated either way |
| `Game.SequenceMemoryGame.StartCountdown` | h/src/App.js:248-251 | confirmation moves to the countdown at 5 |
| `Game.SequenceMemoryGame.StartGame` | h/src/App.js:254-269 | level 1, both sequences empty, no reveal running, showing; schedules the first deal: level 1, four ids, one second |
| `Game.SequenceMemoryGame.Tick` | h/src/App.js:272-279 | in the countdown a positive count drops by one and a zero count starts the game; elsewhere nothing changes |
| `Game.SequenceMemoryGame.RunCountdown` | h/src/App.js:272-279 | from count c the game starts after c+1 runs of the effect, at level 1 with empty sequences |
| `Game.SequenceMemoryGame.DealSequence` | h/src/App.js:362-371 | stores the drawn sequence of the captured length and range, enters showing with a reveal running, flashes the sequence one tile at a time at the captured level's timing |
| `Game.SequenceMemoryGame.FinishReveal` | h/src/App.js:166-168 | the reveal ends and the game is playing |
| `Game.SequenceMemoryGame.EndGame` | h/src/App.js:375-386 | game over; the best level and the stored value under the difficulty's key become the level only when it is strictly higher; no stored score is lost |
| `Game.SequenceMemoryGame.HandleColorClick` | h/src/App.js:283-325 | ignored unless playing with no reveal running, or when a touch echo; otherwise the input grows by exactly the id and is judged; a mismatch ends the game and records the level being attempted, in memory and under the difficulty's key only, when it is strictly higher |
| `Game.TapAll` | h/src/App.js:283-325 | taps made one after the other through the handler, with no timer firing in between, yield exactly the verdicts `Replay` gives, so the multi-tap lemmas hold of the class |
| `Game.IgnoreAll` | h/src/App.js:283-284 | after a game over every tap through the handler is ignored and the game stays over |
| `Game.SequenceMemoryGame.NextLevel` | h/src/App.js:328-372 | level plus one, empty input, deal of that length from the new grid's ids, pause 1500 exactly when the grid grows and 800 otherwise |

Two further notes on the class. The ordinary phase moves of the
handlers follow `Edge`. Two moves fall outside it: a stale `DealSequence`
enters Showing from whatever phase the game is in, and `FinishReveal` has no
phase restriction.
Every handler keeps `Valid()`: level at least 1, countdown in 0..5, the best
level in memory equal to the stored one for the current difficulty, a reveal
running only while showing, and sequence ids below 25. The client methods
`StartScenario`, `FirstTapScenario`, `WholeSequenceScenario`,
`OverTapScenario` and `StaleDealScenario` show what callers can conclude from these contracts.

## Left out

- Styles, JSX rendering, hover state and the screen-width breakpoints: presentation only.
- `playSound` and the Web Audio calls: foreign calls with floating-point frequencies; their failure is swallowed and affects no state.
- The active-tile highlight, the status messages and the `gridTransition` animation flag: display state only.
- Real time: `setTimeout`, `await` and `Date.now`. Waits are returned durations or separate steps, and the clock reading travels in the pointer event. `NextLevel` is a separate step, but the 300 ms before it, and the 300 ms by which a grid upgrade delays `setCurrentLevel`, are not modelled as durations. Because `NextLevel` raises the level at once, a mismatching tap made in that 300 ms window of a grid upgrade records the next level in the model, while the source, whose `gameOver` still reads the old `currentLevel`, records the completed one.
- `localStorage` is a map from keys to numbers. Converting to and from strings is not modelled. A corrupt stored value, which `parseInt` turns into NaN, is not modelled either.
- React's stale closures and re-renders: updates are sequential assignments. `DealSequence` reads the difficulty at the time it runs.
- Game.SequenceMemoryGame.SelectDifficulty: always reloads the best level. The source reloads only when the difficulty changes. The two agree because `Valid()` keeps the best level equal to the stored one.
- Game.SequenceMemoryGame.DealSequence: states the order, ids and lit time of the flashes. The exact flash times are stated by `Reveal`.
- `Sequence Memory Game/src/App.js` (the simpler variant without difficulties) is not part of this model.
