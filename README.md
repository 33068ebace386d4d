# WhackAMoleAR session model

A Dafny model of the game-session bookkeeping of the AR whack-a-mole
playground: the view controller that places the board on a detected surface,
counts down, spawns good and bad moles into holes, runs a 90-second timer,
scores taps and stiffens the difficulty after 30 s and 60 s.

The controller is modelled as the class `Game.GameViewController`, with the
fields the Swift class updates in place (`tracking`, `foundSurface`,
`spawnableHoleNodes`, `moles`, `gameStarted`, `timer`, the spawn-rate and
stay-time preferences) and the two HUD integers (`score`, `hudTimer`). Scene
nodes are integer ids (`HoleId`), and the two mole templates are the values of
`MoleKind`. Each engine callback that changes this state is one method:

- a rendered frame (`RenderFrame`), a touch (`PlacePlane`), a tap
  (`SceneViewTapped`, given the name of the first node hit);
- the end of each timed action whose closure updates game state:
  `CountdownStep` (the countdown's "3", "2", "1" and the final `begin`),
  `TimerTick` (the repeating one-second action), `DifficultyWaitElapsed`
  (each 30-second wait of the difficulty schedule), `RestartMoveDone` (the
  closure at the end of the restart animation).

Actions started without a key can overlap, so the model keeps a sequence of
countdowns in flight, a sequence of difficulty schedules in flight and a count
of pending restart closures; the timer action has the key "timer", so a later
`begin` replaces it and one flag (`timerRunning`) is enough. The random hole
and draw-pool indices are method parameters with range preconditions; "is a
spawn due" (`time > spawnTime`), "did the surface hit test find a point" and
"is there a camera frame" are boolean parameters.

The module `Pools` holds the pool operations as functions (`RemoveAt`,
`DrawPool`, the iterated spawn `Drain`) and `Rules` the scoring rule and the
run timer as functions, with the lemmas about them. The class keeps four
ghost records beside the Swift fields: the number of `begin` calls so far,
whether the spawn pool has been filled yet, the holes that received a mole
since it was last filled, and the names hit by taps since the score was last
reset. The class invariant `Valid()` is the conjunction of one predicate per
group of fields. It states that the holes used in the current round and the
free holes together are exactly the board (so the spawn pool is always a
sub-multiset of the holes), that the draw pool is exactly one `DrawPool` per
`begin` so far, that the timer stays within `0..gameTime` and equals its HUD
label, that the score is `ScoreAfter(0, taps)` of the taps since the last
reset, that the board is only committed once a surface was found, that
spawning only runs with a non-empty draw pool, and that the spawn-rate and
stay-time pair is one of the three difficulty stages (so
`minSpawnRate <= maxSpawnRate` always holds, as `Float.random(in:)` needs).

The model follows the code as written, including where it departs from the
game's intended design: the draw pool is 2 bad and 9 good moles (the loop `badMoleRate...10` runs 9
times), a hit mole does not return its hole to the spawn pool, restarting does
not undo the difficulty changes, and tapping "start" twice starts two
countdowns (there is no guard). A hole can also hold two moles at once: the
hole picked last before the pool ran dry may be picked again right after the
refill, while its first mole is still up (`RoundUsedEveryHole` is about the
holes picked in one round, not about the holes occupied at one moment).

Floating-point preferences are exact integer milliseconds: the spawn interval
range starts at 400..800 ms, the stay time at 1000 ms; after the first
difficulty change they are 400..600 and 750 ms, after the second 400..500
and 500 ms.

## Model

| member | source | states |
|---|---|---|
| `Pools.RemoveAt` | WhackAMoleAR.playground/Sources/GameViewController.swift:327 | removing index i drops the length by one, keeps the elements before i in place, shifts those after it down by one, and removes exactly one occurrence of the element at i from the multiset |
| `Pools.Repeat` | WhackAMoleAR.playground/Sources/GameViewController.swift:220-226 | n successive appends of the same element give exactly n entries |
| `Pools.RepeatContents` | WhackAMoleAR.playground/Sources/GameViewController.swift:220-226 | every one of those n entries is that element, and the multiset holds it exactly n times |
| `Pools.DrawPool` | WhackAMoleAR.playground/Sources/GameViewController.swift:220-226 | one `begin` appends exactly 11 entries |
| `Pools.DrawPoolContents` | WhackAMoleAR.playground/Sources/GameViewController.swift:220-226 | the entries appended by one `begin` are `badMoleRate` bad moles, all in front, then `11 - badMoleRate` good ones (2 and 9 by default) |
| `Pools.DrawPoolsAfter` | WhackAMoleAR.playground/Sources/GameViewController.swift:220-226 | after k calls of `begin` the draw pool has 11k entries: `badMoleRate`·k bad and (11 − `badMoleRate`)·k good |
| `Pools.Repeated` | WhackAMoleAR.playground/Sources/GameViewController.swift:220-226 | k rounds of the same draw pool appended one after another total k times its length |
| `Pools.RepeatedContents` | WhackAMoleAR.playground/Sources/GameViewController.swift:41 | a pool that is only ever appended to, starting empty, holds each kind k times as often as one appended round does |
| `Pools.Drain` | WhackAMoleAR.playground/Sources/GameViewController.swift:324-327 | successive spawns from a pool without refill: as many holes get a mole as there were picks, and the holes picked plus the holes left are exactly the pool's multiset |
| `Pools.FullRound` | WhackAMoleAR.playground/Sources/GameViewController.swift:319-327 | as many spawns as the refilled pool has holes empty it, and each hole receives a mole exactly as often as it occurs in the pool |
| `Pools.SpawnKeepsHoles` | WhackAMoleAR.playground/Sources/GameViewController.swift:324-327 | moving the picked hole from the free holes to the used ones keeps the two together equal to the board, as a multiset |
| `Rules.ScoreDelta` | WhackAMoleAR.playground/Sources/GameViewController.swift:368-386 | a tap scores +10 exactly when the hit node is named "mole", −50 exactly when it is named "badMole", and 0 exactly for every other name |
| `Rules.ScoreAfter` | WhackAMoleAR.playground/Sources/GameViewController.swift:368-386 | n taps move the score by at most +10n and by at least −50n |
| `Rules.ScoreAfterCounts` | WhackAMoleAR.playground/Sources/GameViewController.swift:368-386 | the score after a series of taps is the start score plus 10 per "mole" hit minus 50 per "badMole" hit; other names add nothing |
| `Rules.ScoreAfterSnoc` | WhackAMoleAR.playground/Sources/GameViewController.swift:376-385 | one more tap adds exactly its own `ScoreDelta` to the score the earlier taps reached |
| `Rules.ScoreOrderIrrelevant` | WhackAMoleAR.playground/Sources/GameViewController.swift:376-385 | score updates commute: any reordering of the taps gives the same score |
| `Rules.ScoreUnbounded` | WhackAMoleAR.playground/Sources/GameViewController.swift:385 | n bad-mole hits take exactly 50n points: nothing stops the score at 0, so it can go arbitrarily negative (down to the range of Swift's `Int`, where `-=` traps) |
| `Rules.Tick` | WhackAMoleAR.playground/Sources/GameViewController.swift:230-238 | one firing ends the run exactly when it fires at 0 (and a finished run stays finished); otherwise it takes exactly one second off |
| `Rules.AfterTicks` | WhackAMoleAR.playground/Sources/GameViewController.swift:229-239 | while the run still counts after n firings it was counting from the start and exactly n seconds have been taken off |
| `Rules.FinishesOnTick` | WhackAMoleAR.playground/Sources/GameViewController.swift:230-239 | started at `gameTime`, the timer reads `gameTime - n` after n ticks while n ≤ `gameTime`, never goes below 0, and the game is finished from tick `gameTime + 1` on |
| `Game.GameViewController.constructor` | WhackAMoleAR.playground/Sources/GameViewController.swift:10-41 | the initial state: tracking, no surface, empty pools, game not started, timer and its label at `gameTime` = 90, score 0, `badMoleRate` = 2, spawn range 400..800 ms, stay 1000 ms |
| `Game.GameViewController.HandlePlaceholder` | WhackAMoleAR.playground/Sources/GameViewController.swift:295-315 | a no-op unless tracking; `foundSurface` becomes true on the first surface hit and stays true |
| `Game.GameViewController.PlacePlane` | WhackAMoleAR.playground/Sources/GameViewController.swift:242-256 | tracking ends exactly when it was on, a surface was found and a camera frame exists; a missing frame leaves tracking on |
| `Game.GameViewController.SpawnMole` | WhackAMoleAR.playground/Sources/GameViewController.swift:317-342 | on an empty pool: the pool becomes `holeNodes`, a new round starts and nothing spawns; otherwise the pool loses exactly element i, order kept, that hole receives a mole of kind `moles[j]` and is recorded as used in this round; used and free holes together stay the board |
| `Game.GameViewController.RoundUsedEveryHole` | WhackAMoleAR.playground/Sources/GameViewController.swift:319-327 | once a round has emptied the spawn pool, every hole has received a mole in it exactly as often as it occurs on the board |
| `Game.GameViewController.RefillSpawnPool` | WhackAMoleAR.playground/Sources/GameViewController.swift:218 | after `spawnableHoleNodes = holeNodes` every hole is free and no hole is used in the new round |
| `Game.GameViewController.RenderFrame` | WhackAMoleAR.playground/Sources/GameViewController.swift:344-353 | a mole is spawned only when the game is started and a spawn is due, otherwise the pool is untouched; the placeholder is handled on every frame |
| `Game.GameViewController.Begin` | WhackAMoleAR.playground/Sources/GameViewController.swift:213-240 | the spawn pool is reset to `holeNodes`, one `DrawPool` is appended to the draw pool, the game is started and the timer action installed |
| `Game.GameViewController.AddDrawPool` | WhackAMoleAR.playground/Sources/GameViewController.swift:220-226 | the draw pool grows by exactly one `DrawPool` and the count of `begin` calls by one, so it stays one `DrawPool` per `begin` |
| `Game.AppendDrawPool` | WhackAMoleAR.playground/Sources/GameViewController.swift:220-226 | the two counted loops append exactly `DrawPool(badMoleRate)` to the draw pool |
| `Game.GameViewController.FinishGame` | WhackAMoleAR.playground/Sources/GameViewController.swift:158-160 | spawning stops: `gameStarted` is false |
| `Game.GameViewController.TimerTick` | WhackAMoleAR.playground/Sources/GameViewController.swift:229-239 | at 0 the timer action is removed and the game finished; otherwise the timer and its label drop by exactly one; the new timer state is `Tick` of the old one |
| `Game.GameViewController.StartCounter` | WhackAMoleAR.playground/Sources/GameViewController.swift:190-211 | a new four-step countdown is in flight |
| `Game.GameViewController.CountdownStep` | WhackAMoleAR.playground/Sources/GameViewController.swift:194-210 | the delay, "3" and "2" steps only advance the countdown; the step after "1" ends it and runs `begin` |
| `Game.GameViewController.StartGame` | WhackAMoleAR.playground/Sources/GameViewController.swift:140-156 | a difficulty schedule with no change applied yet and a countdown are added |
| `Game.GameViewController.DifficultyWaitElapsed` | WhackAMoleAR.playground/Sources/GameViewController.swift:147-153 | the first change of a schedule sets the spawn range to 400..600 ms and the stay to 750 ms, the second sets both to 500 ms and ends the schedule |
| `Game.GameViewController.RestartGame` | WhackAMoleAR.playground/Sources/GameViewController.swift:172-178 | a restart closure becomes pending; nothing else changes yet |
| `Game.GameViewController.RestartMoveDone` | WhackAMoleAR.playground/Sources/GameViewController.swift:178-187 | a new countdown starts, the timer and its label are back at `gameTime`, the score is 0 with no taps recorded, and the difficulty stage is left as it was |
| `Game.GameViewController.ResetTimerAndScore` | WhackAMoleAR.playground/Sources/GameViewController.swift:183-185 | the timer and its label are at `gameTime`, the score is 0 and the tap record empty |
| `Game.GameViewController.SceneViewTapped` | WhackAMoleAR.playground/Sources/GameViewController.swift:360-394 | "mole" adds 10 and "badMole" subtracts 50 from the score, "start" runs `startGame`, "restart" runs `restartGame`, any other name or no hit changes nothing; the hit name joins the tap record, so the score stays `ScoreAfter` of the taps since the last reset |

## Left out

- Scene, AR and UI wiring (`setupNodes`, `setupSounds`, `viewDidLoad`, `viewWillAppear`, `viewWillDisappear`, node lookups by name, pivots, bounding boxes, positions, scale and move animations): engine calls with no game state; `setupNodes`' list of holes is the constructor's parameter.
- `HUD.swift` beyond its `score` and `timer` integers: labels, fonts, prompt visibility and the float rescaling in `didChangeSize` are presentation only.
- Which nodes a tap can hit (a hidden restart node, a start node already removed, a mole already gone): decided by the engine's hit test, so the tap's input is simply the hit node's name.
- The countdown text ("3", "2", "1"), the restart node's visibility and the closure at the end of `finishGame`: display only.
- Wall-clock timing: the durations of the waits, and `spawnTime = time + Float.random(in: minSpawnRate...maxSpawnRate)`; the model takes "a spawn is due" as a boolean and keeps only the range bounds.
- Moles after they spawn (their rise, stay, fall and removal, and their removal on a hit): scene-graph animation; `SpawnMole` returns the hole and kind of the new mole instead.
- Audio and particle effects (`playAudio`, background music, explosions): fire-and-forget engine effects.
- Hit-test geometry and the placeholder's 3D position; `handlePlaceholder` is given only whether the hit test found a point.
- `Contents.swift`: the playground entry point.
- AppendDrawPool: the two loops append to a copy of the draw pool that `begin` then stores, not to the field itself; nothing can observe the field between the appends.
- ScoreUnbounded: the score is an unbounded integer; the 64-bit `Int` overflow traps of `hud.score += 10` and `hud.score -= 50` are not modelled, because they need more than 10^17 taps.
- Callbacks are treated as atomic steps that never interleave: in the app, `renderer(_:updateAtTime:)` runs on SceneKit's rendering thread while taps and touches run on the main thread, so in the app their updates can interleave; the model has no concurrency.
