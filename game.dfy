/** The session bookkeeping of the whack-a-mole view controller: surface
    placement, the spawn and draw pools, the run timer, the score and the
    difficulty stage. Every engine callback that changes this state (a
    frame update, a tap, the end of a timed action) is an explicit method;
    the random index the engine would draw is a parameter of the method. */
module Game {
  import opened Pools
  import opened Rules

  /** `minSpawnRate`, the lower end of the spawn-interval range, in ms. */
  const MinSpawnRateMs := 400

  /** The (maxSpawnRate, moleStayTime) pairs, in ms, before the first
      difficulty change, after it and after the second one. */
  const DifficultyStages: seq<(int, int)> := [(800, 1000), (600, 750), (500, 500)]

  /** Countdown sequences take 4 steps: the initial delay, then "3", "2", "1". */
  const CountdownSteps := 4

  /** The two counted loops of `begin` on the draw pool `moles`:
      `badMoleRate` bad moles, then one good mole for each value of
      `badMoleRate...10`. */
  method AppendDrawPool(moles: seq<MoleKind>, badMoleRate: int) returns (r: seq<MoleKind>)
    requires 1 <= badMoleRate <= 10
    ensures r == moles + DrawPool(badMoleRate)
  {
    r := moles;
    for n := 1 to badMoleRate + 1
      invariant r == moles + Repeat(Bad, n - 1)
    {
      r := r + [Bad];
    }
    ghost var withBad := r;
    for n := badMoleRate to 11
      invariant r == withBad + Repeat(Good, n - badMoleRate)
    {
      r := r + [Good];
    }
  }

  class GameViewController {
    // Placement
    var tracking: bool
    /** Set, together with the creation of the placeholder node, on the first
        surface hit; the placeholder is never released, so this is also
        "the placeholder exists". */
    var foundSurface: bool

    // Board and pools
    const holeNodes: seq<HoleId>
    var spawnableHoleNodes: seq<HoleId>
    var moles: seq<MoleKind>
    /** Number of calls of `begin` so far. */
    ghost var begins: nat
    /** Whether the spawn pool has been filled from `holeNodes` yet. */
    ghost var refilled: bool
    /** The holes that received a mole since the pool was last filled. */
    ghost var roundHoles: seq<HoleId>

    // Game preferences (`gameTime` and `badMoleRate` are never reassigned)
    const gameTime: int
    const badMoleRate: int
    var gameStarted: bool
    var timer: int
    /** Whether the repeating action keyed "timer" is installed. */
    var timerRunning: bool
    var maxSpawnRateMs: int
    var moleStayTimeMs: int

    // HUD values
    var hudTimer: int
    var score: int
    /** Names of the nodes hit by taps since the score was last reset. */
    ghost var taps: seq<string>

    // Pending timed actions
    /** Countdown sequences in flight, each as its number of remaining steps. */
    var countdowns: seq<nat>
    /** Difficulty schedules in flight, each as the number of its two changes
        already applied. */
    var difficultySchedules: seq<nat>
    /** Restart animations in flight whose closing closure has not run. */
    var pendingRestarts: nat

    /** The board is only committed once a surface was found. */
    ghost predicate PlacementValid()
      reads this`tracking, this`foundSurface
    {
      !tracking ==> foundSurface
    }

    /** The holes used in the current round and the free ones together make
        up the board; before the first fill nothing is free. */
    ghost predicate RoundValid()
      reads this`spawnableHoleNodes, this`refilled, this`roundHoles
    {
      (refilled ==> multiset(roundHoles) + multiset(spawnableHoleNodes) == multiset(holeNodes)) &&
      (!refilled ==> spawnableHoleNodes == [])
    }

    /** The draw pool is one `DrawPool` per `begin` so far, and spawning only
        runs with a non-empty draw pool. */
    ghost predicate DrawValid()
      reads this`moles, this`begins, this`gameStarted
    {
      1 <= badMoleRate <= 10 &&
      moles == Repeated(DrawPool(badMoleRate), begins) &&
      (gameStarted ==> |moles| >= 11)
    }

    /** The timer stays within `0..gameTime` and equals its HUD label. */
    ghost predicate TimerValid()
      reads this`timer, this`hudTimer
    {
      0 <= timer <= gameTime && hudTimer == timer
    }

    /** The score is what the taps since the last reset add up to. */
    ghost predicate ScoreValid()
      reads this`score, this`taps
    {
      score == ScoreAfter(0, taps)
    }

    /** The spawn-rate and stay-time pair is one of the difficulty stages,
        and every pending countdown and difficulty schedule is mid-way. */
    ghost predicate ScheduleValid()
      reads this`maxSpawnRateMs, this`moleStayTimeMs, this`countdowns, this`difficultySchedules
    {
      (maxSpawnRateMs, moleStayTimeMs) in DifficultyStages &&
      MinSpawnRateMs <= maxSpawnRateMs &&
      (forall k :: 0 <= k < |countdowns| ==> 1 <= countdowns[k] <= CountdownSteps) &&
      (forall k :: 0 <= k < |difficultySchedules| ==> difficultySchedules[k] <= 1)
    }

    ghost predicate Valid()
      reads this
    {
      PlacementValid() && RoundValid() && DrawValid() && TimerValid() && ScoreValid() && ScheduleValid()
    }

    /** The controller after `setupNodes` found the holes `holes` and
        `setupHUD` copied `gameTime` into the timer and its label. */
    constructor (holes: seq<HoleId>)
      ensures Valid()
      ensures holeNodes == holes && spawnableHoleNodes == [] && moles == [] && begins == 0
      ensures tracking && !foundSurface && !gameStarted && !timerRunning
      ensures gameTime == 90 && badMoleRate == 2
      ensures timer == 90 && hudTimer == 90 && score == 0 && taps == []
      ensures !refilled
      ensures maxSpawnRateMs == 800 && moleStayTimeMs == 1000
      ensures countdowns == [] && difficultySchedules == [] && pendingRestarts == 0
    {
      tracking, foundSurface := true, false;
      holeNodes, spawnableHoleNodes, moles, begins := holes, [], [], 0;
      refilled, roundHoles := false, [];
      gameTime, badMoleRate := 90, 2;
      gameStarted, timerRunning := false, false;
      maxSpawnRateMs, moleStayTimeMs := 800, 1000;
      timer := 90;
      hudTimer := 90;
      score, taps := 0, [];
      countdowns, difficultySchedules, pendingRestarts := [], [], 0;
      new;
      assert moles == Repeated(DrawPool(badMoleRate), 0);
      assert (maxSpawnRateMs, moleStayTimeMs) == DifficultyStages[0];
    }

    /** The timer as the run-timer action sees it. */
    ghost function RunTimerState(): RunTimer
      reads this
      requires Valid()
    {
      if timerRunning then Counting(timer) else Finished
    }

    /** `handlePlaceholder`: while tracking, the first surface hit creates the
        placeholder and sets `foundSurface`; later hits only move it. */
    method HandlePlaceholder(surfaceHit: bool)
      requires Valid()
      modifies this`foundSurface
      ensures Valid()
      ensures foundSurface == (old(foundSurface) || (tracking && surfaceHit))
    {
      if !tracking {
        return;
      }
      if !surfaceHit {
        return;
      }
      if !foundSurface {
        foundSurface := true;
      }
    }

    /** `placePlane` (run on `touchesBegan`): the board is committed only while
        tracking with a surface found, and only if a camera frame exists. */
    method PlacePlane(hasFrame: bool)
      requires Valid()
      modifies this`tracking
      ensures Valid()
      ensures tracking == (old(tracking) && !(foundSurface && hasFrame))
    {
      if tracking {
        if !foundSurface {
          return;
        }
        if !hasFrame {
          return;
        }
        tracking := false;
      }
    }

    /** `spawnMole` with the random hole index `i` and the random draw-pool
        index `j`: an empty pool is refilled and nothing spawns; otherwise
        hole `i` leaves the pool and receives a mole of kind `moles[j]`. */
    method SpawnMole(i: nat, j: nat) returns (spawned: Option<Mole>)
      requires Valid()
      requires |spawnableHoleNodes| > 0 ==> i < |spawnableHoleNodes| && j < |moles|
      modifies this`spawnableHoleNodes, this`refilled, this`roundHoles
      ensures Valid()
      ensures old(spawnableHoleNodes) == [] ==>
                spawnableHoleNodes == holeNodes && spawned == None &&
                refilled && roundHoles == []
      ensures old(spawnableHoleNodes) != [] ==>
                spawnableHoleNodes == RemoveAt(old(spawnableHoleNodes), i) &&
                spawned == Some(Mole(old(spawnableHoleNodes)[i], moles[j])) &&
                refilled && roundHoles == old(roundHoles) + [old(spawnableHoleNodes)[i]]
    {
      if |spawnableHoleNodes| == 0 {
        RefillSpawnPool();
        spawned := None;
      } else {
        var randomHoleNode := spawnableHoleNodes[i];
        SpawnKeepsHoles(roundHoles, spawnableHoleNodes, holeNodes, i);
        spawnableHoleNodes := RemoveAt(spawnableHoleNodes, i);
        spawned := Some(Mole(randomHoleNode, moles[j]));
        roundHoles := roundHoles + [randomHoleNode];
      }
    }

    /** Once a round has emptied the spawn pool, every hole has received a
        mole exactly as often as it occurs on the board. */
    lemma RoundUsedEveryHole()
      requires Valid() && refilled && spawnableHoleNodes == []
      ensures multiset(roundHoles) == multiset(holeNodes)
    {
      assert multiset(spawnableHoleNodes) == multiset{};
    }

    /** `renderer(_:updateAtTime:)`: a mole is spawned only while the game is
        started and a spawn is due; the placeholder is handled every frame. */
    method RenderFrame(spawnDue: bool, i: nat, j: nat, surfaceHit: bool) returns (spawned: Option<Mole>)
      requires Valid()
      requires gameStarted && spawnDue && |spawnableHoleNodes| > 0 ==>
                 i < |spawnableHoleNodes| && j < |moles|
      modifies this`spawnableHoleNodes, this`refilled, this`roundHoles,
               this`foundSurface
      ensures Valid()
      ensures !(old(gameStarted) && spawnDue) ==>
                spawnableHoleNodes == old(spawnableHoleNodes) && spawned == None &&
                roundHoles == old(roundHoles)
      ensures old(gameStarted) && spawnDue && old(spawnableHoleNodes) == [] ==>
                spawnableHoleNodes == holeNodes && spawned == None
      ensures old(gameStarted) && spawnDue && old(spawnableHoleNodes) != [] ==>
                spawnableHoleNodes == RemoveAt(old(spawnableHoleNodes), i) &&
                spawned == Some(Mole(old(spawnableHoleNodes)[i], moles[j]))
      ensures foundSurface == (old(foundSurface) || (tracking && surfaceHit))
    {
      spawned := None;
      if gameStarted {
        if spawnDue {
          spawned := SpawnMole(i, j);
        }
      }
      HandlePlaceholder(surfaceHit);
    }

    /** `begin`: resets the spawn pool, appends one draw pool of moles,
        starts the game and (re)installs the keyed run-timer action. */
    method Begin()
      requires Valid()
      modifies this`spawnableHoleNodes, this`refilled, this`roundHoles,
               this`moles, this`begins, this`gameStarted, this`timerRunning
      ensures Valid()
      ensures spawnableHoleNodes == holeNodes && refilled && roundHoles == []
      ensures moles == old(moles) + DrawPool(badMoleRate) && begins == old(begins) + 1
      ensures gameStarted && timerRunning
    {
      RefillSpawnPool();
      AddDrawPool();
      gameStarted := true;
      timerRunning := true;
    }

    /** `spawnableHoleNodes = holeNodes`: a new round starts with every hole
        free. */
    method RefillSpawnPool()
      requires Valid()
      modifies this`spawnableHoleNodes, this`refilled, this`roundHoles
      ensures Valid()
      ensures spawnableHoleNodes == holeNodes && refilled && roundHoles == []
    {
      spawnableHoleNodes := holeNodes;
      refilled, roundHoles := true, [];
    }

    /** The draw-pool part of `begin`: one more `DrawPool` appended. */
    method AddDrawPool()
      requires Valid()
      modifies this`moles, this`begins
      ensures Valid()
      ensures moles == old(moles) + DrawPool(badMoleRate) && begins == old(begins) + 1
    {
      moles := AppendDrawPool(moles, badMoleRate);
      begins := begins + 1;
    }

    /** `finishGame`: spawning stops. */
    method FinishGame()
      requires Valid()
      modifies this`gameStarted
      ensures Valid()
      ensures !gameStarted
    {
      gameStarted := false;
    }

    /** One firing of the run-timer action: at 0 the action is removed and the
        game finishes; otherwise the timer and its label go down by one. */
    method TimerTick()
      requires Valid() && timerRunning
      modifies this`timer, this`hudTimer, this`timerRunning, this`gameStarted
      ensures Valid()
      ensures RunTimerState() == Tick(Counting(old(timer)))
      ensures old(timer) == 0 ==> !timerRunning && !gameStarted && timer == 0
      ensures old(timer) != 0 ==>
                timerRunning && gameStarted == old(gameStarted) &&
                timer == old(timer) - 1 && hudTimer == timer
    {
      if timer == 0 {
        timerRunning := false;
        FinishGame();
        return;
      }
      timer := timer - 1;
      hudTimer := timer;
    }

    /** `startCounter`: a new countdown sequence starts. */
    method StartCounter()
      requires Valid()
      modifies this`countdowns
      ensures Valid()
      ensures countdowns == old(countdowns) + [CountdownSteps]
    {
      countdowns := countdowns + [CountdownSteps];
    }

    /** The next step of countdown `k`: the delay, "3" and "2" each lead to
        the next text; after "1" the countdown ends and `begin` runs. */
    method CountdownStep(k: nat)
      requires Valid() && k < |countdowns|
      modifies this`countdowns, this`spawnableHoleNodes, this`refilled,
               this`roundHoles, this`moles, this`begins, this`gameStarted, this`timerRunning
      ensures Valid()
      ensures old(countdowns[k]) > 1 ==>
                countdowns == old(countdowns)[k := old(countdowns[k]) - 1] &&
                begins == old(begins) && moles == old(moles) &&
                spawnableHoleNodes == old(spawnableHoleNodes) && refilled == old(refilled) &&
                roundHoles == old(roundHoles) &&
                gameStarted == old(gameStarted) && timerRunning == old(timerRunning)
      ensures old(countdowns[k]) == 1 ==>
                countdowns == RemoveAt(old(countdowns), k) &&
                begins == old(begins) + 1 && moles == old(moles) + DrawPool(badMoleRate) &&
                spawnableHoleNodes == holeNodes && gameStarted && timerRunning &&
                refilled && roundHoles == []
    {
      if countdowns[k] > 1 {
        countdowns := countdowns[k := countdowns[k] - 1];
      } else {
        countdowns := RemoveAt(countdowns, k);
        Begin();
      }
    }

    /** `startGame`: schedules the two difficulty changes and starts the
        countdown. */
    method StartGame()
      requires Valid()
      modifies this`difficultySchedules, this`countdowns
      ensures Valid()
      ensures difficultySchedules == old(difficultySchedules) + [0]
      ensures countdowns == old(countdowns) + [CountdownSteps]
    {
      difficultySchedules := difficultySchedules + [0];
      StartCounter();
    }

    /** The next 30-second wait of difficulty schedule `k` has elapsed: the
        first change shortens the spawn interval to 0.6 s and the stay to
        0.75 s, the second both to 0.5 s and ends the schedule. */
    method DifficultyWaitElapsed(k: nat)
      requires Valid() && k < |difficultySchedules|
      modifies this`difficultySchedules, this`maxSpawnRateMs, this`moleStayTimeMs
      ensures Valid()
      ensures old(difficultySchedules[k]) == 0 ==>
                (maxSpawnRateMs, moleStayTimeMs) == DifficultyStages[1] &&
                difficultySchedules == old(difficultySchedules)[k := 1]
      ensures old(difficultySchedules[k]) == 1 ==>
                (maxSpawnRateMs, moleStayTimeMs) == DifficultyStages[2] &&
                difficultySchedules == RemoveAt(old(difficultySchedules), k)
    {
      if difficultySchedules[k] == 0 {
        maxSpawnRateMs := 600;
        moleStayTimeMs := 750;
        difficultySchedules := difficultySchedules[k := 1];
      } else {
        moleStayTimeMs := 500;
        maxSpawnRateMs := 500;
        difficultySchedules := RemoveAt(difficultySchedules, k);
      }
    }

    /** `restartGame`: only starts the restart animation; the state is reset
        when it ends. */
    method RestartGame()
      requires Valid()
      modifies this`pendingRestarts
      ensures Valid()
      ensures pendingRestarts == old(pendingRestarts) + 1
    {
      pendingRestarts := pendingRestarts + 1;
    }

    /** The closure at the end of the restart animation: a new countdown,
        the timer and its label back at `gameTime` and the score at 0. The
        difficulty stage is left as it is. */
    method RestartMoveDone()
      requires Valid() && pendingRestarts > 0
      modifies this`pendingRestarts, this`countdowns, this`timer, this`hudTimer, this`score,
               this`taps
      ensures Valid()
      ensures pendingRestarts == old(pendingRestarts) - 1
      ensures countdowns == old(countdowns) + [CountdownSteps]
      ensures timer == gameTime && hudTimer == gameTime && score == 0 && taps == []
      ensures maxSpawnRateMs == old(maxSpawnRateMs) && moleStayTimeMs == old(moleStayTimeMs)
    {
      pendingRestarts := pendingRestarts - 1;
      StartCounter();
      ResetTimerAndScore();
    }

    /** The last three assignments of the restart closure: the timer and its
        label back at `gameTime`, the score at 0. */
    method ResetTimerAndScore()
      requires Valid()
      modifies this`timer, this`hudTimer, this`score, this`taps
      ensures Valid()
      ensures timer == gameTime && hudTimer == gameTime && score == 0 && taps == []
    {
      timer := gameTime;
      hudTimer := timer;
      score, taps := 0, [];
    }

    /** `sceneViewTapped`, given the name of the first node the tap hit (None
        when nothing named was hit): a good mole scores 10, a bad mole takes
        50, "start" and "restart" dispatch, anything else does nothing. */
    method SceneViewTapped(hit: Option<string>)
      requires Valid()
      modifies this`score, this`taps, this`difficultySchedules, this`countdowns, this`pendingRestarts
      ensures Valid()
      ensures score == old(score) + (if hit.Some? then ScoreDelta(hit.value) else 0)
      ensures taps == if hit.Some? then old(taps) + [hit.value] else old(taps)
      ensures hit == Some("start") ==>
                difficultySchedules == old(difficultySchedules) + [0] &&
                countdowns == old(countdowns) + [CountdownSteps] &&
                pendingRestarts == old(pendingRestarts)
      ensures hit == Some("restart") ==>
                pendingRestarts == old(pendingRestarts) + 1 &&
                difficultySchedules == old(difficultySchedules) && countdowns == old(countdowns)
      ensures hit != Some("start") && hit != Some("restart") ==>
                difficultySchedules == old(difficultySchedules) && countdowns == old(countdowns) &&
                pendingRestarts == old(pendingRestarts)
    {
      if hit.Some? {
        var name := hit.value;
        ScoreAfterSnoc(0, taps, name);
        taps := taps + [name];
        if name == "mole" {
          score := score + 10;
        } else if name == "badMole" {
          score := score - 50;
        } else if name == "start" {
          StartGame();
        } else if name == "restart" {
          RestartGame();
        }
      }
    }
  }
}
