/** The scoring rule of the tap dispatcher and the run timer's countdown,
    as functions of their inputs, with the properties the game relies on. */
module Rules {
  import opened Pools

  /** Score change for a tap whose first hit node has the given name. */
  function ScoreDelta(name: string): (d: int)
    ensures d == 10 <==> name == "mole"
    ensures d == -50 <==> name == "badMole"
    ensures d == 0 <==> name != "mole" && name != "badMole"
  {
    if name == "mole" then 10 else if name == "badMole" then -50 else 0
  }

  /** The score after a series of taps, starting from `score`. */
  function ScoreAfter(score: int, taps: seq<string>): (r: int)
    ensures score - 50 * |taps| <= r <= score + 10 * |taps|
    decreases |taps|
  {
    if taps == [] then score else ScoreAfter(score + ScoreDelta(taps[0]), taps[1..])
  }

  /** The score only depends on how many good and bad moles were hit. */
  lemma {:induction false} ScoreAfterCounts(score: int, taps: seq<string>)
    ensures ScoreAfter(score, taps)
         == score + 10 * multiset(taps)["mole"] - 50 * multiset(taps)["badMole"]
    decreases |taps|
  {
    if taps != [] {
      assert taps == [taps[0]] + taps[1..];
      ScoreAfterCounts(score + ScoreDelta(taps[0]), taps[1..]);
    }
  }

  /** One more tap adds its own delta to the score reached so far, as each
      call of the tap dispatcher does. */
  lemma ScoreAfterSnoc(score: int, taps: seq<string>, name: string)
    ensures ScoreAfter(score, taps + [name]) == ScoreAfter(score, taps) + ScoreDelta(name)
  {
    ScoreAfterCounts(score, taps);
    ScoreAfterCounts(score, taps + [name]);
  }

  /** Score updates commute: any reordering of the taps gives the same score. */
  lemma ScoreOrderIrrelevant(score: int, a: seq<string>, b: seq<string>)
    requires multiset(a) == multiset(b)
    ensures ScoreAfter(score, a) == ScoreAfter(score, b)
  {
    ScoreAfterCounts(score, a);
    ScoreAfterCounts(score, b);
  }

  /** `n` bad-mole hits take 50 * n points: nothing stops the score at 0, so
      it can go arbitrarily negative (in the program, down to the range of
      Swift's `Int`, where `-=` traps). */
  lemma ScoreUnbounded(score: int, n: nat)
    ensures ScoreAfter(score, Repeat("badMole", n)) == score - 50 * n
  {
    ScoreAfterCounts(score, Repeat("badMole", n));
    RepeatContents("badMole", n);
  }

  /** The run timer as seen by its once-a-second action. */
  datatype RunTimer = Counting(remaining: nat) | Finished

  /** One firing of the timer action: at 0 the game finishes and the action
      is removed (so nothing fires afterwards); otherwise one second is
      taken off. */
  function Tick(t: RunTimer): (r: RunTimer)
    ensures r.Counting? <==> t.Counting? && t.remaining > 0
    ensures r.Counting? ==> r.remaining == t.remaining - 1
  {
    match t
    case Finished => Finished
    case Counting(s) => if s == 0 then Finished else Counting(s - 1)
  }

  /** The timer after `n` firings; while it still counts, exactly `n`
      seconds have been taken off. */
  function AfterTicks(t: RunTimer, n: nat): (r: RunTimer)
    ensures r.Counting? ==> t.Counting? && r.remaining + n == t.remaining
  {
    if n == 0 then t else Tick(AfterTicks(t, n - 1))
  }

  /** Started at `gameTime`, the timer counts down one per tick without going
      below 0, and the game finishes exactly on tick `gameTime + 1`. */
  lemma {:induction false} FinishesOnTick(gameTime: nat, n: nat)
    ensures AfterTicks(Counting(gameTime), n)
         == if n <= gameTime then Counting(gameTime - n) else Finished
  {
    if n > 0 {
      FinishesOnTick(gameTime, n - 1);
    }
  }
}
