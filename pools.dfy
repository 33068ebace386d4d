/** The two pools the game draws from when it spawns a mole: the holes that are
    still free in the current round, and the list of mole kinds a new mole is
    picked from. Node handles of the scene are modelled as integer ids. */
module Pools {

  /** A hole node of the board, identified by an integer id. */
  type HoleId = int

  /** The two spawnable node templates: `moleNode` and `badMoleNode`. */
  datatype MoleKind = Good | Bad

  /** A mole placed into a hole by one spawn. */
  datatype Mole = Mole(hole: HoleId, kind: MoleKind)

  datatype Option<T> = None | Some(value: T)

  /** `Array.remove(at:)`: the sequence without its element at index `i`,
      the other elements keeping their order. */
  function RemoveAt<T>(s: seq<T>, i: nat): (r: seq<T>)
    requires i < |s|
    ensures |r| == |s| - 1
    ensures forall k :: 0 <= k < i ==> r[k] == s[k]
    ensures forall k :: i <= k < |r| ==> r[k] == s[k + 1]
    ensures multiset(s) == multiset(r) + multiset{s[i]}

  {
    assert s == s[..i] + [s[i]] + s[i + 1..];
    s[..i] + s[i + 1..]
  }

  /** `n` copies of `x`, as `n` successive appends of `x` produce them. */
  function Repeat<T>(x: T, n: nat): (r: seq<T>)
    ensures |r| == n
  {
    if n == 0 then [] else Repeat(x, n - 1) + [x]
  }

  lemma {:induction false} RepeatContents<T>(x: T, n: nat)
    ensures forall k :: 0 <= k < n ==> Repeat(x, n)[k] == x
    ensures multiset(Repeat(x, n)) == multiset{}[x := n]
  {
    if n > 0 {
      RepeatContents(x, n - 1);
    }
  }

  /** What one call of `begin` appends to the draw pool: `badMoleRate` bad
      moles (`for _ in 1...badMoleRate`) followed by one good mole for every
      value of `badMoleRate...10`. */
  function DrawPool(badMoleRate: int): (r: seq<MoleKind>)
    requires 1 <= badMoleRate <= 10
    ensures |r| == 11
  {
    Repeat(Bad, badMoleRate) + Repeat(Good, 11 - badMoleRate)
  }

  /** The draw pool holds `badMoleRate` bad moles, all in front, and
      `11 - badMoleRate` good ones; by default 2 bad and 9 good. */
  lemma DrawPoolContents(badMoleRate: int)
    requires 1 <= badMoleRate <= 10
    ensures forall k :: 0 <= k < 11 ==> (DrawPool(badMoleRate)[k] == Bad <==> k < badMoleRate)
    ensures multiset(DrawPool(badMoleRate))[Bad] == badMoleRate
    ensures multiset(DrawPool(badMoleRate))[Good] == 11 - badMoleRate
  {
    RepeatContents(Bad, badMoleRate);
    RepeatContents(Good, 11 - badMoleRate);
  }

  /** `p` appended `k` times in a row, as `k` calls of `begin` leave the
      draw pool (it is never cleared). */
  function Repeated(p: seq<MoleKind>, k: nat): (r: seq<MoleKind>)
    ensures |r| == k * |p|
  {
    if k == 0 then [] else Repeated(p, k - 1) + p
  }

  /** After `k` rounds each kind occurs `k` times as often as in one round. */
  lemma {:induction false} RepeatedContents(p: seq<MoleKind>, k: nat, x: MoleKind)
    ensures multiset(Repeated(p, k))[x] == k * multiset(p)[x]
  {
    if k > 0 {
      RepeatedContents(p, k - 1, x);
      assert multiset(Repeated(p, k)) == multiset(Repeated(p, k - 1)) + multiset(p);
      assert k * multiset(p)[x] == (k - 1) * multiset(p)[x] + multiset(p)[x];
    }
  }

  /** After `k` calls of `begin` the draw pool has 11 * k entries, of which
      `badMoleRate` * k are bad moles and the rest good ones. */
  lemma DrawPoolsAfter(badMoleRate: int, k: nat)
    requires 1 <= badMoleRate <= 10
    ensures |Repeated(DrawPool(badMoleRate), k)| == 11 * k
    ensures multiset(Repeated(DrawPool(badMoleRate), k))[Bad] == badMoleRate * k
    ensures multiset(Repeated(DrawPool(badMoleRate), k))[Good] == (11 - badMoleRate) * k
  {
    DrawPoolContents(badMoleRate);
    RepeatedContents(DrawPool(badMoleRate), k, Bad);
    RepeatedContents(DrawPool(badMoleRate), k, Good);
  }

  /** Picks admissible for draining a pool of `size` holes: each pick is an
      index into the pool as it is after the removals before it. */
  predicate ValidPicks(size: nat, picks: seq<nat>)
    decreases |picks|
  {
    picks == [] || (picks[0] < size && ValidPicks(size - 1, picks[1..]))
  }

  /** Successive non-refilling spawns on `pool` with the random indices
      `picks`: the holes that receive a mole, in order, and what is left. */
  function Drain(pool: seq<HoleId>, picks: seq<nat>): (r: (seq<HoleId>, seq<HoleId>))
    requires ValidPicks(|pool|, picks)
    ensures |r.0| == |picks| && |r.1| == |pool| - |picks|
    ensures multiset(r.0) + multiset(r.1) == multiset(pool)
    decreases |picks|
  {
    if picks == [] then ([], pool)
    else
      var hole := pool[picks[0]];
      var rest := Drain(RemoveAt(pool, picks[0]), picks[1..]);
      assert multiset([hole] + rest.0) == multiset{hole} + multiset(rest.0);
      assert multiset(rest.0) + multiset(rest.1) == multiset(RemoveAt(pool, picks[0]));
      ([hole] + rest.0, rest.1)
  }

  /** One spawn moves hole `i` from the free holes to the used ones; the two
      together still make up the same holes. */
  lemma SpawnKeepsHoles(used: seq<HoleId>, free: seq<HoleId>, holes: seq<HoleId>, i: nat)
    requires i < |free| && multiset(used) + multiset(free) == multiset(holes)
    ensures multiset(used + [free[i]]) + multiset(RemoveAt(free, i)) == multiset(holes)
  {
    assert multiset(used + [free[i]]) == multiset(used) + multiset{free[i]};
  }

  /** A full round of spawns from a refilled pool targets every hole exactly
      as often as it occurs in the pool, and empties the pool. */
  lemma {:induction false} FullRound(pool: seq<HoleId>, picks: seq<nat>)
    requires ValidPicks(|pool|, picks) && |picks| == |pool|
    ensures Drain(pool, picks).1 == []
    ensures multiset(Drain(pool, picks).0) == multiset(pool)
  {
  }
}
