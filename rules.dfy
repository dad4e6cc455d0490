/** Rules shared by both versions of the game: the chance tiers, the
    "21, win by two" finish rule and the loop that fills an outcome table.
    ui/core/core.py and cli/simplecli.py each define these with identical
    values; they are defined once here. */
module Rules {

  /** Chance that a block matching the attack stops it. */
  const BlockMatch := 75
  /** Chance that a block in the attack's direction stops it. */
  const BlockDirectionMatch := 25
  /** Chance left when attack, block and defense are unrelated. */
  const GeneralAttackMistake := 5

  /** Chance that a defense naming the attack stops it: 90 on the first
      defense slot, 55 on the second (the only two slots there are). */
  function MatchChance(slot: int): int
  {
    if slot == 0 then 90 else 55
  }

  /** The five base chances an outcome table can hold. */
  predicate IsTier(c: int)
  {
    c == 5 || c == 25 || c == 55 || c == 75 || c == 90
  }

  function Abs(x: int): int
  {
    if x < 0 then -x else x
  }

  /** game_finished on the two scores: over once a score reached 21 and the
      scores are two or more apart. The contract says what that means: the
      leader has at least 21 and leads by at least two. */
  function Finished(p0: int, p1: int): (r: bool)
    ensures r <==> (p0 >= 21 && p0 - p1 >= 2) || (p1 >= 21 && p1 - p0 >= 2)
  {
    if p0 < 21 && p1 < 21 then false
    else if Abs(p0 - p1) < 2 then false
    else true
  }

  lemma FinishedSymmetric(p0: int, p1: int)
    ensures Finished(p0, p1) == Finished(p1, p0)
  {
  }

  /** The scores the finish rule must get right, deuce included. */
  lemma FinishedExamples()
    ensures !Finished(0, 0)
    ensures !Finished(20, 19) && !Finished(21, 20) && !Finished(21, 21)
    ensures Finished(21, 19) && Finished(19, 21)
    ensures !Finished(22, 21) && Finished(23, 21) && Finished(25, 23)
  {
  }

  /** One point goes to the winner of a rally. If the game was not over
      before the point and is over after it, the rally winner is the one
      who leads: the loser cannot have been leading a finished game. */
  lemma PointDecidesForWinner(winner: int, loser: int)
    requires !Finished(winner, loser)
    requires Finished(winner + 1, loser)
    ensures winner + 1 > loser
    ensures winner + 1 >= 21 && winner + 1 - loser >= 2
  {
  }

  /** The same on a score map with two names, listed in the order the
      finish rule reads them. */
  lemma PointDecidesForWinnerIn(score: map<string, int>, first: string, second: string, winner: string, loser: string)
    requires score.Keys == {first, second} && first != second
    requires (winner == first && loser == second) || (winner == second && loser == first)
    requires !Finished(score[first], score[second])
    requires var after := score[winner := score[winner] + 1]; Finished(after[first], after[second])
    ensures score[winner] + 1 > score[loser]
  {
  }

  /** A key of an outcome table: (attack, block, defense slot, defense). */
  type Key = (int, int, int, int)

  /** The keys the table builder enumerates: attacks 0..na-1, blocks
      0..nb-1, slots 0..1 and defenses 0..nd-1. */
  predicate InGrid(k: Key, na: int, nb: int, nd: int)
  {
    0 <= k.0 < na && 0 <= k.1 < nb && 0 <= k.2 < 2 && 0 <= k.3 < nd
  }

  /** m has exactly the keys of the grid and each holds chance of its key. */
  ghost predicate IsTable(m: map<Key, int>, na: int, nb: int, nd: int, chance: (int, int, int, int) -> int)
  {
    (forall k :: k in m <==> InGrid(k, na, nb, nd)) &&
    (forall k | k in m :: m[k] == chance(k.0, k.1, k.2, k.3))
  }

  /** Two tables of the same grid and chance rule are the same map: building
      the table involves no randomness. */
  lemma {:induction false} TableIsDetermined(m1: map<Key, int>, m2: map<Key, int>, na: int, nb: int, nd: int,
                                            chance: (int, int, int, int) -> int)
    requires IsTable(m1, na, nb, nd, chance) && IsTable(m2, na, nb, nd, chance)
    ensures m1 == m2
  {
  }

  /** The loop of create_defense_lookup_table: every quadruple of the grid
      gets the chance of its key. The source walks the meshgrid's flattened
      combinations; this walks the same quadruples in nested loops, and as
      every key is written once the order does not change the result. */
  method BuildTable(na: nat, nb: nat, nd: nat, chance: (int, int, int, int) -> int)
    returns (lookup: map<Key, int>)
    ensures forall k :: k in lookup <==> InGrid(k, na, nb, nd)
    ensures forall k | k in lookup :: lookup[k] == chance(k.0, k.1, k.2, k.3)
  {
    lookup := map[];
    for a := 0 to na
      invariant forall k :: k in lookup <==> InGrid(k, a, nb, nd)
      invariant forall k | k in lookup :: lookup[k] == chance(k.0, k.1, k.2, k.3)
    {
      for b := 0 to nb
        invariant forall k :: k in lookup <==>
          InGrid(k, a, nb, nd) || (k.0 == a && 0 <= k.1 < b && 0 <= k.2 < 2 && 0 <= k.3 < nd)
        invariant forall k | k in lookup :: lookup[k] == chance(k.0, k.1, k.2, k.3)
      {
        for s := 0 to 2
          invariant forall k :: k in lookup <==>
            InGrid(k, a, nb, nd) || (k.0 == a && 0 <= k.1 < b && 0 <= k.2 < 2 && 0 <= k.3 < nd) ||
            (k.0 == a && k.1 == b && 0 <= k.2 < s && 0 <= k.3 < nd)
          invariant forall k | k in lookup :: lookup[k] == chance(k.0, k.1, k.2, k.3)
        {
          for d := 0 to nd
            invariant forall k :: k in lookup <==>
              InGrid(k, a, nb, nd) || (k.0 == a && 0 <= k.1 < b && 0 <= k.2 < 2 && 0 <= k.3 < nd) ||
              (k.0 == a && k.1 == b && 0 <= k.2 < s && 0 <= k.3 < nd) ||
              (k.0 == a && k.1 == b && k.2 == s && 0 <= k.3 < d)
            invariant forall k | k in lookup :: lookup[k] == chance(k.0, k.1, k.2, k.3)
          {
            lookup := lookup[(a, b, s, d) := chance(a, b, s, d)];
          }
        }
      }
    }
  }
}
