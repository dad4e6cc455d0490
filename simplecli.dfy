/** The terminal version of the game (cli/simplecli.py): a five-action
    catalog, an outcome table without the short-poke row, an integer attack
    score without jitter, and the loop that plays points until the game is
    over. The attack score, the serving player and the choices of every
    point are parameters. */
module SimpleCli {

  import opened Rules
  import opened Commentary
  import opened Wrappers

  const AttackNames: map<int, string> := map[0 := "cut", 1 := "dia hit", 2 := "dia shot", 3 := "line hit", 4 := "line shot"]
  const BlockNames: map<int, string> := map[0 := "dia", 1 := "line"]
  const DefenseNames: map<int, string> := map[0 := "cut", 1 := "dia hit", 2 := "dia shot", 3 := "line hit", 4 := "line shot"]

  /** The catalogs are indexed 0..4 (attacks and defenses) and 0..1 (blocks). */
  lemma CatalogKeys(i: int)
    ensures i in AttackNames <==> 0 <= i <= 4
    ensures i in DefenseNames <==> 0 <= i <= 4
    ensures i in BlockNames <==> 0 <= i <= 1
  {
  }

  // ---------------------------------------------------------------------
  // Outcome table
  // ---------------------------------------------------------------------

  /** The base chance that the defense stops the attack, by the ordered rule
      list of this version's create_defense_lookup_table. */
  function BaseChance(a: int, b: int, s: int, d: int): (c: int)
    ensures IsTier(c)
  {
    if a == d then MatchChance(s)
    else if (a == 0 || a == 2) && b == 0 then BlockDirectionMatch
    else if a == 1 && b == 0 then BlockMatch
    else if a == 3 && b == 1 then BlockMatch
    else if a == 4 && b == 1 then BlockDirectionMatch
    else GeneralAttackMistake
  }

  /** This version enumerates attacks and defenses 0..7 and blocks 0..2. */
  ghost predicate IsDefenseTable(m: map<Key, int>)
  {
    IsTable(m, 8, 3, 8, BaseChance)
  }

  method CreateDefenseLookupTable() returns (lookup: map<Key, int>)
    ensures IsDefenseTable(lookup)
  {
    lookup := BuildTable(8, 3, 8, BaseChance);
  }

  /** The table holds exactly the keys {0..7} x {0..2} x {0,1} x {0..7},
      and every value is one of the five tiers. */
  lemma TableShape(m: map<Key, int>, k: Key)
    requires IsDefenseTable(m)
    ensures k in m <==> 0 <= k.0 <= 7 && 0 <= k.1 <= 2 && 0 <= k.2 <= 1 && 0 <= k.3 <= 7
    ensures k in m ==> IsTier(m[k])
  {
  }

  /** A defense naming the attack gives 90 on slot 0 and 55 on slot 1,
      whatever the block, ahead of the block rules. */
  lemma MatchRuleFirst(a: int, b: int)
    ensures BaseChance(a, b, 0, a) == 90 && BaseChance(a, b, 1, a) == 55
    ensures BaseChance(1, 0, 0, 1) == 90 && BaseChance(3, 1, 1, 3) == 55
  {
  }

  /** Without a match the block decides, and each tier names exactly its
      pairs; there is no short-poke row, so attack 5 always gets 5. */
  lemma BlockRules(a: int, b: int, s: int, d: int)
    requires a != d
    ensures BaseChance(a, b, s, d) == 75 <==> (a == 1 && b == 0) || (a == 3 && b == 1)
    ensures BaseChance(a, b, s, d) == 25 <==> (a == 0 && b == 0) || (a == 2 && b == 0) || (a == 4 && b == 1)
    ensures BaseChance(a, b, s, d) == 5 <==>
      !((a == 1 && b == 0) || (a == 3 && b == 1) || (a == 0 && b == 0) || (a == 2 && b == 0) || (a == 4 && b == 1))
    ensures BaseChance(a, b, s, d) != 90 && BaseChance(a, b, s, d) != 55
    ensures a == 5 ==> BaseChance(a, b, s, d) == 5
  {
  }

  // ---------------------------------------------------------------------
  // One point
  // ---------------------------------------------------------------------

  /** The commentary template of print_rally. An attack score of at most 5
      against a chance of 5 picks the "ball out" text, which is the text of
      a made defense; the tier text of the winning side otherwise. */
  function CommentTemplate(attackScore: int, chance: int): (t: string)
    requires IsTier(chance)
    ensures attackScore <= chance ==> t == DefenseMadeText[chance]
    ensures attackScore > chance ==> t == SuccessfulAttackText[chance]
  {
    TextTables(chance);
    if attackScore <= 5 && chance == 5 then DefenseMadeText[5]
    else if attackScore <= chance then DefenseMadeText[chance]
    else SuccessfulAttackText[chance]
  }

  /** The "ball out" text is chosen only for points the defender wins, and
      in this version the commentary always tells who won the point. */
  lemma CommentTellsWinner(attackScore: int, chance: int)
    requires IsTier(chance)
    ensures attackScore <= 5 && chance == 5 ==> attackScore <= chance
    ensures CommentTemplate(attackScore, chance) in DefenseMadeText.Values <==> attackScore <= chance
    ensures CommentTemplate(attackScore, chance) in SuccessfulAttackText.Values <==> attackScore > chance
  {
    TextTables(chance);
    assert DefenseMadeText[chance] in DefenseMadeText.Values;
    assert SuccessfulAttackText[chance] in SuccessfulAttackText.Values;
  }

  /** What calculate_point decides: the winner and the loser, the defense
      print_rally shows (the slot argmax picks) and the defense chance. */
  datatype Point = Point(winner: string, loser: string, shownDefense: int, chance: int)

  /** The choices of one point and its random draw. */
  datatype Choices = Choices(attack: int, block: int, defense1: int, defense2: int, attackScore: int)

  /** Every choice is in its catalog and the draw is randint(0, 101). */
  predicate ValidChoices(c: Choices)
  {
    0 <= c.attack <= 4 && 0 <= c.block <= 1 && 0 <= c.defense1 <= 4 && 0 <= c.defense2 <= 4 &&
    0 <= c.attackScore <= 100
  }

  /** calculate_point with the attack score as a parameter: the defense
      chance is the better slot, the defender wins exactly when the attack
      score does not exceed it, and the defense shown is the first slot
      reaching that chance. */
  function CalculatePoint(lookup: map<Key, int>, attackPlayer: string, defensePlayer: string, c: Choices): (p: Point)
    requires IsDefenseTable(lookup) && ValidChoices(c)
    ensures var c0, c1 := lookup[(c.attack, c.block, 0, c.defense1)], lookup[(c.attack, c.block, 1, c.defense2)];
            (p.chance == c0 || p.chance == c1) && p.chance >= c0 && p.chance >= c1 &&
            (p.chance == c0 ==> p.shownDefense == c.defense1) &&
            (p.chance != c0 ==> p.shownDefense == c.defense2)
    ensures IsTier(p.chance)
    ensures (p.winner, p.loser) == (if c.attackScore <= p.chance then (defensePlayer, attackPlayer)
                                    else (attackPlayer, defensePlayer))
  {
    var c0, c1 := lookup[(c.attack, c.block, 0, c.defense1)], lookup[(c.attack, c.block, 1, c.defense2)];
    var slot := if c0 >= c1 then 0 else 1;
    var chance := if slot == 0 then c0 else c1;
    var shown := if slot == 0 then c.defense1 else c.defense2;
    if c.attackScore <= chance then Point(defensePlayer, attackPlayer, shown, chance)
    else Point(attackPlayer, defensePlayer, shown, chance)
  }

  /** The commentary print_rally prints for a point: the text of the side
      that won, at the point's chance, with the names of the attack, the
      block and the two players put in its placeholders, whenever no name
      holds a '['. */
  function RallyComment(c: Choices, chance: int, attackPlayer: string, defensePlayer: string): (r: string)
    requires ValidChoices(c) && IsTier(chance)
    ensures var w := Words(AttackNames[c.attack], BlockNames[c.block], attackPlayer, defensePlayer);
            PlainWords(w) ==>
              r == Fill(if c.attackScore <= chance then DefenseMadePieces(chance) else SuccessfulAttackPieces(chance), w)
  {
    var w := Words(AttackNames[c.attack], BlockNames[c.block], attackPlayer, defensePlayer);
    var r := PrintCommentary(CommentTemplate(c.attackScore, chance), w.attack, w.block, w.attacker, w.defender);
    if PlainWords(w) then TableTextsFill(chance, w); r else r
  }

  /** game_finished on the list of scores, read in the order the players
      were entered. */
  function GameFinished(points: seq<int>): (r: bool)
    requires |points| >= 2
    ensures r <==> (points[0] >= 21 && points[0] - points[1] >= 2) || (points[1] >= 21 && points[1] - points[0] >= 2)
  {
    Finished(points[0], points[1])
  }

  // ---------------------------------------------------------------------
  // The game loop
  // ---------------------------------------------------------------------

  /** The state multi_player keeps between points. */
  datatype Match = Match(player1: string, player2: string, defensePlayer: string, attackPlayer: string,
                         points: map<string, int>)

  /** Two different players, a score for each, and each plays one role. */
  predicate WellFormed(m: Match)
  {
    m.player1 != m.player2 && m.points.Keys == {m.player1, m.player2} &&
    ((m.defensePlayer == m.player1 && m.attackPlayer == m.player2) ||
     (m.defensePlayer == m.player2 && m.attackPlayer == m.player1))
  }

  function Over(m: Match): bool
    requires WellFormed(m)
  {
    GameFinished([m.points[m.player1], m.points[m.player2]])
  }

  /** The state before the first point: no points, and the player picked
      to serve defends. */
  function Start(player1: string, player2: string, whoStarts: int): (m: Match)
    requires player1 != player2 && 0 <= whoStarts <= 1
    ensures WellFormed(m) && !Over(m)
    ensures m.defensePlayer == [player1, player2][whoStarts]
    ensures m.player1 == player1 && m.player2 == player2
    ensures m.points[player1] == 0 && m.points[player2] == 0
  {
    var players := [player1, player2];
    Match(player1, player2, players[whoStarts], if whoStarts == 1 then players[0] else players[1],
          map[player1 := 0, player2 := 0])
  }

  /** One pass of the loop body: the point's winner defends next and gains
      a point, the loser attacks next and keeps its score. */
  function PlayPoint(lookup: map<Key, int>, m: Match, c: Choices): (m': Match)
    requires IsDefenseTable(lookup) && ValidChoices(c) && WellFormed(m)
    ensures WellFormed(m') && m'.player1 == m.player1 && m'.player2 == m.player2
    ensures (m'.defensePlayer, m'.attackPlayer) == (m.defensePlayer, m.attackPlayer) ||
            (m'.defensePlayer, m'.attackPlayer) == (m.attackPlayer, m.defensePlayer)
    ensures m'.defensePlayer == m.defensePlayer <==>
            c.attackScore <= CalculatePoint(lookup, m.attackPlayer, m.defensePlayer, c).chance
    ensures m'.points[m'.defensePlayer] == m.points[m'.defensePlayer] + 1
    ensures m'.points[m'.attackPlayer] == m.points[m'.attackPlayer]
  {
    var p := CalculatePoint(lookup, m.attackPlayer, m.defensePlayer, c);
    m.(defensePlayer := p.winner, attackPlayer := p.loser,
       points := m.points[p.winner := m.points[p.winner] + 1])
  }

  /** The loop body of multi_player once the choices are in:
      calculate_point names the new defender and attacker, and the new
      defender's score goes up by one. */
  method PointStep(lookup: map<Key, int>, player1: string, player2: string, defensePlayer: string, attackPlayer: string,
                   points: map<string, int>, c: Choices)
    returns (newDefensePlayer: string, newAttackPlayer: string, newPoints: map<string, int>)
    requires IsDefenseTable(lookup) && ValidChoices(c)
    requires WellFormed(Match(player1, player2, defensePlayer, attackPlayer, points))
    ensures Match(player1, player2, newDefensePlayer, newAttackPlayer, newPoints) ==
            PlayPoint(lookup, Match(player1, player2, defensePlayer, attackPlayer, points), c)
  {
    var p := CalculatePoint(lookup, attackPlayer, defensePlayer, c);
    newDefensePlayer, newAttackPlayer := p.winner, p.loser;
    newPoints := points[newDefensePlayer := points[newDefensePlayer] + 1];
  }

  /** The state after playing the first n points of the list in order. */
  function Replay(lookup: map<Key, int>, start: Match, rallies: seq<Choices>, n: nat): (m: Match)
    requires IsDefenseTable(lookup) && WellFormed(start) && AllValid(rallies) && n <= |rallies|
    ensures WellFormed(m) && m.player1 == start.player1 && m.player2 == start.player2
    ensures m.points[m.player1] + m.points[m.player2] == start.points[start.player1] + start.points[start.player2] + n
  {
    if n == 0 then start else PlayPoint(lookup, Replay(lookup, start, rallies, n - 1), rallies[n - 1])
  }

  /** The point that ends the game is won by the player who then leads:
      the game was not over before it, so the loser of that point cannot be
      the one ahead. */
  lemma DecidingPointWinnerLeads(lookup: map<Key, int>, start: Match, rallies: seq<Choices>, n: nat)
    requires IsDefenseTable(lookup) && WellFormed(start) && AllValid(rallies) && n < |rallies|
    requires !Over(Replay(lookup, start, rallies, n))
    requires Over(Replay(lookup, start, rallies, n + 1))
    ensures var m := Replay(lookup, start, rallies, n + 1); m.points[m.defensePlayer] > m.points[m.attackPlayer]
  {
  }

  /** None of the states before the first n points was over: each of
      those points was played while the game was still on. */
  ghost predicate NotOverBefore(lookup: map<Key, int>, start: Match, rallies: seq<Choices>, n: nat)
    requires IsDefenseTable(lookup) && WellFormed(start) && AllValid(rallies) && n <= |rallies|
  {
    forall j | 0 <= j < n :: !Over(Replay(lookup, start, rallies, j))
  }

  /** A game that is over is led by the player serving, who won the last
      point. */
  predicate ServerLeads(m: Match)
    requires WellFormed(m)
  {
    Over(m) ==> m.points[m.defensePlayer] > m.points[m.attackPlayer]
  }

  /** One more pass of the game loop, from a state that is not over: no
      state before the next one was over, and if the point ends the game
      its winner leads. */
  lemma LoopStep(lookup: map<Key, int>, start: Match, rallies: seq<Choices>, n: nat)
    requires IsDefenseTable(lookup) && WellFormed(start) && AllValid(rallies) && n < |rallies|
    requires NotOverBefore(lookup, start, rallies, n) && !Over(Replay(lookup, start, rallies, n))
    ensures NotOverBefore(lookup, start, rallies, n + 1)
    ensures Replay(lookup, start, rallies, n + 1) == PlayPoint(lookup, Replay(lookup, start, rallies, n), rallies[n])
    ensures ServerLeads(PlayPoint(lookup, Replay(lookup, start, rallies, n), rallies[n]))
  {
    if Over(Replay(lookup, start, rallies, n + 1)) {
      DecidingPointWinnerLeads(lookup, start, rallies, n);
    }
  }

  /** The closing line of multi_player. */
  function Victory(m: Match): (r: string)
    requires WellFormed(m)
    ensures var head := m.defensePlayer + " has beaten " + m.attackPlayer + " ";
            |r| > |head| && r[..|head|] == head && r[|r| - 1] == '!'
  {
    m.defensePlayer + " has beaten " + m.attackPlayer + " " +
    IntToString(m.points[m.defensePlayer]) + " : " + IntToString(m.points[m.attackPlayer]) + "!"
  }

  /** Every point of the list has valid choices. */
  predicate AllValid(rallies: seq<Choices>)
  {
    forall i | 0 <= i < |rallies| :: ValidChoices(rallies[i])
  }

  /** multi_player from the serve choice on: points are played while the
      game is not over. The points come from a finite list, so the loop
      also stops when the list runs out; `played` says how many were used.
      The result is the replay of exactly those points, none of the earlier
      states was over, and a game that is over announces as victor the
      winner of the last point, who leads. */
  method MultiPlayer(lookup: map<Key, int>, player1: string, player2: string, whoStarts: int, rallies: seq<Choices>)
    returns (m: Match, played: nat, announcement: Option<string>)
    requires IsDefenseTable(lookup) && player1 != player2 && 0 <= whoStarts <= 1
    requires AllValid(rallies)
    ensures played <= |rallies|
    ensures m == Replay(lookup, Start(player1, player2, whoStarts), rallies, played)
    ensures NotOverBefore(lookup, Start(player1, player2, whoStarts), rallies, played)
    ensures Over(m) || played == |rallies|
    ensures m.points[player1] + m.points[player2] == played
    ensures Over(m) ==> m.points[m.defensePlayer] > m.points[m.attackPlayer] && announcement == Some(Victory(m))
    ensures !Over(m) ==> announcement == None
  {
    var players := [player1, player2];
    var points := map[player1 := 0, player2 := 0];
    var defensePlayer := players[whoStarts];
    var attackPlayer := if whoStarts == 1 then players[0] else players[1];
    ghost var start := Start(player1, player2, whoStarts);
    played := 0;
    while !GameFinished([points[player1], points[player2]]) && played < |rallies|
      invariant played <= |rallies|
      invariant Match(player1, player2, defensePlayer, attackPlayer, points) == Replay(lookup, start, rallies, played)
      invariant NotOverBefore(lookup, start, rallies, played)
      invariant ServerLeads(Match(player1, player2, defensePlayer, attackPlayer, points))
    {
      defensePlayer, attackPlayer, points := PointStep(lookup, player1, player2, defensePlayer, attackPlayer, points, rallies[played]);
      LoopStep(lookup, start, rallies, played);
      played := played + 1;
    }
    m := Match(player1, player2, defensePlayer, attackPlayer, points);
    announcement := if Over(m) then Some(Victory(m)) else None;
  }
}
