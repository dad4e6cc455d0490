/** The game logic behind the graphical front end (ui/core/core.py): the
    action catalogs, the outcome table, the players, the rally and the
    game. Random draws are parameters: the coin of the toss and a Draws
    value per rally. */
module Core {

  import opened Rules
  import opened Commentary
  import opened Wrappers

  /** An attack, a block or a defense: its index and its name. */
  datatype Action = Action(index: int, name: string)

  const Attacks: seq<Action> := [Action(0, "cut"), Action(1, "dia hit"), Action(2, "dia shot"),
                                 Action(3, "line hit"), Action(4, "line shot"), Action(5, "spob")]
  const Blocks: seq<Action> := [Action(0, "dia"), Action(1, "line")]
  const Defenses: seq<Action> := [Action(0, "cut"), Action(1, "dia hit"), Action(2, "dia shot"),
                                  Action(3, "line hit"), Action(4, "line shot"), Action(5, "spob")]

  /** The choice a new player holds before choosing anything. */
  const Unset := Action(-1, "")

  /** Each catalog lists its actions by index, so that index i of the list
      is the action with index i (the source's *_DICT lookups). */
  lemma CatalogsIndexed()
    ensures forall i | 0 <= i < |Attacks| :: Attacks[i].index == i
    ensures forall i | 0 <= i < |Blocks| :: Blocks[i].index == i
    ensures forall i | 0 <= i < |Defenses| :: Defenses[i].index == i
  {
  }

  // ---------------------------------------------------------------------
  // Outcome table
  // ---------------------------------------------------------------------

  /** The base chance that the defense stops the attack, by the ordered
      rule list of create_defense_lookup_table. */
  function BaseChance(a: int, b: int, s: int, d: int): (c: int)
    ensures IsTier(c)
  {
    if a == d then MatchChance(s)
    else if a == 0 && b == 0 then BlockDirectionMatch  // cut against a dia block
    else if a == 1 && b == 0 then BlockMatch           // dia hit against a dia block
    else if a == 2 && b == 0 then BlockDirectionMatch  // dia shot against a dia block
    else if a == 3 && b == 1 then BlockMatch           // line hit against a line block
    else if a == 4 && b == 1 then BlockDirectionMatch  // line shot against a line block
    else if a == 5 && b == 1 then BlockDirectionMatch  // short poke against a line block
    else GeneralAttackMistake
  }

  /** The table's key space: one index past each catalog on the attack,
      block and defense axes (the range the source enumerates). */
  ghost predicate IsDefenseTable(m: map<Key, int>)
  {
    IsTable(m, |Attacks| + 1, |Blocks| + 1, |Defenses| + 1, BaseChance)
  }

  method CreateDefenseLookupTable() returns (lookup: map<Key, int>)
    ensures IsDefenseTable(lookup)
  {
    lookup := BuildTable(|Attacks| + 1, |Blocks| + 1, |Defenses| + 1, BaseChance);
  }

  /** The table holds exactly the keys {0..6} x {0..2} x {0,1} x {0..6},
      and every value is one of the five tiers. */
  lemma TableShape(m: map<Key, int>, k: Key)
    requires IsDefenseTable(m)
    ensures k in m <==> 0 <= k.0 <= 6 && 0 <= k.1 <= 2 && 0 <= k.2 <= 1 && 0 <= k.3 <= 6
    ensures k in m ==> IsTier(m[k])
  {
  }

  /** When the defense names the attack, the chance is 90 on slot 0 and 55
      on slot 1, whatever the block: this rule comes before the block
      rules, so (dia hit, dia block, s, dia hit) is 90 or 55 and not 75. */
  lemma MatchRuleFirst(a: int, b: int)
    ensures BaseChance(a, b, 0, a) == 90 && BaseChance(a, b, 1, a) == 55
    ensures BaseChance(1, 0, 0, 1) == 90 && BaseChance(1, 0, 1, 1) == 55
  {
  }

  /** Without a match between attack and defense, the block decides:
      each tier, read backwards, names exactly the pairs that give it. */
  lemma BlockRules(a: int, b: int, s: int, d: int)
    requires a != d
    ensures BaseChance(a, b, s, d) == 75 <==> (a == 1 && b == 0) || (a == 3 && b == 1)
    ensures BaseChance(a, b, s, d) == 25 <==>
      (a == 0 && b == 0) || (a == 2 && b == 0) || (a == 4 && b == 1) || (a == 5 && b == 1)
    ensures BaseChance(a, b, s, d) == 5 <==>
      !((a == 1 && b == 0) || (a == 3 && b == 1) ||
        (a == 0 && b == 0) || (a == 2 && b == 0) || (a == 4 && b == 1) || (a == 5 && b == 1))
    ensures BaseChance(a, b, s, d) != 90 && BaseChance(a, b, s, d) != 55
  {
  }

  /** The sentinel rows one past the catalogs: attack 6 and block 2 match
      no block pair, so only attack == defense lifts them above 5. */
  lemma SentinelRows(b: int, s: int, d: int)
    ensures d != 6 ==> BaseChance(6, b, s, d) == 5
    ensures 0 <= d < 6 ==> BaseChance(d, 2, s, d) == MatchChance(s)
    ensures BaseChance(6, b, s, 6) == MatchChance(s)
  {
  }

  // ---------------------------------------------------------------------
  // Rally
  // ---------------------------------------------------------------------

  /** The random draws of one rally: np.random.uniform(0.95, 1.05) for the
      defense score, np.random.randint(0, 101) and another uniform for the
      attack score. */
  datatype Draws = Draws(defenseJitter: real, attackRoll: int, attackJitter: real)

  predicate ValidDraws(r: Draws)
  {
    0.95 <= r.defenseJitter < 1.05 && 0 <= r.attackRoll <= 100 && 0.95 <= r.attackJitter < 1.05
  }

  /** What a rally leaves behind: the defense chance, the two scores and
      the words print_rally fills into its commentary. */
  datatype Rally = Rally(defenseChance: int, defenseScore: real, attackScore: real, words: Words)
  {
    /** The commentary print_rally returns: the template it picks with the
        rally's words put in its placeholders, whenever no word holds a '['. */
    function Comment(): (r: string)
      requires IsTier(defenseChance)
      ensures PlainWords(words) ==> r == Fill(CommentPieces(attackScore, defenseScore, defenseChance), words)
    {
      var p := CommentPieces(attackScore, defenseScore, defenseChance);
      var r := PrintCommentary(CommentTemplate(attackScore, defenseScore, defenseChance),
                               words.attack, words.block, words.attacker, words.defender);
      if PlainWords(words) then CommentaryFillsTemplate(p, words); r else r
    }
  }

  /** The rally goes to the defender when the attack score does not exceed
      the defense score. */
  predicate DefenderWins(r: Rally)
  {
    r.attackScore <= r.defenseScore
  }

  /** Attack, block and both defenses are actions of their catalogs. */
  predicate InCatalog(attack: Action, block: Action, defense1: Action, defense2: Action)
  {
    0 <= attack.index < |Attacks| && 0 <= block.index < |Blocks| &&
    0 <= defense1.index < |Defenses| && 0 <= defense2.index < |Defenses|
  }

  /** The better of the two defense slots. */
  function DefenseChance(lookup: map<Key, int>, attack: int, block: int, defense1: int, defense2: int): (c: int)
    requires (attack, block, 0, defense1) in lookup && (attack, block, 1, defense2) in lookup
    ensures c == lookup[(attack, block, 0, defense1)] || c == lookup[(attack, block, 1, defense2)]
    ensures c >= lookup[(attack, block, 0, defense1)] && c >= lookup[(attack, block, 1, defense2)]
  {
    var c0, c1 := lookup[(attack, block, 0, defense1)], lookup[(attack, block, 1, defense2)];
    if c0 >= c1 then c0 else c1
  }

  /** The commentary template print_rally picks: the "ball out" text when
      both scores are at most 5, otherwise by the winner and the chance. */
  function CommentTemplate(attackScore: real, defenseScore: real, chance: int): (t: string)
    requires IsTier(chance)
    ensures t in DefenseMadeText.Values || t in SuccessfulAttackText.Values
    ensures t in SuccessfulAttackText.Values ==> attackScore > defenseScore
    ensures attackScore <= defenseScore ==> t in DefenseMadeText.Values
    ensures attackScore <= 5.0 && defenseScore <= 5.0 ==> t == DefenseMadeText[5]
    ensures !(attackScore <= 5.0 && defenseScore <= 5.0) && attackScore <= defenseScore ==> t == DefenseMadeText[chance]
    ensures !(attackScore <= 5.0 && defenseScore <= 5.0) && attackScore > defenseScore ==> t == SuccessfulAttackText[chance]
  {
    TextTables(chance);
    TextTables(5);
    if attackScore <= 5.0 && defenseScore <= 5.0 then DefenseMadeText[5]
    else if attackScore <= defenseScore then DefenseMadeText[chance]
    else SuccessfulAttackText[chance]
  }

  /** The template print_rally picks, read as literal text and
      placeholders: it renders to that template and no literal part of it
      holds a '['. */
  function CommentPieces(attackScore: real, defenseScore: real, chance: int): (p: seq<Piece>)
    requires IsTier(chance)
    ensures PlainText(p) && Render(p) == CommentTemplate(attackScore, defenseScore, chance)
  {
    TemplatesPlain(chance);
    TemplatesPlain(5);
    if attackScore <= 5.0 && defenseScore <= 5.0 then DefenseMadePieces(5)
    else if attackScore <= defenseScore then DefenseMadePieces(chance)
    else SuccessfulAttackPieces(chance)
  }

  /** The defense chance times its jitter: within 5% of the chance. */
  function DefenseScore(chance: int, jitter: real): (s: real)
    requires chance > 0 && 0.95 <= jitter < 1.05
    ensures chance as real * 0.95 <= s < chance as real * 1.05
  {
    JitterBounds(chance as real, jitter);
    chance as real * jitter
  }

  /** The attack roll times its jitter: never negative, below 105. */
  function AttackScore(roll: int, jitter: real): (s: real)
    requires 0 <= roll <= 100 && 0.95 <= jitter < 1.05
    ensures 0.0 <= s < 105.0
  {
    ScaleBounds(roll as real, 100.0, jitter);
    roll as real * jitter
  }

  /** calc_outcome and print_rally on the values the players hold: the
      chance, the jittered scores and the commentary. */
  function RallyOf(lookup: map<Key, int>, attack: Action, block: Action, defense1: Action, defense2: Action,
                   attacker: string, defender: string, draws: Draws): (r: Rally)
    requires IsDefenseTable(lookup) && InCatalog(attack, block, defense1, defense2) && ValidDraws(draws)
    ensures IsTier(r.defenseChance)
    ensures r.defenseChance == DefenseChance(lookup, attack.index, block.index, defense1.index, defense2.index)
    ensures r.defenseChance as real * 0.95 <= r.defenseScore < r.defenseChance as real * 1.05
    ensures 0.0 <= r.attackScore < 105.0
  {
    var chance := DefenseChance(lookup, attack.index, block.index, defense1.index, defense2.index);
    var defenseScore := DefenseScore(chance, draws.defenseJitter);
    var attackScore := AttackScore(draws.attackRoll, draws.attackJitter);
    Rally(chance, defenseScore, attackScore, Words(attack.name, block.name, attacker, defender))
  }

  /** Scaling by a positive jitter keeps a score below its bound. */
  lemma ScaleBounds(x: real, bound: real, j: real)
    requires 0.0 <= x <= bound && 0.0 < j
    ensures 0.0 <= x * j <= bound * j
  {
  }

  /** A jittered score stays within 5% of its base. */
  lemma JitterBounds(x: real, j: real)
    requires x > 0.0 && 0.95 <= j < 1.05
    ensures x * 0.95 <= x * j < x * 1.05
  {
  }

  /** The "ball out" commentary needs a defense score of at most 5, which
      the jitter allows only on the lowest tier. */
  lemma BallOutOnlyOnLowestTier(chance: int, draws: Draws)
    requires IsTier(chance) && ValidDraws(draws)
    requires chance as real * draws.defenseJitter <= 5.0
    ensures chance == 5
  {
  }

  /** The "ball out" text is a defense text, yet it is also chosen when the
      attacker wins: cut against a line block with both defenses on dia hit
      has chance 5; a jitter of 0.95 makes the defense score 4.75, and a
      roll of 5 with a jitter of 0.96 makes the attack score 4.8. */
  lemma BallOutAfterAttackerWins(lookup: map<Key, int>, attacker: string, defender: string)
    requires IsDefenseTable(lookup)
    ensures var r := RallyOf(lookup, Attacks[0], Blocks[1], Defenses[1], Defenses[1], attacker, defender,
                             Draws(0.95, 5, 0.96));
            !DefenderWins(r) && r.defenseChance == 5 &&
            CommentTemplate(r.attackScore, r.defenseScore, r.defenseChance) == DefenseMadeText[5] && r.words == Words("cut", "line", attacker, defender)
  {
  }

  // ---------------------------------------------------------------------
  // Players
  // ---------------------------------------------------------------------

  class Player {
    const name: string
    var attack: Action
    var block: Action
    var defense1: Action
    var defense2: Action

    constructor (name: string)
      ensures this.name == name
      ensures attack == Unset && block == Unset && defense1 == Unset && defense2 == Unset
    {
      this.name := name;
      attack, block, defense1, defense2 := Unset, Unset, Unset, Unset;
    }

    method SetAttack(attack: Action)
      modifies this`attack
      ensures this.attack == attack
    {
      this.attack := attack;
    }

    method SetBlock(block: Action)
      modifies this`block
      ensures this.block == block
    {
      this.block := block;
    }

    method SetDefense1(defense: Action)
      modifies this`defense1
      ensures defense1 == defense
    {
      defense1 := defense;
    }

    method SetDefense2(defense: Action)
      modifies this`defense2
      ensures defense2 == defense
    {
      defense2 := defense;
    }

    method SetDefense(defense1: Action, defense2: Action)
      modifies this`defense1, this`defense2
      ensures this.defense1 == defense1 && this.defense2 == defense2
    {
      SetDefense1(defense1);
      SetDefense2(defense2);
    }
  }

  /** The pair calc_outcome returns: (winner, loser), and the rally. */
  datatype Outcome = Outcome(winner: Player, loser: Player, rally: Rally)

  /** Rally.calc_outcome: the winner and the loser are the two players,
      and the defender wins exactly when the attack score does not exceed
      the defense score (ties go to the defender). */
  function CalcOutcome(attacker: Player, defender: Player, lookup: map<Key, int>, draws: Draws): (o: Outcome)
    reads attacker, defender
    requires attacker != defender
    requires IsDefenseTable(lookup) && ValidDraws(draws)
    requires InCatalog(attacker.attack, defender.block, defender.defense1, defender.defense2)
    ensures o.rally == RallyOf(lookup, attacker.attack, defender.block, defender.defense1, defender.defense2,
                               attacker.name, defender.name, draws)
    ensures (o.winner, o.loser) == (defender, attacker) || (o.winner, o.loser) == (attacker, defender)
    ensures o.winner == defender <==> o.rally.attackScore <= o.rally.defenseScore
  {
    var r := RallyOf(lookup, attacker.attack, defender.block, defender.defense1, defender.defense2,
                     attacker.name, defender.name, draws);
    if r.attackScore <= r.defenseScore then Outcome(defender, attacker, r) else Outcome(attacker, defender, r)
  }

  // ---------------------------------------------------------------------
  // Game
  // ---------------------------------------------------------------------

  class Game {
    const players: seq<Player>
    var currentDefender: Player?
    var currentAttacker: Player?
    var score: map<string, int>
    const lookup: map<Key, int>
    var currentComment: string

    /** Two players with different names, a score for each name, and once
        the coin is tossed one of them defends while the other attacks. */
    ghost predicate Valid()
      reads this
    {
      |players| == 2 && players[0].name != players[1].name &&
      players[0].name in score && players[1].name in score &&
      (currentDefender == null <==> currentAttacker == null) &&
      (currentDefender != null ==>
        (currentDefender == players[0] && currentAttacker == players[1]) ||
        (currentDefender == players[1] && currentAttacker == players[0]))
    }

    /** The coin has been tossed. */
    predicate InProgress()
      reads this
    {
      currentDefender != null && currentAttacker != null
    }

    constructor (player1: Player, player2: Player, lookup: map<Key, int>)
      requires player1.name != player2.name
      ensures Valid() && !InProgress()
      ensures players == [player1, player2] && this.lookup == lookup
      ensures score == map[player1.name := 0, player2.name := 0]
      ensures currentComment == ""
    {
      players := [player1, player2];
      currentDefender, currentAttacker := null, null;
      score := map[player1.name := 0, player2.name := 0];
      this.lookup := lookup;
      currentComment := "";
    }

    /** coin_toss with the coin as a parameter: the player the coin picks
        serves, that is, defends first. */
    method CoinToss(coin: int) returns (message: string)
      requires Valid() && 0 <= coin <= 1
      modifies this`currentDefender, this`currentAttacker
      ensures Valid() && InProgress()
      ensures currentDefender == players[coin] && currentAttacker == players[1 - coin]
      ensures message == players[coin].name + " serves!"
    {
      currentDefender := players[coin];
      currentAttacker := players[Abs(coin - 1)];
      message := players[coin].name + " serves!";
    }

    /** Attacker's attack, defender's block and both defenses are in their
        catalogs, and the lookup is the outcome table. */
    predicate ReadyForRally()
      reads this, currentAttacker, currentDefender
      requires InProgress()
    {
      InCatalog(currentAttacker.attack, currentDefender.block, currentDefender.defense1, currentDefender.defense2)
    }

    /** game_finished: the scores in the order the players were given. */
    function GameFinished(): (r: bool)
      reads this
      requires Valid()
      ensures var s0, s1 := score[players[0].name], score[players[1].name];
              r <==> (s0 >= 21 && s0 >= s1 + 2) || (s1 >= 21 && s1 >= s0 + 2)
    {
      Finished(score[players[0].name], score[players[1].name])
    }

    /** play_rally: the rally winner serves next, so it becomes the
        defender and the loser the attacker; the winner's score goes up by
        one and the other score stays. */
    method PlayRally(draws: Draws) returns (rally: Rally)
      requires Valid() && InProgress() && ReadyForRally()
      requires IsDefenseTable(lookup) && ValidDraws(draws)
      modifies this`currentDefender, this`currentAttacker, this`score
      ensures Valid() && InProgress()
      ensures var o := old(CalcOutcome(currentAttacker, currentDefender, lookup, draws));
              rally == o.rally && currentDefender == o.winner && currentAttacker == o.loser
      ensures currentDefender == old(currentDefender) <==> DefenderWins(rally)
      ensures score == old(score)[currentDefender.name := old(score)[currentDefender.name] + 1]
      ensures score[currentAttacker.name] == old(score)[currentAttacker.name]
      ensures !old(GameFinished()) && GameFinished() ==> score[currentDefender.name] > score[currentAttacker.name]
    {
      var o := CalcOutcome(currentAttacker, currentDefender, lookup, draws);
      var winner, loser := o.winner, o.loser;
      ghost var s0, s1 := score[players[0].name], score[players[1].name];
      score := score[winner.name := score[winner.name] + 1];
      currentDefender, currentAttacker := winner, loser;
      rally := o.rally;
      if winner == players[0] {
        assert score[players[0].name] == s0 + 1 && score[players[1].name] == s1;
      } else {
        assert score[players[0].name] == s0 && score[players[1].name] == s1 + 1;
      }
    }

    /** update: a choice arrives tagged with its screen. "attack" goes to
        the attacker, "block" and "defense1" to the defender, and all three
        return no result; "defense2" completes the defender's choices and
        plays the rally; any other tag changes nothing. */
    method Update(action: Action, t: string, draws: Draws) returns (result: Option<Rally>)
      requires Valid()
      requires t == "attack" || t == "block" || t == "defense1" || t == "defense2" ==> InProgress()
      requires t == "defense2" ==>
        IsDefenseTable(lookup) && ValidDraws(draws) &&
        InCatalog(currentAttacker.attack, currentDefender.block, currentDefender.defense1, action)
      modifies this`currentDefender, this`currentAttacker, this`score, players
      ensures Valid()
      ensures t != "defense2" ==>
        result == None && score == old(score) &&
        currentDefender == old(currentDefender) && currentAttacker == old(currentAttacker)
      ensures t == "attack" ==>
        currentAttacker.attack == action && unchanged(currentDefender) &&
        unchanged(currentAttacker`block, currentAttacker`defense1, currentAttacker`defense2)
      ensures t == "block" ==>
        currentDefender.block == action && unchanged(currentAttacker) &&
        unchanged(currentDefender`attack, currentDefender`defense1, currentDefender`defense2)
      ensures t == "defense1" ==>
        currentDefender.defense1 == action && unchanged(currentAttacker) &&
        unchanged(currentDefender`attack, currentDefender`block, currentDefender`defense2)
      ensures t != "attack" && t != "block" && t != "defense1" && t != "defense2" ==> unchanged(players)
      ensures t == "defense2" ==>
        var r := RallyOf(lookup, old(currentAttacker.attack), old(currentDefender.block),
                         old(currentDefender.defense1), action,
                         old(currentAttacker).name, old(currentDefender).name, draws);
        result == Some(r) &&
        old(currentDefender).defense2 == action && unchanged(old(currentAttacker)) &&
        unchanged(old(currentDefender)`attack, old(currentDefender)`block, old(currentDefender)`defense1) &&
        (currentDefender, currentAttacker) ==
          (if DefenderWins(r) then (old(currentDefender), old(currentAttacker))
           else (old(currentAttacker), old(currentDefender))) &&
        score == old(score)[currentDefender.name := old(score)[currentDefender.name] + 1]
    {
      if t == "attack" {
        currentAttacker.SetAttack(action);
      }
      if t == "block" {
        currentDefender.SetBlock(action);
      }
      if t == "defense1" {
        currentDefender.SetDefense1(action);
      }
      if t == "defense2" {
        currentDefender.SetDefense2(action);
        var rally := PlayRally(draws);
        return Some(rally);
      }
      return None;
    }
  }

  // ---------------------------------------------------------------------
  // Catalog text
  // ---------------------------------------------------------------------

  /** "name: index" for one action. */
  function Entry(a: Action): string
  {
    a.name + ": " + IntToString(a.index)
  }

  /** The entries of a list of actions joined by ", ". */
  function JoinEntries(l: seq<Action>): (s: string)
    ensures l == [] <==> s == []
  {
    if l == [] then ""
    else if |l| == 1 then Entry(l[0])
    else Entry(l[0]) + ", " + JoinEntries(l[1..])
  }

  /** What the loop of action_list_to_string has built after the first
      entries: each entry followed by ", ". */
  function Accumulated(l: seq<Action>): string
  {
    if l == [] then "" else Accumulated(l[..|l| - 1]) + Entry(l[|l| - 1]) + ", "
  }

  lemma {:induction false} AccumulatedIsJoinPlusComma(l: seq<Action>)
    requires l != []
    ensures Accumulated(l) == JoinEntries(l) + ", "
    decreases |l|
  {
    var init, last := l[..|l| - 1], l[|l| - 1];
    if init == [] {
      assert Accumulated(l) == Accumulated(init) + Entry(last) + ", ";
    } else {
      assert init + [last] == l;
      calc {
        Accumulated(l);
        Accumulated(init) + Entry(last) + ", ";
        { AccumulatedIsJoinPlusComma(init); }
        JoinEntries(init) + ", " + Entry(last) + ", ";
        { JoinSnoc(init, last); }
        JoinEntries(l) + ", ";
      }
    }
  }

  /** Joining a list with one more action appends ", " and its entry. */
  lemma {:induction false} JoinSnoc(l: seq<Action>, a: Action)
    requires l != []
    ensures JoinEntries(l + [a]) == JoinEntries(l) + ", " + Entry(a)
    decreases |l|
  {
    var la := l + [a];
    if |l| == 1 {
      assert la[1..] == [a];
    } else {
      assert la[1..] == l[1..] + [a];
      JoinSnoc(l[1..], a);
      var first, rest, last := Entry(l[0]), JoinEntries(l[1..]), Entry(a);
      assert JoinEntries(la) == first + ", " + (rest + ", " + last);
      assert first + ", " + (rest + ", " + last) == (first + ", " + rest) + ", " + last;
    }
  }

  /** action_list_to_string: "name: index" for every action, joined by
      ", " (the loop appends ", " after each and cuts the last one off). */
  method ActionListToString(l: seq<Action>) returns (s: string)
    ensures s == JoinEntries(l)
  {
    s := "";
    for i := 0 to |l|
      invariant s == Accumulated(l[..i])
    {
      assert l[..i + 1][..i] == l[..i];
      s := s + Entry(l[i]) + ", ";
    }
    assert l[..|l|] == l;
    if l != [] {
      AccumulatedIsJoinPlusComma(l);
    }
    s := if |s| >= 2 then s[..|s| - 2] else "";
  }
}
