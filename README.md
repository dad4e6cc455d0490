# Beach-volleyball rally game: a verified model of the game logic

beach-chess is a two-player beach-volleyball game. In each rally one player
attacks and the other defends:

- The attacker picks an attack: cut, dia hit, dia shot, line hit, line shot
  or (in the newer version) short poke, "spob".
- The defender picks a block (dia or line) and two defenses.
- An outcome table gives the defender a chance for every
  (attack, block, defense slot, defense) quadruple. A defense that names the
  attack is worth 90 in the first slot and 55 in the second. A block in the
  attack's direction is worth 75 or 25. Anything else is worth 5.
- The better of the two slots is the defense chance. It is compared with an
  attack score, and ties go to the defender.
- The rally winner serves next, which means it defends, and gains one
  point. A game ends once a score reaches 21 with a lead of two.
- Each rally produces a commentary line from a template with the
  placeholders `[attack]`, `[block]`, `[a]` and `[d]`.

The repository has two versions of this logic, and the model covers both:

- `ui/core/core.py`, the engine behind the graphical front end. It is
  modelled in `core.dfy` (module `Core`). `Player` and `Game` are classes
  whose methods update fields, as in the source. The table builder and
  `action_list_to_string` are loops. The rally decision is a function.
- `cli/simplecli.py`, the older terminal version. It is modelled in
  `simplecli.dfy` (module `SimpleCli`). It has a smaller catalog, no
  short-poke rule and an integer attack score. Its game loop is a method
  over a sequence of per-point inputs.

Shared parts:

- `rules.dfy` (module `Rules`) holds what the two files define identically:
  the chance constants, the finish rule, and the nested loop that fills a
  table.
- `commentary.dfy` (module `Commentary`) models Python's `str.replace` and
  the four-step replace chain of `print_commentary`. It proves that the chain
  fills a template. The two commentary tables are written as lists of
  literal text and placeholders, which render to the source's strings. It also holds the decimal rendering used by
  `action_list_to_string`.
- `versions.dfy` (module `Versions`) compares the two outcome tables.

Randomness is passed in as parameters:

- the coin of `coin_toss`;
- a `Draws` value per rally in `core.py`: the defense jitter, the attack
  roll and the attack jitter, with a jitter in [0.95, 1.05) and a roll in
  0..100;
- the integer attack score of each CLI point.

## Model

| member | source | states |
|---|---|---|
| Rules.Finished | ui/core/core.py:208-214 | The game is finished iff one score is at least 21 and leads the other by at least 2 |
| Rules.FinishedSymmetric | ui/core/core.py:210-214 | Swapping the two scores does not change whether the game is finished |
| Rules.FinishedExamples | ui/core/core.py:210-214 | 0:0, 20:19, 21:20, 21:21 and 22:21 are not finished; 21:19, 19:21, 23:21 and 25:23 are finished |
| Rules.PointDecidesForWinner | ui/core/core.py:177-181 | If a game is unfinished before a point and finished after the winner's score goes up by one, the winner has at least 21 and leads by at least 2 |
| Rules.PointDecidesForWinnerIn | cli/simplecli.py:166-167 | The same on a two-name score map read in entry order: the point's winner leads the loser afterwards |
| Rules.TableIsDetermined | ui/core/core.py:224-251 | Two tables with the same grid and the same chance rule are the same map |
| Rules.BuildTable | ui/core/core.py:230-249 | The loop writes exactly the keys of the grid, and each key holds the chance of that key |
| Commentary.TextTables | ui/core/core.py:12-26 | Both text tables are keyed by exactly the five chance tiers, and no text is in both tables |
| Commentary.TemplatesPlain | ui/core/core.py:12-26 | Every text of both tables, read as literal text and placeholders, has no '[' in its literal text |
| Commentary.ReplaceAll | ui/core/core.py:77-80 | Replacing in a string that does not contain the pattern's first character returns the string unchanged |
| Commentary.ReplaceAllSkipsPlain | ui/core/core.py:77-80 | Text without the pattern's first character is copied through, and replacement continues after it |
| Commentary.ReplaceAllAtFront | ui/core/core.py:77-80 | An occurrence of the pattern at the front is replaced, and replacement continues after it |
| Commentary.ReplaceAllSkipsOther | ui/core/core.py:77-80 | A bracketed placeholder that differs from the pattern is copied through unchanged |
| Commentary.CommentaryFillsTemplate | ui/core/core.py:76-81 | The chain of four replaces fills every placeholder of a template with its word, when no word or literal text contains '[' |
| Commentary.PrintCommentary | ui/core/core.py:76-81 | A comment with no '[' in it comes back unchanged, since no placeholder can start in it |
| Commentary.TableTextsFill | ui/core/core.py:76-81 | Each of the ten table texts, passed through print_commentary, comes out with every placeholder replaced by its word and the rest of the text kept, when no word contains '[' |
| Commentary.NatToString | ui/core/core.py:73 | The decimal text of a number is non-empty and all digits |
| Commentary.NatToStringRoundTrip | ui/core/core.py:73 | Reading the decimal text of a number back gives the number |
| Commentary.IntToString | ui/core/core.py:73 | str() of a non-negative number is all digits and reads back as the number; of a negative number, a '-' followed by digits that read back as its magnitude |
| Core.CatalogsIndexed | ui/core/core.py:32-56 | In each catalog, the action at list position i has index i |
| Core.BaseChance | ui/core/core.py:233-249 | Every chance the rule list assigns is one of the five tiers 5, 25, 55, 75, 90 |
| Core.CreateDefenseLookupTable | ui/core/core.py:224-251 | The table holds exactly the grid keys, and each key holds the rule list's chance |
| Core.TableShape | ui/core/core.py:225-228 | The key set is exactly {0..6}x{0..2}x{0,1}x{0..6}, which includes one sentinel index per axis, and every value is a tier |
| Core.MatchRuleFirst | ui/core/core.py:234-235 | When the attack equals the defense, the chance is 90 in slot 0 and 55 in slot 1 whatever the block; (1,0,s,1) gets 90/55, not 75 |
| Core.BlockRules | ui/core/core.py:236-249 | Otherwise the chance is 75 iff (attack, block) is (1,0) or (3,1); 25 iff it is (0,0), (2,0), (4,1) or (5,1); and 5 for every other pair |
| Core.SentinelRows | ui/core/core.py:225-249 | The sentinel attack row gives 5 unless the defense is also the sentinel, where the match rule gives 90 or 55 by slot; the sentinel block still gets the match rule |
| Core.DefenseChance | ui/core/core.py:154-155 | The defense chance is one of the two slot values and at least both of them, so it is their maximum |
| Core.CommentTemplate | ui/core/core.py:142-147 | With both scores at most 5 the template is the made-defense text of tier 5 ("ball out"); otherwise it is the made-defense text of the chance's tier when the attack score does not exceed the defense score, and the successful-attack text of that tier when it does; so a successful-attack text only when the attacker won, and a defense text whenever the defender won |
| Core.CommentPieces | ui/core/core.py:142-147 | The chosen template, read as literal text and placeholders, renders to exactly that template and has no '[' in its literal text |
| Core.Rally.Comment | ui/core/core.py:138-148 | The rally's commentary is the chosen template with the attack, the block, the attacker and the defender put in its placeholders and its literal text kept, when no word contains '[' |
| Core.DefenseScore | ui/core/core.py:156 | The defense score lies in [0.95, 1.05) times the chance |
| Core.AttackScore | ui/core/core.py:157 | The attack score lies in [0, 105) |
| Core.RallyOf | ui/core/core.py:150-158 | The rally's chance is the table maximum over the two slots and is a tier, and both scores are within their jitter bounds |
| Core.BallOutOnlyOnLowestTier | ui/core/core.py:142-143 | A defense score of at most 5 is only possible on the lowest chance tier |
| Core.BallOutAfterAttackerWins | ui/core/core.py:142-159 | A concrete rally (cut against a line block, defense 4.75, attack 4.8) that the attacker wins but whose commentary says the attacker put the ball out |
| Core.Player.constructor | ui/core/core.py:93-98 | A new player has its name and the unset action (-1, "") for attack, block and both defenses |
| Core.Player.SetAttack | ui/core/core.py:103-104 | Sets the attack and nothing else |
| Core.Player.SetBlock | ui/core/core.py:109-110 | Sets the block and nothing else |
| Core.Player.SetDefense1 | ui/core/core.py:115-116 | Sets the first defense and nothing else |
| Core.Player.SetDefense2 | ui/core/core.py:118-119 | Sets the second defense and nothing else |
| Core.Player.SetDefense | ui/core/core.py:121-123 | Sets both defenses and nothing else |
| Core.CalcOutcome | ui/core/core.py:150-159 | The rally is resolved from the attacker's attack and the defender's block and defenses; the result is the two players in some order; the defender wins iff attack score <= defense score |
| Core.Game.constructor | ui/core/core.py:162-168 | Both players, the table, a zero score for each name, no defender or attacker yet |
| Core.Game.CoinToss | ui/core/core.py:170-175 | The player the coin picks defends, the other attacks, and the message names the server |
| Core.Game.GameFinished | ui/core/core.py:208-214 | True iff one score, in player order, is at least 21 and at least 2 ahead |
| Core.Game.PlayRally | ui/core/core.py:177-181 | The winner becomes the defender and the loser the attacker; roles stay iff the defender won; the winner's score goes up by one and the other stays; a rally that finishes the game leaves the new server ahead |
| Core.Game.Update | ui/core/core.py:183-193 | "attack", "block" and "defense1" set only their one field and return no rally; other unknown tags change nothing; only "defense2" sets the second defense and plays the rally, returning it |
| Core.JoinEntries | ui/core/core.py:70-74 | The joined catalog text is empty iff the list is empty |
| Core.AccumulatedIsJoinPlusComma | ui/core/core.py:72-74 | The loop's accumulated text is the ", "-joined entries followed by one ", " |
| Core.JoinSnoc | ui/core/core.py:72-74 | Appending an action appends ", name: index" to the joined text |
| Core.ActionListToString | ui/core/core.py:70-74 | The result is the entries "name: index" joined by ", " (the trailing separator is cut) |
| SimpleCli.CatalogKeys | cli/simplecli.py:5-24 | The attack and defense catalogs have keys 0..4 and the block catalog keys 0..1 |
| SimpleCli.BaseChance | cli/simplecli.py:71-83 | Every chance the rule list assigns is a tier |
| SimpleCli.CreateDefenseLookupTable | cli/simplecli.py:62-85 | The table holds exactly the grid keys, and each key holds the rule list's chance |
| SimpleCli.TableShape | cli/simplecli.py:63-66 | The key set is exactly {0..7}x{0..2}x{0,1}x{0..7}, and every value is a tier |
| SimpleCli.MatchRuleFirst | cli/simplecli.py:72-73 | When the attack equals the defense, the chance is 90 in slot 0 and 55 in slot 1, ahead of the block rules |
| SimpleCli.BlockRules | cli/simplecli.py:74-83 | Otherwise the chance is 75 iff (attack, block) is (1,0) or (3,1); 25 iff it is (0,0), (2,0) or (4,1); else 5; a short poke always gets 5 |
| SimpleCli.CommentTemplate | cli/simplecli.py:97-102 | A defense text of the chance's tier when the attack score is at most the chance, a successful-attack text of that tier otherwise |
| SimpleCli.CommentTellsWinner | cli/simplecli.py:97-102 | The ball-out override only fires when the defender wins; the comment is a defense text iff the defender wins |
| SimpleCli.RallyComment | cli/simplecli.py:94-102 | The printed commentary is the made-defense text of the chance's tier when the attack score is at most the chance, else the successful-attack text, with the attack's and the block's names and the two players put in its placeholders, when no word contains '[' |
| SimpleCli.CalculatePoint | cli/simplecli.py:130-136 | The chance is the maximum of the two slots; the reported defense is the first slot's unless the second is strictly better; the defender wins iff attack score <= chance |
| SimpleCli.GameFinished | cli/simplecli.py:138-143 | True iff one of the two scores is at least 21 and at least 2 ahead |
| SimpleCli.Start | cli/simplecli.py:150-158 | Both players are on zero, the chosen player defends, the other attacks, and the game is not finished |
| SimpleCli.PlayPoint | cli/simplecli.py:166-167 | The point's winner becomes the defense player and gains one point; the loser attacks and keeps its score; roles stay iff the defender won |
| SimpleCli.PointStep | cli/simplecli.py:166-167 | The loop body computes exactly the PlayPoint step on the loop's variables |
| SimpleCli.Replay | cli/simplecli.py:160-167 | After n points the state is well formed, the players are kept, and n points have been handed out |
| SimpleCli.DecidingPointWinnerLeads | cli/simplecli.py:160-172 | If the game ends on a point, that point's winner, now the defense player, has the strictly higher score |
| SimpleCli.LoopStep | cli/simplecli.py:160-167 | One more point extends the unfinished prefix, and a point that ends the game leaves the server ahead |
| SimpleCli.MultiPlayer | cli/simplecli.py:160-172 | The loop plays points until the game is over or the inputs run out; the state is the replay of the points played; no earlier state was over; the points played equal the sum of the scores; a finished game announces the defense player, who leads, as the victor |
| SimpleCli.Victory | cli/simplecli.py:172 | The closing line starts with "<defense player> has beaten <attack player> " and ends with "!" |
| Versions.ChanceDiffersOnlyOnShortPoke | ui/core/core.py:246-247 | The two versions' rules differ exactly on short poke against a line block with another defense, where they give 25 and 5 |
| Versions.TablesAgree | cli/simplecli.py:62-85 | Every key of the front-end table is in the CLI table; the CLI table has the extra row 7; on shared keys the values differ exactly on the short-poke rows |

## Left out

- Terminal and screen I/O is not modelled. This covers `print`,
  `input()`, `os.system('clear')`, the ANSI `Font`/`font` classes and
  `ui/bc-game.py`, which is the pygame front end that calls `Game.update`.
- `ask_input_until_plausible` and the `attack_input`, `block_input` and
  `defense_input` helpers are input loops. Their inputs are parameters
  instead:
  - `Game.update` and `Game.CoinToss` receive the action or coin;
  - `SimpleCli.MultiPlayer` receives a sequence of per-point `Choices`.
- The input helpers' quirks are left out. They accept negative values, and
  `core.py`'s helper accepts the list length, which fails in the `*_DICT`
  lookup. The model requires in-catalog indices instead.
- `Game.choose_attack`, `Game.choose_defense` and `Game.play` only read
  input and then call the setters and `play_rally`, which are modelled.
- The random distributions are not modelled. The coin, the jitters, the
  roll and the CLI attack score are parameters with their ranges. The
  jittered scores are exact reals rather than floating point.
- The statistics string of `print_rally` (two decimals) is left out. The
  scores themselves are fields of `Core.Rally`.
- The per-rally printing of the table lines and the CLI score lines is
  left out. The CLI commentary is `SimpleCli.RallyComment`.
- Core.Game.Update: requires the coin toss to have happened before
  "attack", "block", "defense1" or "defense2". Before `coin_toss` the
  source's current attacker and defender are `None` (ui/core/core.py:164-165),
  and the setter call fails with an `AttributeError` (ui/core/core.py:185).
- Core.Game.Update: returns `None` where the source returns `("", "")`,
  and returns `Some(rally)` in place of the comment and statistics pair.
  The comment is `rally.Comment()`.
- Core.Game.PlayRally: returns the `Rally` value, not a `Rally` object
  holding player references.
- Core.Game.Valid: asks that both names are keys of the score map, rather
  than that they are its only keys. The source never adds a key.
- Duplicate player names are excluded by a precondition. `core.py` does
  not check for them, and its score map then collapses to one key. The
  CLI asserts that the names differ.
- Resolver calls on the table rows outside the catalogs are excluded by
  the catalog precondition. In `core.py` these are attack and defense
  row 6 and block row 2. The CLI catalogs hold attacks and defenses 0..4
  and blocks 0..1, while its table spans 0..7, so attack and defense rows
  5, 6 and 7 and block row 2 are outside them. The rows themselves are in
  the table, with their values.
- The table is built with nested loops over the grid, not numpy's
  meshgrid order. Each key is written once, so the map is the same.
- Commentary.CommentaryFillsTemplate: proved only for templates and words
  without '['. A player name containing a placeholder can be rewritten by
  a later replace in the source.
- SimpleCli.MultiPlayer: stops when the input sequence runs out. The
  source's loop keeps reading input until the game is over.
- The `SINGLE_PLAYER_MODE` branch of `play` in `cli/simplecli.py` does
  nothing, and it is left out.
- `Player.get_name`, `get_attack`, `get_block` and `get_defense` are plain
  field reads.
  The model reads the fields directly.
