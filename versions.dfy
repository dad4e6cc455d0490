/** The two versions of the game side by side: the terminal version's
    table lacks the short-poke row that ui/core/core.py adds. */
module Versions {

  import opened Rules
  import Core
  import SimpleCli

  /** The two rule lists agree on every key except the short poke against
      a line block with another defense, which the graphical version
      raises from 5 to 25. */
  lemma ChanceDiffersOnlyOnShortPoke(a: int, b: int, s: int, d: int)
    ensures Core.BaseChance(a, b, s, d) != SimpleCli.BaseChance(a, b, s, d) <==> a == 5 && b == 1 && d != 5
    ensures a == 5 && b == 1 && d != 5 ==>
            Core.BaseChance(a, b, s, d) == 25 && SimpleCli.BaseChance(a, b, s, d) == 5
  {
  }

  /** On the keys both tables hold, the tables agree except on the short
      poke row; the terminal table also has keys the other lacks. */
  lemma TablesAgree(gui: map<Key, int>, cli: map<Key, int>, k: Key)
    requires Core.IsDefenseTable(gui) && SimpleCli.IsDefenseTable(cli)
    ensures k in gui ==> k in cli
    ensures (7, 0, 0, 0) in cli && (7, 0, 0, 0) !in gui
    ensures k in gui ==> (gui[k] != cli[k] <==> k.0 == 5 && k.1 == 1 && k.3 != 5)
  {
  }
}
