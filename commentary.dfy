/** The text side of a rally: Python's str.replace, the replace chain of
    print_commentary, and str() of an integer. */
module Commentary {

  import opened Rules

  /** The texts of a made defense, keyed by the defense chance, read as
      literal text and placeholders: Hole(AttackSlot) stands for "[attack]",
      Hole(BlockSlot) for "[block]", Hole(AttackerSlot) for "[a]" and
      Hole(DefenderSlot) for "[d]". */
  function DefenseMadePieces(c: int): seq<Piece>
  {
    if c == 90 then [Hole(AttackSlot), Lit(" easily defended by "), Hole(DefenderSlot)]
    else if c == 75 then [Lit("MONSTERBLOCK")]
    else if c == 55 then [Hole(DefenderSlot), Lit(" is too fast, "), Hole(AttackSlot), Lit(" spectaculary defended")]
    else if c == 25 then [Hole(DefenderSlot), Lit(" reaches far over the net and blocks "), Hole(AttackSlot)]
    else [Lit("what on earth, "), Hole(AttackerSlot), Lit(" puts "), Hole(AttackSlot), Lit(" in out")]
  }

  /** The texts of a successful attack, read the same way. */
  function SuccessfulAttackPieces(c: int): seq<Piece>
  {
    if c == 5 then [Hole(AttackerSlot), Lit(" placed "), Hole(AttackSlot), Lit(" in empty space")]
    else if c == 25 then [Lit("beautiful "), Hole(AttackSlot), Lit(" from "), Hole(AttackerSlot)]
    else if c == 55 then [Hole(AttackerSlot), Lit(" with a fast "), Hole(AttackSlot), Lit(", too fast for "), Hole(DefenderSlot)]
    else if c == 75 then [Hole(AttackerSlot), Lit(" uses the "), Hole(BlockSlot), Lit(" block from "), Hole(DefenderSlot)]
    else [Hole(AttackerSlot), Lit(" puts "), Hole(AttackSlot), Lit(" right on the line")]
  }

  /** Commentary when the defense wins, keyed by the defense chance: the
      template texts with their placeholders still in. */
  const DefenseMadeText: map<int, string> := map c | 5 <= c <= 90 && IsTier(c) :: Render(DefenseMadePieces(c))

  /** Commentary when the attack wins, keyed by the defense chance. */
  const SuccessfulAttackText: map<int, string> := map c | 5 <= c <= 90 && IsTier(c) :: Render(SuccessfulAttackPieces(c))

  /** A made-defense text opens with "M", "w", "[d" or "[at". */
  lemma DefenseMadeOpening(c: int)
    requires IsTier(c)
    ensures var s := DefenseMadeText[c];
            |s| >= 3 && (s[0] == 'M' || s[0] == 'w' || (s[0] == '[' && (s[1] == 'd' || s[2] == 't')))
  {
  }

  /** A successful-attack text opens with "b" or "[a]". */
  lemma SuccessfulAttackOpening(c: int)
    requires IsTier(c)
    ensures var s := SuccessfulAttackText[c];
            |s| >= 3 && (s[0] == 'b' || (s[0] == '[' && s[1] == 'a' && s[2] == ']'))
  {
  }

  /** Both text tables have exactly the five chance tiers as keys, and no
      text appears in both, so a commentary tells which side won. */
  lemma TextTables(c: int)
    ensures c in DefenseMadeText <==> IsTier(c)
    ensures c in SuccessfulAttackText <==> IsTier(c)
    ensures DefenseMadeText.Values !! SuccessfulAttackText.Values
  {
    forall v | v in DefenseMadeText.Values && v in SuccessfulAttackText.Values
      ensures false
    {
      var c1 :| c1 in DefenseMadeText && DefenseMadeText[c1] == v;
      var c2 :| c2 in SuccessfulAttackText && SuccessfulAttackText[c2] == v;
      DefenseMadeOpening(c1);
      SuccessfulAttackOpening(c2);
    }
  }

  /** No character of s is c. */
  predicate Avoids(s: string, c: char)
  {
    forall i | 0 <= i < |s| :: s[i] != c
  }

  /** s.replace(pat, rep): occurrences of pat are replaced left to right,
      without overlap. A string in which pat's first character never occurs
      comes back unchanged. */
  function ReplaceAll(s: string, pat: string, rep: string): (r: string)
    requires |pat| > 0
    ensures Avoids(s, pat[0]) ==> r == s
    decreases |s|
  {
    if |s| < |pat| then s
    else if s[..|pat|] == pat then rep + ReplaceAll(s[|pat|..], pat, rep)
    else
      var r := [s[0]] + ReplaceAll(s[1..], pat, rep);
      assert Avoids(s, pat[0]) ==> Avoids(s[1..], pat[0]) && r == [s[0]] + s[1..] == s;
      r
  }

  /** Text with no start of pat passes through the replace untouched, even
      when more text follows. */
  lemma {:induction false} ReplaceAllSkipsPlain(x: string, y: string, pat: string, rep: string)
    requires |pat| > 0 && Avoids(x, pat[0])
    ensures ReplaceAll(x + y, pat, rep) == x + ReplaceAll(y, pat, rep)
    decreases |x|
  {
    if x != [] {
      var s := x + y;
      if |s| < |pat| {
        assert ReplaceAll(y, pat, rep) == y;
      } else {
        assert x[0] != pat[0];
        assert s[..|pat|] != pat by {
          assert s[..|pat|][0] == x[0];
        }
        assert s[1..] == x[1..] + y;
        assert Avoids(x[1..], pat[0]) by {
          forall j | 0 <= j < |x[1..]| ensures x[1..][j] != pat[0] { assert x[1..][j] == x[j + 1]; }
        }
        calc {
          ReplaceAll(s, pat, rep);
          [s[0]] + ReplaceAll(s[1..], pat, rep);
          [x[0]] + ReplaceAll(x[1..] + y, pat, rep);
          { ReplaceAllSkipsPlain(x[1..], y, pat, rep); }
          [x[0]] + (x[1..] + ReplaceAll(y, pat, rep));
          { assert x == [x[0]] + x[1..]; }
          x + ReplaceAll(y, pat, rep);
        }
      }
    } else {
      assert x + y == y;
    }
  }

  /** An occurrence of pat at the front is replaced by rep. */
  lemma ReplaceAllAtFront(y: string, pat: string, rep: string)
    requires |pat| > 0
    ensures ReplaceAll(pat + y, pat, rep) == rep + ReplaceAll(y, pat, rep)
  {
  }

  /** Where pat does not start, the first character is kept. */
  lemma ReplaceAllNoMatchHere(s: string, pat: string, rep: string)
    requires |pat| > 0 && |s| >= |pat| && s[..|pat|] != pat
    ensures ReplaceAll(s, pat, rep) == [s[0]] + ReplaceAll(s[1..], pat, rep)
  {
  }

  /** A bracketed word other than pat at the front is kept as it is. */
  lemma ReplaceAllSkipsOther(p: string, y: string, pat: string, rep: string, i: nat)
    requires |pat| > 0 && |p| > 0
    requires i < |p| && i < |pat| && p[i] != pat[i]
    requires Avoids(p[1..], pat[0])
    ensures ReplaceAll(p + y, pat, rep) == p + ReplaceAll(y, pat, rep)
  {
    var s := p + y;
    if |s| < |pat| {
      assert ReplaceAll(y, pat, rep) == y;
    } else {
      assert s[..|pat|] != pat by {
        assert s[..|pat|][i] == s[i] == p[i];
      }
      ReplaceAllNoMatchHere(s, pat, rep);
      assert s[1..] == p[1..] + y;
      ReplaceAllSkipsPlain(p[1..], y, pat, rep);
      var r := ReplaceAll(y, pat, rep);
      assert [p[0]] + (p[1..] + r) == ([p[0]] + p[1..]) + r;
      assert [p[0]] + p[1..] == p;
    }
  }

  /** print_commentary: the placeholders of a commentary template are
      replaced in the source's order: the attack's name, the block's name,
      the attacker's name, then the defender's name. */
  function PrintCommentary(comment: string, attack: string, block: string, attacker: string, defender: string): (r: string)
    ensures Avoids(comment, '[') ==> r == comment
  {
    var c1 := ReplaceAll(comment, "[attack]", attack);
    var c2 := ReplaceAll(c1, "[block]", block);
    var c3 := ReplaceAll(c2, "[a]", attacker);
    ReplaceAll(c3, "[d]", defender)
  }

  /** The four placeholders, in the order print_commentary replaces them. */
  datatype Slot = AttackSlot | BlockSlot | AttackerSlot | DefenderSlot

  function Order(s: Slot): nat
  {
    match s
    case AttackSlot => 0
    case BlockSlot => 1
    case AttackerSlot => 2
    case DefenderSlot => 3
  }

  function Placeholder(s: Slot): string
  {
    match s
    case AttackSlot => "[attack]"
    case BlockSlot => "[block]"
    case AttackerSlot => "[a]"
    case DefenderSlot => "[d]"
  }

  /** The words filled into a template. */
  datatype Words = Words(attack: string, block: string, attacker: string, defender: string)

  function Value(s: Slot, w: Words): string
  {
    match s
    case AttackSlot => w.attack
    case BlockSlot => w.block
    case AttackerSlot => w.attacker
    case DefenderSlot => w.defender
  }

  /** A template read as literal text and placeholders. */
  datatype Piece = Lit(text: string) | Hole(slot: Slot)

  /** What a piece looks like in a template. */
  function PieceText(p: Piece): string
  {
    match p
    case Lit(x) => x
    case Hole(s) => Placeholder(s)
  }

  /** The template as written in the text tables. */
  function Render(t: seq<Piece>): string
  {
    if t == [] then ""
    else PieceText(t[0]) + Render(t[1..])
  }

  /** What a commentary is meant to say: every placeholder replaced by its
      word, and nothing else touched. */
  function Fill(t: seq<Piece>, w: Words): string
  {
    if t == [] then ""
    else (match t[0] case Lit(x) => x case Hole(s) => Value(s, w)) + Fill(t[1..], w)
  }

  /** The template after the first `done` replace steps. */
  function Stage(t: seq<Piece>, w: Words, done: nat): string
  {
    if t == [] then ""
    else
      (match t[0]
       case Lit(x) => x
       case Hole(s) => if Order(s) < done then Value(s, w) else Placeholder(s))
      + Stage(t[1..], w, done)
  }

  predicate PlainText(t: seq<Piece>)
  {
    forall i | 0 <= i < |t| :: t[i].Lit? ==> Avoids(t[i].text, '[')
  }

  predicate PlainWords(w: Words)
  {
    Avoids(w.attack, '[') && Avoids(w.block, '[') && Avoids(w.attacker, '[') && Avoids(w.defender, '[')
  }

  lemma {:induction false} StageBounds(t: seq<Piece>, w: Words)
    ensures Stage(t, w, 0) == Render(t)
    ensures Stage(t, w, 4) == Fill(t, w)
  {
    if t != [] {
      StageBounds(t[1..], w);
    }
  }

  /** Replace step number `done` turns stage `done` into stage `done + 1`. */
  lemma {:induction false} ReplaceStep(t: seq<Piece>, w: Words, slot: Slot)
    requires PlainText(t) && PlainWords(w)
    ensures ReplaceAll(Stage(t, w, Order(slot)), Placeholder(slot), Value(slot, w))
         == Stage(t, w, Order(slot) + 1)
  {
    var pat, rep, k := Placeholder(slot), Value(slot, w), Order(slot);
    if t == [] {
    } else {
      assert PlainText(t[1..]) by {
        forall i | 0 <= i < |t[1..]| ensures t[1..][i].Lit? ==> Avoids(t[1..][i].text, '[') {
          assert t[1..][i] == t[i + 1];
        }
      }
      ReplaceStep(t[1..], w, slot);
      var rest := Stage(t[1..], w, k);
      assert Stage(t, w, k + 1) == (match t[0]
        case Lit(x) => x
        case Hole(s) => if Order(s) < k + 1 then Value(s, w) else Placeholder(s)) + Stage(t[1..], w, k + 1);
      match t[0]
      case Lit(x) =>
        assert t[0].Lit?;
        ReplaceAllSkipsPlain(x, rest, pat, rep);
      case Hole(s) =>
        if Order(s) < k {
          ReplaceAllSkipsPlain(Value(s, w), rest, pat, rep);
        } else if s == slot {
          ReplaceAllAtFront(rest, pat, rep);
        } else {
          OtherPlaceholderSkipped(s, slot, rest, rep);
        }
    }
  }

  lemma OtherPlaceholderSkipped(s: Slot, slot: Slot, y: string, rep: string)
    requires s != slot
    ensures ReplaceAll(Placeholder(s) + y, Placeholder(slot), rep) == Placeholder(s) + ReplaceAll(y, Placeholder(slot), rep)
  {
    var p, pat := Placeholder(s), Placeholder(slot);
    assert Avoids(p[1..], '[');
    if s == AttackerSlot && slot == AttackSlot {
      ReplaceAllSkipsOther(p, y, pat, rep, 2);
    } else if s == AttackSlot && slot == AttackerSlot {
      ReplaceAllSkipsOther(p, y, pat, rep, 2);
    } else {
      ReplaceAllSkipsOther(p, y, pat, rep, 1);
    }
  }

  /** The replace chain of print_commentary fills a template exactly as
      intended, provided no literal text and no filled-in word contains a
      '[' (a player called "[d]" would otherwise be renamed by the last
      step). */
  lemma CommentaryFillsTemplate(t: seq<Piece>, w: Words)
    requires PlainText(t) && PlainWords(w)
    ensures PrintCommentary(Render(t), w.attack, w.block, w.attacker, w.defender) == Fill(t, w)
  {
    StageBounds(t, w);
    var c0 := Stage(t, w, 0);
    ReplaceStep(t, w, AttackSlot);
    var c1 := Stage(t, w, 1);
    assert ReplaceAll(c0, "[attack]", w.attack) == c1;
    ReplaceStep(t, w, BlockSlot);
    var c2 := Stage(t, w, 2);
    assert ReplaceAll(c1, "[block]", w.block) == c2;
    ReplaceStep(t, w, AttackerSlot);
    var c3 := Stage(t, w, 3);
    assert ReplaceAll(c2, "[a]", w.attacker) == c3;
    ReplaceStep(t, w, DefenderSlot);
  }

  /** No literal part of a table text contains a '['. */
  lemma TemplatesPlain(c: int)
    requires IsTier(c)
    ensures PlainText(DefenseMadePieces(c)) && PlainText(SuccessfulAttackPieces(c))
  {
    DefenseMadePlain(c);
    SuccessfulAttackPlain(c);
  }

  lemma DefenseMadePlain(c: int)
    ensures PlainText(DefenseMadePieces(c))
  {
    if c == 90 {
      DefenseMade90Plain();
    } else if c == 75 {
      DefenseMade75Plain();
    } else if c == 55 {
      DefenseMade55Plain();
    } else if c == 25 {
      DefenseMade25Plain();
    } else {
      DefenseMade5Plain();
    }
  }

  lemma DefenseMade90Plain()
    ensures PlainText(DefenseMadePieces(90))
  {
  }

  lemma DefenseMade75Plain()
    ensures PlainText(DefenseMadePieces(75))
  {
  }

  lemma DefenseMade55Plain()
    ensures PlainText(DefenseMadePieces(55))
  {
  }

  lemma DefenseMade25Plain()
    ensures PlainText(DefenseMadePieces(25))
  {
  }

  lemma DefenseMade5Plain()
    ensures PlainText(DefenseMadePieces(5))
  {
  }

  lemma SuccessfulAttackPlain(c: int)
    ensures PlainText(SuccessfulAttackPieces(c))
  {
    if c == 90 {
      SuccessfulAttack90Plain();
    } else if c == 75 {
      SuccessfulAttack75Plain();
    } else if c == 55 {
      SuccessfulAttack55Plain();
    } else if c == 25 {
      SuccessfulAttack25Plain();
    } else {
      SuccessfulAttack5Plain();
    }
  }

  lemma SuccessfulAttack90Plain()
    ensures PlainText(SuccessfulAttackPieces(90))
  {
  }

  lemma SuccessfulAttack75Plain()
    ensures PlainText(SuccessfulAttackPieces(75))
  {
  }

  lemma SuccessfulAttack55Plain()
    ensures PlainText(SuccessfulAttackPieces(55))
  {
  }

  lemma SuccessfulAttack25Plain()
    ensures PlainText(SuccessfulAttackPieces(25))
  {
  }

  lemma SuccessfulAttack5Plain()
    ensures PlainText(SuccessfulAttackPieces(5))
  {
  }

  /** Filling a table text with print_commentary puts every word in its
      placeholder, as long as no word contains a '['. */
  lemma TableTextsFill(c: int, w: Words)
    requires IsTier(c) && PlainWords(w)
    ensures PrintCommentary(DefenseMadeText[c], w.attack, w.block, w.attacker, w.defender) == Fill(DefenseMadePieces(c), w)
    ensures PrintCommentary(SuccessfulAttackText[c], w.attack, w.block, w.attacker, w.defender)
         == Fill(SuccessfulAttackPieces(c), w)
  {
    TemplatesPlain(c);
    CommentaryFillsTemplate(DefenseMadePieces(c), w);
    CommentaryFillsTemplate(SuccessfulAttackPieces(c), w);
  }

  /** The character of a decimal digit. */
  function DigitChar(n: nat): char
    requires n < 10
  {
    "0123456789"[n]
  }

  /** str(n) for a natural number. */
  function NatToString(n: nat): (s: string)
    ensures |s| > 0 && forall i | 0 <= i < |s| :: '0' <= s[i] <= '9'
    decreases n
  {
    if n < 10 then [DigitChar(n)] else NatToString(n / 10) + [DigitChar(n % 10)]
  }

  /** str(i) for any integer. */
  function IntToString(i: int): (s: string)
    ensures i >= 0 ==> (forall k | 0 <= k < |s| :: '0' <= s[k] <= '9') && ParseNat(s) == i
    ensures i < 0 ==> |s| > 1 && s[0] == '-' && (forall k | 1 <= k < |s| :: '0' <= s[k] <= '9') && ParseNat(s[1..]) == -i
  {
    NatToStringRoundTrip(if i < 0 then -i else i);
    if i < 0 then "-" + NatToString(-i) else NatToString(i)
  }

  /** Reads back a string of decimal digits. */
  function ParseNat(s: string): nat
    requires forall i | 0 <= i < |s| :: '0' <= s[i] <= '9'
  {
    if s == [] then 0 else 10 * ParseNat(s[..|s| - 1]) + (s[|s| - 1] - '0') as nat
  }

  /** The decimal text of n reads back as n. */
  lemma {:induction false} NatToStringRoundTrip(n: nat)
    ensures ParseNat(NatToString(n)) == n
    decreases n
  {
    var s := NatToString(n);
    if n >= 10 {
      NatToStringRoundTrip(n / 10);
      assert s[..|s| - 1] == NatToString(n / 10);
    }
  }
}
