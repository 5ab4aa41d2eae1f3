/**
 * The visitor demo's password-rule tree and the two operations its test
 * writes without a visitor: `VerifyRule`, which decides whether a value
 * satisfies a rule, and `BuildRequirementsMessage`, which appends one
 * indented line per rule node to a `StringBuilder`.  `AppendLine` ends a
 * line with `NewLine`, taken as "\n".
 */
module RuleVisitor {
  import opened Text
  import Seqs

  /** The five rule kinds; `And`/`Or` nest sub-rules to any depth. */
  datatype Rule =
    | And(rules: seq<Rule>)
    | Or(rules: seq<Rule>)
    | MinLength(minLength: int)
    | ContainsCharacter(character: char)
    | ContainsAtLeastOneCharacter(characters: string)

  /** Each kind as `new()` leaves it: empty rule lists, length 0, no characters. */
  const DefaultAnd := And([])
  const DefaultOr := Or([])
  const DefaultMinLength := MinLength(0)
  const DefaultContainsAtLeastOne := ContainsAtLeastOneCharacter("")

  /**
   * `VerifyRule`: `All` over an `And`, `Any` over an `Or`, and the three leaf
   * checks.  C# measures and searches a string by UTF-16 code units, so the
   * length and the character list are taken on the encoding.
   */
  function VerifyRule(rule: Rule, value: string): bool
    decreases rule, 1
  {
    match rule
    case And(rules) => AllHold(rules, value)
    case Or(rules) => AnyHolds(rules, value)
    case MinLength(minLength) => |Utf16(value)| >= minLength
    case ContainsCharacter(character) => character in value
    case ContainsAtLeastOneCharacter(characters) =>
      exists i :: 0 <= i < |Utf16(characters)| && Utf16(characters)[i] in Utf16(value)
  }

  /** `rules.All(r => VerifyRule(r, value))`. */
  function AllHold(rules: seq<Rule>, value: string): bool
    decreases rules, 0
  {
    rules == [] || (VerifyRule(rules[0], value) && AllHold(rules[1..], value))
  }

  /** `rules.Any(r => VerifyRule(r, value))`. */
  function AnyHolds(rules: seq<Rule>, value: string): bool
    decreases rules, 0
  {
    rules != [] && (VerifyRule(rules[0], value) || AnyHolds(rules[1..], value))
  }

  lemma {:induction false} AllHoldIff(rules: seq<Rule>, value: string)
    ensures AllHold(rules, value) <==> forall i :: 0 <= i < |rules| ==> VerifyRule(rules[i], value)
  {
    if rules != [] {
      AllHoldIff(rules[1..], value);
      assert forall i :: 1 <= i < |rules| ==> rules[i] == rules[1..][i - 1];
    }
  }

  lemma {:induction false} AnyHoldsIff(rules: seq<Rule>, value: string)
    ensures AnyHolds(rules, value) <==> exists i :: 0 <= i < |rules| && VerifyRule(rules[i], value)
  {
    if rules != [] {
      AnyHoldsIff(rules[1..], value);
      assert forall i :: 1 <= i < |rules| ==> rules[i] == rules[1..][i - 1];
    }
  }

  /** An `And` holds iff every sub-rule holds, an `Or` iff some sub-rule holds. */
  lemma AndOrSemantics(rules: seq<Rule>, value: string)
    ensures VerifyRule(And(rules), value) <==> forall i :: 0 <= i < |rules| ==> VerifyRule(rules[i], value)
    ensures VerifyRule(Or(rules), value) <==> exists i :: 0 <= i < |rules| && VerifyRule(rules[i], value)
  {
    AllHoldIff(rules, value);
    AnyHoldsIff(rules, value);
  }

  /** The defaults: an empty `And` and a length of 0 accept everything; an empty `Or` and an empty character list reject everything. */
  lemma Defaults(value: string)
    ensures VerifyRule(DefaultAnd, value) && VerifyRule(DefaultMinLength, value)
    ensures !VerifyRule(DefaultOr, value) && !VerifyRule(DefaultContainsAtLeastOne, value)
  {
  }

  /** A `char` rule below U+10000 searches the value's code units, as `string.Contains(char)` does. */
  lemma ContainsCharacterSearchesCodeUnits(character: char, value: string)
    requires character as int < 0x1_0000
    ensures VerifyRule(ContainsCharacter(character), value) <==> character as int in Utf16(value)
  {
    BasicPlaneUnitIn(character, value);
  }

  /** For a character list below U+10000 the rule asks for one of the listed characters in the value. */
  lemma BasicPlaneCharacterList(characters: string, value: string)
    requires forall i :: 0 <= i < |characters| ==> characters[i] as int < 0x1_0000
    ensures VerifyRule(ContainsAtLeastOneCharacter(characters), value)
        <==> exists i :: 0 <= i < |characters| && characters[i] in value
  {
    Utf16OfBasicPlane(characters);
    forall i | 0 <= i < |characters|
      ensures Utf16(characters)[i] in Utf16(value) <==> characters[i] in value
    {
      BasicPlaneUnitIn(characters[i], value);
    }
  }

  /**
   * Outside the Basic Multilingual Plane the code units show: one emoji is
   * long enough for a length of 2, and two emoji sharing a high surrogate
   * satisfy each other's character list.
   */
  lemma SurrogatePairs(grin: string, beam: string)
    requires grin == "\U{1F600}" && beam == "\U{1F601}"
    ensures VerifyRule(MinLength(2), grin) && !VerifyRule(MinLength(3), grin)
    ensures VerifyRule(ContainsAtLeastOneCharacter(grin), beam) && grin != beam
  {
    assert Utf16(grin) == [0xD83D, 0xDE00];
    assert Utf16(beam) == [0xD83D, 0xDE01];
  }

  /** The test's password rule: at least 8 characters, and a digit or one of `!?%&*-_.`. */
  const PasswordRule :=
    And([
      MinLength(8),
      Or([ContainsAtLeastOneCharacter("0123456789"), ContainsAtLeastOneCharacter("!?%&*-_.")])
    ])

  /** "admin" has five code units, too few for the first condition. */
  lemma WeakPasswordRejected(weak: string)
    requires weak == "admin"
    ensures !VerifyRule(PasswordRule, weak)
  {
    Utf16OfBasicPlane(weak);
    assert !VerifyRule(PasswordRule.rules[0], weak);
  }

  /** A character below U+10000 that the list and the value share satisfies the rule. */
  lemma SharedCharacterSatisfiesList(characters: string, value: string, i: nat, j: nat)
    requires i < |characters| && j < |value| && characters[i] == value[j] && characters[i] as int < 0x1_0000
    ensures VerifyRule(ContainsAtLeastOneCharacter(characters), value)
  {
    var c := characters[i];
    BasicPlaneUnitIn(c, characters);
    BasicPlaneUnitIn(c, value);
    var k :| 0 <= k < |Utf16(characters)| && Utf16(characters)[k] == c as int;
  }

  /** A digit satisfies the rule's second condition. */
  lemma DigitSatisfiesEither(value: string)
    requires VerifyRule(ContainsAtLeastOneCharacter("0123456789"), value)
    ensures VerifyRule(PasswordRule.rules[1], value)
  {
    var alternatives := PasswordRule.rules[1].rules;
    assert VerifyRule(alternatives[0], value);
    assert AnyHolds(alternatives, value);
  }

  /** A value of 8 code units with a digit passes the password rule. */
  lemma LongWithDigitPasses(value: string)
    requires VerifyRule(MinLength(8), value) && VerifyRule(ContainsAtLeastOneCharacter("0123456789"), value)
    ensures VerifyRule(PasswordRule, value)
  {
    DigitSatisfiesEither(value);
    assert PasswordRule.rules[1..] == [PasswordRule.rules[1]];
  }

  /** "admin123" has eight code units and the digit 1. */
  lemma StrongPasswordAccepted(strong: string)
    requires strong == "admin123"
    ensures VerifyRule(PasswordRule, strong)
  {
    assert VerifyRule(MinLength(8), strong) by {
      Utf16OfBasicPlane(strong);
    }
    SharedCharacterSatisfiesList("0123456789", strong, 1, 5);
    LongWithDigitPasses(strong);
  }

  /** "admin" is too short; "admin123" passes. */
  lemma PasswordSamples(weak: string, strong: string)
    requires weak == "admin" && strong == "admin123"
    ensures !VerifyRule(PasswordRule, weak) && VerifyRule(PasswordRule, strong)
  {
    WeakPasswordRejected(weak);
    StrongPasswordAccepted(strong);
  }

  const NewLine := "\n"

  /** `level` times two spaces. */
  function Spaces(level: nat): (s: string)
    ensures |s| == 2 * level && forall i :: 0 <= i < |s| ==> s[i] == ' '
  {
    if level == 0 then "" else Spaces(level - 1) + "  "
  }

  /** What a node's line starts with: its indentation, and a bullet below the top level. */
  function Bullet(level: nat): string {
    Spaces(level) + (if level > 0 then "- " else "")
  }

  /** The text of a node's own line. */
  function Describe(rule: Rule): string {
    match rule
    case And(_) => "All the following conditions must be true:"
    case Or(_) => "One of the following conditions must be true:"
    case MinLength(minLength) => "The value must have at least " + IntToString(minLength) + " characters"
    case ContainsCharacter(character) => "The value must contain the character " + [character]
    case ContainsAtLeastOneCharacter(characters) => "The value must contain at least one of these characters: " + characters
  }

  /** The lines printed for `rule` at `level`: its own, then its sub-rules' in order, one level deeper. */
  function Lines(rule: Rule, level: nat): seq<string>
    decreases rule, 1
  {
    [Bullet(level) + Describe(rule)] + Children(rule, level)
  }

  /** The lines of a node's sub-rules, if it has any. */
  function Children(rule: Rule, level: nat): seq<string>
    decreases rule, 0
  {
    match rule
    case And(rules) => LinesAll(rules, level + 1)
    case Or(rules) => LinesAll(rules, level + 1)
    case _ => []
  }

  function LinesAll(rules: seq<Rule>, level: nat): seq<string>
    decreases rules, 2
  {
    if rules == [] then [] else LinesAll(rules[..|rules| - 1], level) + Lines(rules[|rules| - 1], level)
  }

  /** Each line followed by `NewLine`. */
  function Render(lines: seq<string>): string {
    if lines == [] then "" else Render(lines[..|lines| - 1]) + lines[|lines| - 1] + NewLine
  }

  lemma {:induction false} RenderAppend(a: seq<string>, b: seq<string>)
    ensures Render(a + b) == Render(a) + Render(b)
    decreases |b|
  {
    if b == [] {
      assert a + b == a;
    } else {
      assert (a + b)[..|a + b| - 1] == a + b[..|b| - 1];
      RenderAppend(a, b[..|b| - 1]);
    }
  }

  /** A node renders as its own line followed by its sub-rules' lines. */
  lemma RenderLines(rule: Rule, level: nat)
    ensures Render(Lines(rule, level)) == Bullet(level) + Describe(rule) + NewLine + Render(Children(rule, level))
  {
    RenderCons(Bullet(level) + Describe(rule), Children(rule, level));
  }

  lemma RenderCons(line: string, rest: seq<string>)
    ensures Render([line] + rest) == line + NewLine + Render(rest)
  {
    assert Render([line]) == line + NewLine by {
      assert [line][..0] == [];
    }
    RenderAppend([line], rest);
  }

  lemma RenderAllStep(rules: seq<Rule>, i: nat, level: nat)
    requires i < |rules|
    ensures Render(LinesAll(rules[..i + 1], level)) == Render(LinesAll(rules[..i], level)) + Render(Lines(rules[i], level))
  {
    assert rules[..i + 1][..i] == rules[..i];
    RenderAppend(LinesAll(rules[..i], level), Lines(rules[i], level));
  }

  lemma Regroup(a: string, b: string, c: string, d: string, e: string)
    ensures a + b + c + d + e == a + (b + c + d + e)
  {
    Seqs.Associative(a, b, c);
    Seqs.Associative(a, b + c, d);
    Seqs.Associative(a, b + c + d, e);
  }

  /** The number of rule nodes in the tree. */
  function Size(rule: Rule): nat
    decreases rule, 1
  {
    match rule
    case And(rules) => 1 + SizeAll(rules)
    case Or(rules) => 1 + SizeAll(rules)
    case _ => 1
  }

  function SizeAll(rules: seq<Rule>): nat
    decreases rules, 0
  {
    if rules == [] then 0 else Size(rules[0]) + SizeAll(rules[1..])
  }

  lemma {:induction false} SizeAllAppend(rules: seq<Rule>, r: Rule)
    ensures SizeAll(rules + [r]) == SizeAll(rules) + Size(r)
  {
    if rules != [] {
      assert (rules + [r])[1..] == rules[1..] + [r];
      SizeAllAppend(rules[1..], r);
    }
  }

  /** One line per node: the message has as many lines as the tree has rules. */
  lemma {:induction false} OneLinePerNode(rule: Rule, level: nat)
    ensures |Lines(rule, level)| == Size(rule)
    decreases rule, 1
  {
    match rule
    case And(rules) => OneLinePerNodeAll(rules, level + 1);
    case Or(rules) => OneLinePerNodeAll(rules, level + 1);
    case _ =>
  }

  lemma {:induction false} OneLinePerNodeAll(rules: seq<Rule>, level: nat)
    ensures |LinesAll(rules, level)| == SizeAll(rules)
    decreases rules, 0
  {
    if rules != [] {
      var front, last := rules[..|rules| - 1], rules[|rules| - 1];
      assert rules == front + [last];
      SizeAllAppend(front, last);
      OneLinePerNodeAll(front, level);
      OneLinePerNode(last, level);
    }
  }

  /** Every line of a node printed at `level` is indented by at least `2 * level` spaces. */
  lemma {:induction false} LinesIndented(rule: Rule, level: nat)
    ensures forall i :: 0 <= i < |Lines(rule, level)| ==> Spaces(level) <= Lines(rule, level)[i]
    decreases rule, 1
  {
    var head := Bullet(level) + Describe(rule);
    var children := Children(rule, level);
    assert Lines(rule, level) == [head] + children;
    BulletIndented(level, Describe(rule));
    if rule.And? || rule.Or? {
      LinesIndentedAll(rule.rules, level + 1);
      assert children == LinesAll(rule.rules, level + 1);
      SpacesPrefix(level);
      forall i | 0 <= i < |children|
        ensures Spaces(level) <= children[i]
      {
        PrefixTransitive(Spaces(level), Spaces(level + 1), children[i]);
      }
    }
  }

  lemma {:induction false} LinesIndentedAll(rules: seq<Rule>, level: nat)
    ensures forall i :: 0 <= i < |LinesAll(rules, level)| ==> Spaces(level) <= LinesAll(rules, level)[i]
    decreases rules, 0
  {
    if rules != [] {
      var front, last := LinesAll(rules[..|rules| - 1], level), Lines(rules[|rules| - 1], level);
      LinesIndentedAll(rules[..|rules| - 1], level);
      LinesIndented(rules[|rules| - 1], level);
      assert LinesAll(rules, level) == front + last;
    }
  }

  lemma BulletIndented(level: nat, text: string)
    ensures Spaces(level) <= Bullet(level) + text
  {
    assert Bullet(level) + text == Spaces(level) + ((if level > 0 then "- " else "") + text);
  }

  lemma PrefixTransitive(a: string, b: string, c: string)
    requires a <= b && b <= c
    ensures a <= c
  {
    assert c[..|b|][..|a|] == c[..|a|];
  }

  lemma SpacesPrefix(level: nat)
    ensures Spaces(level) <= Spaces(level + 1)
  {
    assert Spaces(level + 1) == Spaces(level) + "  ";
  }

  /** `System.Text.StringBuilder`, reduced to the appends the printer uses. */
  class StringBuilder {
    var content: string

    constructor()
      ensures content == ""
    {
      content := "";
    }

    method Append(s: string)
      modifies this
      ensures content == old(content) + s
    {
      content := content + s;
    }

    method AppendLine(s: string)
      modifies this
      ensures content == old(content) + s + NewLine
    {
      content := content + s + NewLine;
    }
  }

  /** The indentation loop and the bullet that start every line. */
  method AppendBullet(sb: StringBuilder, level: nat)
    modifies sb
    ensures sb.content == old(sb.content) + Bullet(level)
  {
    ghost var start := sb.content;
    for i := 0 to level
      invariant sb.content == start + Spaces(i)
    {
      Seqs.Associative(start, Spaces(i), "  ");
      sb.Append("  ");
    }
    if level > 0 {
      Seqs.Associative(start, Spaces(level), "- ");
      sb.Append("- ");
    }
  }

  /** The line of a rule that has no sub-rules. */
  method AppendCondition(sb: StringBuilder, rule: Rule)
    requires !rule.And? && !rule.Or?
    modifies sb
    ensures sb.content == old(sb.content) + Describe(rule) + NewLine
  {
    ghost var mark := sb.content;
    match rule {
      case MinLength(minLength) =>
        sb.Append("The value must have at least ");
        sb.Append(IntToString(minLength));
        sb.AppendLine(" characters");
        Seqs.Associative(mark, "The value must have at least ", IntToString(minLength));
        Seqs.Associative(mark, "The value must have at least " + IntToString(minLength), " characters");
      case ContainsCharacter(character) =>
        sb.Append("The value must contain the character ");
        sb.Append([character]);
        sb.AppendLine("");
        Seqs.Associative(mark, "The value must contain the character ", [character]);
      case ContainsAtLeastOneCharacter(characters) =>
        sb.Append("The value must contain at least one of these characters: ");
        sb.AppendLine(characters);
        Seqs.Associative(mark, "The value must contain at least one of these characters: ", characters);
    }
  }

  /** `BuildRequirementsMessage`: appends exactly the rendered lines of `rule` at `level`. */
  method BuildRequirementsMessage(sb: StringBuilder, rule: Rule, level: nat)
    modifies sb
    ensures sb.content == old(sb.content) + Render(Lines(rule, level))
    decreases rule
  {
    ghost var start := sb.content;
    AppendBullet(sb, level);
    ghost var mark := sb.content;
    match rule {
      case And(rules) =>
        sb.AppendLine("All the following conditions must be true:");
        AppendAll(sb, rules, level + 1);
      case Or(rules) =>
        sb.AppendLine("One of the following conditions must be true:");
        AppendAll(sb, rules, level + 1);
      case _ =>
        AppendCondition(sb, rule);
    }
    assert sb.content == mark + Describe(rule) + NewLine + Render(Children(rule, level));
    RenderLines(rule, level);
    Regroup(start, Bullet(level), Describe(rule), NewLine, Render(Children(rule, level)));
  }

  /** The `foreach` over sub-rules: each printed in order, one level deeper. */
  method AppendAll(sb: StringBuilder, rules: seq<Rule>, level: nat)
    modifies sb
    ensures sb.content == old(sb.content) + Render(LinesAll(rules, level))
    decreases rules
  {
    ghost var start := sb.content;
    for i := 0 to |rules|
      invariant sb.content == start + Render(LinesAll(rules[..i], level))
    {
      ghost var before := sb.content;
      BuildRequirementsMessage(sb, rules[i], level);
      RenderAllStep(rules, i, level);
      Seqs.Associative(start, Render(LinesAll(rules[..i], level)), Render(Lines(rules[i], level)));
    }
    assert rules[..|rules|] == rules;
  }

  /** The message the test expects for the password rule. */
  const PasswordRequirementsMessage :=
    "All the following conditions must be true:" + NewLine
    + ("  - " + "The value must have at least 8 characters") + NewLine
    + ("  - " + "One of the following conditions must be true:") + NewLine
    + ("    - " + "The value must contain at least one of these characters: 0123456789") + NewLine
    + ("    - " + "The value must contain at least one of these characters: !?%&*-_.") + NewLine

  lemma Bullets()
    ensures Bullet(0) == "" && Bullet(1) == "  - " && Bullet(2) == "    - "
  {
    assert Spaces(1) == "  " && Spaces(2) == "    ";
  }

  /** The lines of a two-rule list: one line each for two leaves. */
  lemma TwoLeaves(a: Rule, b: Rule, level: nat)
    requires !a.And? && !a.Or? && !b.And? && !b.Or?
    ensures LinesAll([a, b], level) == [Bullet(level) + Describe(a), Bullet(level) + Describe(b)]
  {
    assert [a, b][..1] == [a] && [a][..0] == [];
    assert Lines(a, level) == [Bullet(level) + Describe(a)];
    assert Lines(b, level) == [Bullet(level) + Describe(b)];
    assert LinesAll([a], level) == Lines(a, level);
  }

  /** The password rule prints five lines: the `And`, its two children, and the `Or`'s two children below the second. */
  lemma PasswordLines()
    ensures Lines(PasswordRule, 0) == [
      Bullet(0) + Describe(PasswordRule),
      Bullet(1) + Describe(PasswordRule.rules[0]),
      Bullet(1) + Describe(PasswordRule.rules[1]),
      Bullet(2) + Describe(PasswordRule.rules[1].rules[0]),
      Bullet(2) + Describe(PasswordRule.rules[1].rules[1])
    ]
  {
    var min := PasswordRule.rules[0];
    var or := PasswordRule.rules[1];
    TwoLeaves(or.rules[0], or.rules[1], 2);
    assert or.rules == [or.rules[0], or.rules[1]];
    assert Lines(or, 1) == [Bullet(1) + Describe(or)] + LinesAll(or.rules, 2);
    assert PasswordRule.rules == [min, or] && [min, or][..1] == [min] && [min][..0] == [];
    assert LinesAll([min], 1) == Lines(min, 1) == [Bullet(1) + Describe(min)];
    assert LinesAll(PasswordRule.rules, 1) == [Bullet(1) + Describe(min)] + Lines(or, 1);
  }

  lemma RenderFive(a: string, b: string, c: string, d: string, e: string)
    ensures Render([a, b, c, d, e]) == a + NewLine + b + NewLine + c + NewLine + d + NewLine + e + NewLine
  {
    assert [a][..0] == [] && "" + a == a;
    assert Render([a]) == a + NewLine;
    assert [a, b][..1] == [a];
    assert Render([a, b]) == a + NewLine + b + NewLine;
    assert [a, b, c][..2] == [a, b];
    assert Render([a, b, c]) == a + NewLine + b + NewLine + c + NewLine;
    assert [a, b, c, d][..3] == [a, b, c];
    assert Render([a, b, c, d]) == a + NewLine + b + NewLine + c + NewLine + d + NewLine;
    assert [a, b, c, d, e][..4] == [a, b, c, d];
  }

  /** The expected lines, as indentation and bullet followed by the rule's text. */
  lemma PasswordLineTexts()
    ensures Bullet(0) + Describe(PasswordRule) == "All the following conditions must be true:"
    ensures Bullet(1) + Describe(PasswordRule.rules[0]) == "  - " + "The value must have at least 8 characters"
    ensures Bullet(1) + Describe(PasswordRule.rules[1]) == "  - " + "One of the following conditions must be true:"
    ensures Bullet(2) + Describe(PasswordRule.rules[1].rules[0])
      == "    - " + "The value must contain at least one of these characters: 0123456789"
    ensures Bullet(2) + Describe(PasswordRule.rules[1].rules[1])
      == "    - " + "The value must contain at least one of these characters: !?%&*-_."
  {
    Bullets();
    assert IntToString(8) == "8";
  }

  /** Printing the password rule from level 0 into an empty builder gives exactly the expected message. */
  method PasswordMessage() returns (message: string)
    ensures message == PasswordRequirementsMessage
  {
    var sb := new StringBuilder();
    BuildRequirementsMessage(sb, PasswordRule, 0);
    PasswordLines();
    RenderFive(Bullet(0) + Describe(PasswordRule), Bullet(1) + Describe(PasswordRule.rules[0]),
      Bullet(1) + Describe(PasswordRule.rules[1]), Bullet(2) + Describe(PasswordRule.rules[1].rules[0]),
      Bullet(2) + Describe(PasswordRule.rules[1].rules[1]));
    PasswordLineTexts();
    message := sb.content;
  }
}
