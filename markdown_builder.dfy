/**
 * The plain `MarkdownBuilder` of the builder-pattern demo: each method
 * appends one piece of Markdown to a `StringBuilder`, and `ToString` returns
 * everything appended so far.  A header ends its own line; `NewLine`
 * appends only a line terminator (`Environment.NewLine`, the parameter
 * `newline`).
 */
module MarkdownBuilder {
  import opened Seqs
  import opened Outcomes
  import Fluent = FluentMarkdownBuilder

  /** One call on the builder. */
  datatype Piece =
    | Text(text: string)
    | Header(level: int, text: string)
    | Bold(text: string)
    | Italic(text: string)
    | Link(name: string, url: string)
    | LineBreak

  /** `Enumerable.Repeat` with a negative count. */
  const HeaderLevelError := ArgumentOutOfRange("count")

  /** What one call appends, or the exception it throws before appending anything. */
  function Render(p: Piece, newline: string): Result<string> {
    match p
    case Text(text) => Ok(text)
    case Header(level, text) =>
      if level < 0 then Err(HeaderLevelError) else Ok(Repeat('#', level) + " " + text + newline)
    case Bold(text) => Ok("**" + text + "**")
    case Italic(text) => Ok("*" + text + "*")
    case Link(name, url) => Ok("[" + name + "](" + url + ")")
    case LineBreak => Ok(newline)
  }

  /** The builder's text after a run of calls: the pieces in call order, or the first exception. */
  function Document(pieces: seq<Piece>, newline: string): Result<string> {
    if pieces == [] then Ok("")
    else
      var front := Document(pieces[..|pieces| - 1], newline);
      var last := Render(pieces[|pieces| - 1], newline);
      if front.Err? then front
      else if last.Err? then last
      else Ok(front.value + last.value)
  }

  class MarkdownBuilder {
    const newline: string
    var builder: string
    /** The calls that have completed, in order. */
    ghost var pieces: seq<Piece>

    ghost predicate Valid()
      reads this
    {
      Document(pieces, newline) == Ok(builder)
    }

    constructor(newline: string)
      ensures Valid() && this.newline == newline && pieces == [] && builder == ""
    {
      this.newline := newline;
      builder := "";
      pieces := [];
    }

    function ToString(): string
      reads this
    {
      builder
    }

    /** Appends one successful piece and records the call. */
    method Append(ghost p: Piece, s: string)
      requires Valid() && Render(p, newline) == Ok(s)
      modifies this
      ensures Valid() && pieces == old(pieces) + [p] && builder == old(builder) + s
    {
      builder := builder + s;
      pieces := pieces + [p];
      assert pieces[..|pieces| - 1] == old(pieces);
    }

    method AddText(text: string)
      requires Valid()
      modifies this
      ensures Valid() && pieces == old(pieces) + [Text(text)]
      ensures builder == old(builder) + Render(Text(text), newline).value
    {
      Append(Text(text), text);
    }

    /** Appends `headerLevel` hashes, a space, the text and a line terminator; a negative level throws and appends nothing. */
    method AddHeader(headerLevel: int, text: string) returns (outcome: Outcome)
      requires Valid()
      modifies this
      ensures Valid()
      ensures Render(Header(headerLevel, text), newline).Err? ==>
        outcome == Threw(HeaderLevelError) && pieces == old(pieces) && builder == old(builder)
      ensures Render(Header(headerLevel, text), newline).Ok? ==>
        && outcome == Completed
        && pieces == old(pieces) + [Header(headerLevel, text)]
        && builder == old(builder) + Render(Header(headerLevel, text), newline).value
    {
      if headerLevel < 0 {
        return Threw(HeaderLevelError);
      }
      var prefix := Repeat('#', headerLevel);
      Append(Header(headerLevel, text), prefix + " " + text + newline);
      outcome := Completed;
    }

    method AddBold(text: string)
      requires Valid()
      modifies this
      ensures Valid() && pieces == old(pieces) + [Bold(text)]
      ensures builder == old(builder) + Render(Bold(text), newline).value
    {
      Append(Bold(text), "**" + text + "**");
    }

    method AddItalic(text: string)
      requires Valid()
      modifies this
      ensures Valid() && pieces == old(pieces) + [Italic(text)]
      ensures builder == old(builder) + Render(Italic(text), newline).value
    {
      Append(Italic(text), "*" + text + "*");
    }

    method AddLink(name: string, url: string)
      requires Valid()
      modifies this
      ensures Valid() && pieces == old(pieces) + [Link(name, url)]
      ensures builder == old(builder) + Render(Link(name, url), newline).value
    {
      Append(Link(name, url), "[" + name + "](" + url + ")");
    }

    method NewLine()
      requires Valid()
      modifies this
      ensures Valid() && pieces == old(pieces) + [LineBreak]
      ensures builder == old(builder) + Render(LineBreak, newline).value
    {
      Append(LineBreak, newline);
    }
  }

  /**
   * A header is `level` hashes, a space, the text and the line terminator,
   * so it always ends its line; a negative level is an error.
   */
  lemma HeaderShape(level: int, text: string, newline: string)
    ensures level < 0 <==> Render(Header(level, text), newline).Err?
    ensures level < 0 ==> Render(Header(level, text), newline) == Err(HeaderLevelError)
    ensures level >= 0 ==>
      var w := Render(Header(level, text), newline).value;
      && |w| == level + 1 + |text| + |newline|
      && (forall i :: 0 <= i < level ==> w[i] == '#')
      && w[level] == ' ' && w[level + 1..level + 1 + |text|] == text
      && w[level + 1 + |text|..] == newline
  {
    if level >= 0 {
      var w := Render(Header(level, text), newline).value;
      assert w == Repeat('#', level) + " " + text + newline;
      assert w[level + 1..] == text + newline;
    }
  }

  /** A run of calls followed by another writes the first run's text, then the second's; the first exception ends it. */
  lemma {:induction false} DocumentAppend(a: seq<Piece>, b: seq<Piece>, newline: string)
    ensures Document(a + b, newline) ==
      (if Document(a, newline).Err? then Document(a, newline)
       else if Document(b, newline).Err? then Document(b, newline)
       else Ok(Document(a, newline).value + Document(b, newline).value))
    decreases |b|
  {
    if b == [] {
      assert a + b == a;
      if Document(a, newline).Ok? {
        assert Document(a, newline).value + "" == Document(a, newline).value;
      }
    } else {
      var front := b[..|b| - 1];
      assert (a + b)[..|a + b| - 1] == a + front;
      assert (a + b)[|a + b| - 1] == b[|b| - 1];
      DocumentAppend(a, front, newline);
      var x, y := Document(a, newline), Document(front, newline);
      if x.Ok? && y.Ok? && Render(b[|b| - 1], newline).Ok? {
        assert x.value + y.value + Render(b[|b| - 1], newline).value
          == x.value + (y.value + Render(b[|b| - 1], newline).value);
      }
    }
  }

  /** A run of calls fails exactly when one of its headers has a negative level. */
  lemma {:induction false} DocumentFailsOnNegativeHeader(pieces: seq<Piece>, newline: string)
    ensures Document(pieces, newline).Err? <==>
      exists i :: 0 <= i < |pieces| && pieces[i].Header? && pieces[i].level < 0
  {
    if pieces != [] {
      var front := pieces[..|pieces| - 1];
      DocumentFailsOnNegativeHeader(front, newline);
      if Document(pieces, newline).Err? {
        if Document(front, newline).Err? {
          var i :| 0 <= i < |front| && front[i].Header? && front[i].level < 0;
          assert pieces[i] == front[i];
        } else {
          assert Render(pieces[|pieces| - 1], newline).Err?;
        }
      } else {
        forall i | 0 <= i < |pieces|
          ensures !(pieces[i].Header? && pieces[i].level < 0)
        {
          if i < |front| {
            assert pieces[i] == front[i];
          }
        }
      }
    }
  }

  /** The same call on the fluent builder, which writes a header without ending its line. */
  function ToFluent(p: Piece): Fluent.Op {
    match p
    case Text(text) => Fluent.Text(text)
    case Header(level, text) => Fluent.Header(level, text)
    case Bold(text) => Fluent.Bold(text)
    case Italic(text) => Fluent.Italic(text)
    case Link(name, url) => Fluent.Link(name, url)
    case LineBreak => Fluent.NewLine
  }

  /**
   * Both builders agree on every call except that this one's header also
   * ends its line: the fluent builder needs an explicit `NewLine` after it.
   */
  lemma AgreesWithFluentBuilder(p: Piece, newline: string)
    ensures Render(p, newline).Err? <==> Fluent.RunOp(ToFluent(p), newline).failed
    ensures Render(p, newline).Ok? && !p.Header? ==>
      Render(p, newline).value == Fluent.RunOp(ToFluent(p), newline).written
    ensures Render(p, newline).Ok? && p.Header? ==>
      Render(p, newline).value
        == Fluent.RunOps([ToFluent(p), Fluent.NewLine], newline).written
  {
    if p.Header? && p.level >= 0 {
      var op := ToFluent(p);
      assert [op, Fluent.NewLine][1..] == [Fluent.NewLine];
      assert Fluent.RunOps([Fluent.NewLine], newline).written == newline + "" by {
        assert [Fluent.NewLine][1..] == [];
      }
    }
  }

  lemma ExpectedHeader()
    ensures Repeat('#', 3) + " " + "This is my header" + "\n" == "### This is my header\n"
  {
    assert Repeat('#', 3) == "###" by {
      assert Repeat('#', 2) == "##";
    }
  }

  lemma ExpectedSecondLine()
    ensures "**" + "bold text" + "**" + " " + "*" + "italic text" + "*" + "\n" == "**bold text** *italic text*\n"
  {
  }

  lemma ExpectedLink()
    ensures "[" + "Link" + "](" + "https://example.com" + ")" == "[Link](https://example.com)"
  {
  }

  /** The test's first call: a level-3 header on its own line. */
  method WriteHeader(builder: MarkdownBuilder)
    requires builder.Valid() && builder.newline == "\n"
    modifies builder
    ensures builder.Valid() && builder.builder == old(builder.builder) + "### This is my header\n"
  {
    ExpectedHeader();
    var _ := builder.AddHeader(3, "This is my header");
  }

  /** The test's second line: bold text, a space, italic text and a line break. */
  method WriteSecondLine(builder: MarkdownBuilder, bold: string, italic: string)
    requires builder.Valid()
    modifies builder
    ensures builder.Valid()
    ensures builder.builder == old(builder.builder) + ("**" + bold + "**" + " " + "*" + italic + "*" + builder.newline)
  {
    var h := builder.builder;
    builder.AddBold(bold);
    builder.AddText(" ");
    builder.AddItalic(italic);
    builder.NewLine();
    assert builder.builder == h + ("**" + bold + "**") + " " + ("*" + italic + "*") + builder.newline;
  }

  /** The demo's test: a header, bold and italic text on one line, then a link. */
  method RegularScenario() returns (markdown: string)
    ensures markdown == "### This is my header\n" + "**bold text** *italic text*\n" + "[Link](https://example.com)"
  {
    var builder := new MarkdownBuilder("\n");
    WriteHeader(builder);
    WriteSecondLine(builder, "bold text", "italic text");
    ExpectedSecondLine();
    ghost var twoLines := builder.builder;
    assert twoLines == "### This is my header\n" + "**bold text** *italic text*\n";
    builder.AddLink("Link", "https://example.com");
    ExpectedLink();
    assert builder.builder == twoLines + "[Link](https://example.com)";
    markdown := builder.ToString();
  }
}
