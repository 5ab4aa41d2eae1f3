/**
 * The `FluentMarkdownBuilder` assignment: a Markdown writer whose methods
 * append to one `StringBuilder`, including tables whose rows and cells are
 * produced by nested callbacks.  The table and row builders share the
 * outer builder's `StringBuilder`; each cell and each built link text is
 * produced by a fresh inner builder.
 *
 * A callback is modelled by the calls it makes: an `Action<FluentMarkdownBuilder>`
 * is a sequence of `Op`, an `Action<FluentMarkdownTableBuilder>` a sequence
 * of `RowCall`, and an `Action<FluentMarkdownRowBuilder>` a sequence of
 * `CellCall`.  The specification functions `RunOp`, `RunOps`, ... say what
 * such calls write and whether they throw: `Enumerable.Repeat` rejects a
 * negative header level with `ArgumentOutOfRangeException`, which
 * propagates out of every enclosing callback, leaving behind what was
 * already written.  The line terminator (`Environment.NewLine`) is the
 * parameter `nl`.
 */
module FluentMarkdownBuilder {
  import opened Seqs
  import opened Outcomes

  /** One call on a `FluentMarkdownBuilder` made by a callback. */
  datatype Op =
    | Text(text: string)
    | Header(level: int, text: string)
    | Bold(text: string)
    | Italic(text: string)
    | Link(name: string, url: string)
    | BuiltLink(content: seq<Op>, url: string)
    | Table(headers: seq<string>, rows: seq<seq<string>>)
    | BuiltTable(headers: seq<string>, tableRows: seq<RowCall>)
    | NewLine

  /** One `AddRow` call made by a table callback, with the cells its row callback adds. */
  datatype RowCall = AddRow(cells: seq<CellCall>)

  /** One `AddCell` call made by a row callback, with the calls its cell callback makes. */
  datatype CellCall = AddCell(content: seq<Op>)

  /** What a run of calls wrote, and whether it ended by throwing. */
  datatype Trace = Trace(written: string, failed: bool)

  /** The exception a negative header level raises. */
  const HeaderLevelError := ArgumentOutOfRange("count")

  function OutcomeOf(t: Trace): Outcome {
    if t.failed then Threw(HeaderLevelError) else Completed
  }

  function LinkText(name: string, url: string): string {
    "[" + name + "](" + url + ")"
  }

  /** A table line: `|`, the cells joined by `|`, then `|` and the line terminator. */
  function TableLine(cells: seq<string>, nl: string): string {
    "|" + Join("|", cells) + "|" + nl
  }

  /** The header line and the separator line with one `---` per header. */
  function TableHead(headers: seq<string>, nl: string): string {
    TableLine(headers, nl) + TableLine(Repeat("---", |headers|), nl)
  }

  /** One line per row, in order. */
  function RowLines(rows: seq<seq<string>>, nl: string): string {
    if rows == [] then "" else RowLines(rows[..|rows| - 1], nl) + TableLine(rows[|rows| - 1], nl)
  }

  function RunOp(op: Op, nl: string): Trace
    decreases op
  {
    match op
    case Text(text) => Trace(text, false)
    case Header(level, text) =>
      if level < 0 then Trace("", true) else Trace(Repeat('#', level) + " " + text, false)
    case Bold(text) => Trace("**" + text + "**", false)
    case Italic(text) => Trace("*" + text + "*", false)
    case Link(name, url) => Trace(LinkText(name, url), false)
    case BuiltLink(content, url) =>
      var inner := RunOps(content, nl);
      if inner.failed then Trace("", true) else Trace(LinkText(inner.written, url), false)
    case Table(headers, rows) => Trace(TableHead(headers, nl) + RowLines(rows, nl), false)
    case BuiltTable(headers, tableRows) =>
      var t := RunRows(tableRows, nl);
      Trace(TableHead(headers, nl) + t.written, t.failed)
    case NewLine => Trace(nl, false)
  }

  function RunOps(ops: seq<Op>, nl: string): Trace
    decreases ops
  {
    if ops == [] then Trace("", false)
    else
      var t := RunOp(ops[0], nl);
      if t.failed then t
      else
        var u := RunOps(ops[1..], nl);
        Trace(t.written + u.written, u.failed)
  }

  /** `AddRow`: `|`, then the cells, then the line terminator. */
  function RunRow(row: RowCall, nl: string): Trace
    decreases row
  {
    var t := RunCells(row.cells, nl);
    if t.failed then Trace("|" + t.written, true) else Trace("|" + t.written + nl, false)
  }

  function RunRows(rows: seq<RowCall>, nl: string): Trace
    decreases rows
  {
    if rows == [] then Trace("", false)
    else
      var t := RunRow(rows[0], nl);
      if t.failed then t
      else
        var u := RunRows(rows[1..], nl);
        Trace(t.written + u.written, u.failed)
  }

  /** `AddCell`: the inner builder's text, then `|`. */
  function RunCell(cell: CellCall, nl: string): Trace
    decreases cell
  {
    var t := RunOps(cell.content, nl);
    if t.failed then Trace("", true) else Trace(t.written + "|", false)
  }

  function RunCells(cells: seq<CellCall>, nl: string): Trace
    decreases cells
  {
    if cells == [] then Trace("", false)
    else
      var t := RunCell(cells[0], nl);
      if t.failed then t
      else
        var u := RunCells(cells[1..], nl);
        Trace(t.written + u.written, u.failed)
  }

  /** The `StringBuilder` the builders share. */
  class StringBuilder {
    const newline: string
    var text: string

    constructor(newline: string)
      ensures this.newline == newline && text == ""
    {
      this.newline := newline;
      text := "";
    }

    method Append(s: string)
      modifies this
      ensures text == old(text) + s
    {
      text := text + s;
    }

    method AppendLine(s: string)
      modifies this
      ensures text == old(text) + s + newline
    {
      text := text + s + newline;
    }
  }

  class FluentMarkdownBuilder {
    const sb: StringBuilder

    constructor(newline: string)
      ensures fresh(sb) && sb.text == "" && sb.newline == newline
    {
      sb := new StringBuilder(newline);
    }

    function ToString(): string
      reads sb
    {
      sb.text
    }

    method AddText(text: string)
      modifies sb
      ensures sb.text == old(sb.text) + RunOp(Text(text), sb.newline).written
    {
      sb.Append(text);
    }

    /** Appends `headerLevel` hashes, a space and the text; a negative level throws before anything is written. */
    method AddHeader(headerLevel: int, text: string) returns (outcome: Outcome)
      modifies sb
      ensures sb.text == old(sb.text) + RunOp(Header(headerLevel, text), sb.newline).written
      ensures outcome == OutcomeOf(RunOp(Header(headerLevel, text), sb.newline))
    {
      if headerLevel < 0 {
        return Threw(HeaderLevelError);
      }
      var prefix := Repeat('#', headerLevel);
      sb.Append(prefix);
      sb.Append(" ");
      sb.Append(text);
      outcome := Completed;
    }

    method AddBold(text: string)
      modifies sb
      ensures sb.text == old(sb.text) + RunOp(Bold(text), sb.newline).written
    {
      sb.Append("**");
      sb.Append(text);
      sb.Append("**");
    }

    method AddItalic(text: string)
      modifies sb
      ensures sb.text == old(sb.text) + RunOp(Italic(text), sb.newline).written
    {
      sb.Append("*");
      sb.Append(text);
      sb.Append("*");
    }

    method AddLink(name: string, url: string)
      modifies sb
      ensures sb.text == old(sb.text) + RunOp(Link(name, url), sb.newline).written
    {
      sb.Append("[");
      sb.Append(name);
      sb.Append("](");
      sb.Append(url);
      sb.Append(")");
    }

    /** `AddLink(Action<FluentMarkdownBuilder>, link)`: the link text is what the callback writes on a fresh builder. */
    method AddBuiltLink(content: seq<Op>, link: string) returns (outcome: Outcome)
      modifies sb
      ensures sb.text == old(sb.text) + RunOp(BuiltLink(content, link), sb.newline).written
      ensures outcome == OutcomeOf(RunOp(BuiltLink(content, link), sb.newline))
      decreases content, 1
    {
      var innerBuilder := new FluentMarkdownBuilder(sb.newline);
      outcome := innerBuilder.Apply(content);
      if outcome.Threw? {
        return;
      }
      AddLink(innerBuilder.ToString(), link);
    }

    /** `Append('|').AppendJoin('|', cells).AppendLine("|")`. */
    method AppendTableLine(cells: seq<string>)
      modifies sb
      ensures sb.text == old(sb.text) + TableLine(cells, sb.newline)
    {
      sb.Append("|");
      sb.Append(Join("|", cells));
      sb.AppendLine("|");
    }

    /** `AddTable(headers, rows)`: the header and separator lines, then one line per row. */
    method AddTable(headers: seq<string>, rows: seq<seq<string>>)
      modifies sb
      ensures sb.text == old(sb.text) + RunOp(Table(headers, rows), sb.newline).written
    {
      ghost var start := sb.text;
      AppendTableLine(headers);
      AppendTableLine(Repeat("---", |headers|));
      assert sb.text == start + TableHead(headers, sb.newline);
      AppendRows(rows);
    }

    /** The loop of `AddTable` over the rows: one table line each, in order. */
    method AppendRows(rows: seq<seq<string>>)
      modifies sb
      ensures sb.text == old(sb.text) + RowLines(rows, sb.newline)
    {
      for k := 0 to |rows|
        invariant sb.text == old(sb.text) + RowLines(rows[..k], sb.newline)
      {
        RowLinesStep(rows, k, sb.newline);
        AppendTableLine(rows[k]);
      }
      assert rows[..|rows|] == rows;
    }

    /** `AddTable(headers, Action<FluentMarkdownTableBuilder>)`: the table head, then the rows the callback adds. */
    method AddBuiltTable(headers: seq<string>, tableRows: seq<RowCall>) returns (outcome: Outcome)
      modifies sb
      ensures sb.text == old(sb.text) + RunOp(BuiltTable(headers, tableRows), sb.newline).written
      ensures outcome == OutcomeOf(RunOp(BuiltTable(headers, tableRows), sb.newline))
      decreases tableRows, 1
    {
      AddTable(headers, []);
      var tableBuilder := new FluentMarkdownTableBuilder(sb);
      outcome := tableBuilder.Apply(tableRows);
    }

    method NewLine()
      modifies sb
      ensures sb.text == old(sb.text) + RunOp(Op.NewLine, sb.newline).written
    {
      sb.AppendLine("");
    }

    /** Makes one call on this builder. */
    method ApplyOp(op: Op) returns (outcome: Outcome)
      modifies sb
      ensures sb.text == old(sb.text) + RunOp(op, sb.newline).written
      ensures outcome == OutcomeOf(RunOp(op, sb.newline))
      decreases op, 2
    {
      outcome := Completed;
      match op
      case Text(text) => AddText(text);
      case Header(level, text) => outcome := AddHeader(level, text);
      case Bold(text) => AddBold(text);
      case Italic(text) => AddItalic(text);
      case Link(name, url) => AddLink(name, url);
      case BuiltLink(content, url) => outcome := AddBuiltLink(content, url);
      case Table(headers, rows) => AddTable(headers, rows);
      case BuiltTable(headers, tableRows) => outcome := AddBuiltTable(headers, tableRows);
      case NewLine => this.NewLine();
    }

    /** Invokes a callback on this builder: its calls in order, stopping at the first that throws. */
    method Apply(ops: seq<Op>) returns (outcome: Outcome)
      modifies sb
      ensures sb.text == old(sb.text) + RunOps(ops, sb.newline).written
      ensures outcome == OutcomeOf(RunOps(ops, sb.newline))
      decreases ops, 0
    {
      if ops == [] {
        return Completed;
      }
      outcome := ApplyOp(ops[0]);
      if outcome.Threw? {
        return;
      }
      outcome := Apply(ops[1..]);
    }
  }

  class FluentMarkdownTableBuilder {
    const sb: StringBuilder

    constructor(stringBuilder: StringBuilder)
      ensures sb == stringBuilder
    {
      sb := stringBuilder;
    }

    /** `AddRow`: `|`, the cells the row callback adds, then the line terminator. */
    method AddRow(row: RowCall) returns (outcome: Outcome)
      modifies sb
      ensures sb.text == old(sb.text) + RunRow(row, sb.newline).written
      ensures outcome == OutcomeOf(RunRow(row, sb.newline))
      decreases row, 1
    {
      sb.Append("|");
      var rowBuilder := new FluentMarkdownRowBuilder(sb);
      outcome := rowBuilder.Apply(row.cells);
      if outcome.Threw? {
        return;
      }
      sb.AppendLine("");
    }

    /** Invokes a table callback: its rows in order, stopping at the first that throws. */
    method Apply(rows: seq<RowCall>) returns (outcome: Outcome)
      modifies sb
      ensures sb.text == old(sb.text) + RunRows(rows, sb.newline).written
      ensures outcome == OutcomeOf(RunRows(rows, sb.newline))
      decreases rows, 0
    {
      if rows == [] {
        return Completed;
      }
      outcome := AddRow(rows[0]);
      if outcome.Threw? {
        return;
      }
      outcome := Apply(rows[1..]);
    }
  }

  class FluentMarkdownRowBuilder {
    const sb: StringBuilder

    constructor(stringBuilder: StringBuilder)
      ensures sb == stringBuilder
    {
      sb := stringBuilder;
    }

    /** `AddCell`: what the cell callback writes on a fresh builder, then `|`. */
    method AddCell(cell: CellCall) returns (outcome: Outcome)
      modifies sb
      ensures sb.text == old(sb.text) + RunCell(cell, sb.newline).written
      ensures outcome == OutcomeOf(RunCell(cell, sb.newline))
      decreases cell, 1
    {
      var innerBuilder := new FluentMarkdownBuilder(sb.newline);
      outcome := innerBuilder.Apply(cell.content);
      if outcome.Threw? {
        return;
      }
      sb.Append(innerBuilder.ToString());
      sb.Append("|");
    }

    /** Invokes a row callback: its cells in order, stopping at the first that throws. */
    method Apply(cells: seq<CellCall>) returns (outcome: Outcome)
      modifies sb
      ensures sb.text == old(sb.text) + RunCells(cells, sb.newline).written
      ensures outcome == OutcomeOf(RunCells(cells, sb.newline))
      decreases cells, 0
    {
      if cells == [] {
        return Completed;
      }
      outcome := AddCell(cells[0]);
      if outcome.Threw? {
        return;
      }
      outcome := Apply(cells[1..]);
    }
  }

  /** A header is exactly `level` hashes, a space and the text; a negative level writes nothing and throws. */
  lemma HeaderShape(level: int, text: string, nl: string)
    ensures level < 0 <==> RunOp(Header(level, text), nl).failed
    ensures level < 0 ==> RunOp(Header(level, text), nl).written == ""
    ensures level >= 0 ==>
      var w := RunOp(Header(level, text), nl).written;
      && |w| == level + 1 + |text|
      && (forall i :: 0 <= i < level ==> w[i] == '#')
      && w[level] == ' ' && w[level + 1..] == text
  {
  }

  /** A link built by a callback is the plain link whose name is the callback's output. */
  lemma BuiltLinkIsLinkOfInnerText(content: seq<Op>, url: string, nl: string)
    ensures RunOp(BuiltLink(content, url), nl).failed == RunOps(content, nl).failed
    ensures !RunOps(content, nl).failed ==>
      RunOp(BuiltLink(content, url), nl) == RunOp(Link(RunOps(content, nl).written, url), nl)
  {
  }

  /** Calls made in two runs write what each run writes, one after the other; a throw stops everything after it. */
  lemma {:induction false} RunOpsAppend(a: seq<Op>, b: seq<Op>, nl: string)
    ensures RunOps(a + b, nl) ==
      (if RunOps(a, nl).failed then RunOps(a, nl)
       else Trace(RunOps(a, nl).written + RunOps(b, nl).written, RunOps(b, nl).failed))
  {
    if a == [] {
      assert a + b == b;
    } else {
      var t := RunOp(a[0], nl);
      assert (a + b)[0] == a[0] && (a + b)[1..] == a[1..] + b;
      if !t.failed {
        RunOpsAppend(a[1..], b, nl);
        var rest := RunOps(a[1..], nl);
        if !rest.failed {
          assert t.written + (rest.written + RunOps(b, nl).written) == (t.written + rest.written) + RunOps(b, nl).written;
        }
      }
    }
  }

  /** The cell calls that write each string as plain text. */
  function TextCells(cells: seq<string>): (r: seq<CellCall>)
    ensures |r| == |cells|
  {
    if cells == [] then [] else [AddCell([Text(cells[0])])] + TextCells(cells[1..])
  }

  /** The row calls that write each row's strings as plain-text cells. */
  function TextRows(rows: seq<seq<string>>): (r: seq<RowCall>)
    ensures |r| == |rows|
  {
    if rows == [] then [] else [AddRow(TextCells(rows[0]))] + TextRows(rows[1..])
  }

  /** Plain-text cells write the cells joined by `|`, plus the closing `|`. */
  lemma {:induction false} TextCellsAreJoined(cells: seq<string>, nl: string)
    requires cells != []
    ensures RunCells(TextCells(cells), nl) == Trace(Join("|", cells) + "|", false)
  {
    var first := RunCell(AddCell([Text(cells[0])]), nl);
    assert RunOps([Text(cells[0])], nl) == Trace(cells[0], false);
    assert first == Trace(cells[0] + "|", false);
    if |cells| > 1 {
      TextCellsAreJoined(cells[1..], nl);
    }
  }

  /** A row of one or more plain-text cells is the same line `AddTable(headers, rows)` writes for it. */
  lemma TextRowIsTableLine(cells: seq<string>, nl: string)
    requires cells != []
    ensures RunRow(AddRow(TextCells(cells)), nl) == Trace(TableLine(cells, nl), false)
  {
    TextCellsAreJoined(cells, nl);
  }

  /** An empty row differs: the row builder writes `|` alone, the plain table `||`. */
  lemma EmptyRowsDiffer(nl: string)
    ensures RunRow(AddRow([]), nl).written == "|" + nl
    ensures TableLine([], nl) == "||" + nl
  {
  }

  /** One more row adds its line at the end. */
  lemma RowLinesStep(rows: seq<seq<string>>, k: nat, nl: string)
    requires k < |rows|
    ensures RowLines(rows[..k + 1], nl) == RowLines(rows[..k], nl) + TableLine(rows[k], nl)
  {
    assert rows[..k + 1][..k] == rows[..k];
  }

  lemma {:induction false} RowLinesPrepend(row: seq<string>, rows: seq<seq<string>>, nl: string)
    ensures RowLines([row] + rows, nl) == TableLine(row, nl) + RowLines(rows, nl)
    decreases |rows|
  {
    if rows != [] {
      var all := [row] + rows;
      assert all[..|all| - 1] == [row] + rows[..|rows| - 1];
      RowLinesPrepend(row, rows[..|rows| - 1], nl);
    }
  }

  /**
   * A table built by callbacks that write every cell as plain text, with no
   * empty row, is exactly the table written from the strings directly.
   */
  lemma {:induction false} TextTableAgreesWithPlainTable(headers: seq<string>, rows: seq<seq<string>>, nl: string)
    requires forall i :: 0 <= i < |rows| ==> rows[i] != []
    ensures RunOp(BuiltTable(headers, TextRows(rows)), nl) == RunOp(Table(headers, rows), nl)
  {
    TextRowsAreRowLines(rows, nl);
  }

  lemma {:induction false} TextRowsAreRowLines(rows: seq<seq<string>>, nl: string)
    requires forall i :: 0 <= i < |rows| ==> rows[i] != []
    ensures RunRows(TextRows(rows), nl) == Trace(RowLines(rows, nl), false)
  {
    if rows != [] {
      TextRowIsTableLine(rows[0], nl);
      TextRowsAreRowLines(rows[1..], nl);
      RowLinesPrepend(rows[0], rows[1..], nl);
      assert [rows[0]] + rows[1..] == rows;
    }
  }

  /** No check ties a row to the headers: a row of any width is written as it is, and a plain table never throws. */
  lemma RowWidthIsUnchecked(headers: seq<string>, row: seq<string>, nl: string)
    ensures RunOp(Table(headers, [row]), nl) == Trace(TableHead(headers, nl) + TableLine(row, nl), false)
  {
    assert [row][..0] == [];
    assert RowLines([row], nl) == TableLine(row, nl);
  }

  lemma JoinThree(x: string, y: string, z: string)
    ensures Join("|", [x, y, z]) == x + "|" + (y + "|" + z)
  {
    assert [x, y, z][1..] == [y, z] && [y, z][1..] == [z];
    assert Join("|", [z]) == z;
  }

  lemma LineText(x: string, y: string, z: string)
    ensures TableLine([x, y, z], "\n") == "|" + x + "|" + y + "|" + z + "|\n"
  {
    JoinThree(x, y, z);
  }

  lemma Dashes(n: nat)
    ensures n == 2 ==> Repeat("---", n) == ["---", "---"]
    ensures n == 3 ==> Repeat("---", n) == ["---", "---", "---"]
  {
    if n == 3 {
      assert Repeat("---", 2) == ["---", "---"];
    }
  }

  lemma HeadersLine()
    ensures TableLine(["Tables", "Are", "Cool"], "\n") == "|Tables|Are|Cool|\n"
  {
    LineText("Tables", "Are", "Cool");
  }

  lemma SeparatorLine()
    ensures TableLine(Repeat("---", 3), "\n") == "|---|---|---|\n"
  {
    Dashes(3);
    LineText("---", "---", "---");
  }

  lemma PlainHead()
    ensures TableHead(["Tables", "Are", "Cool"], "\n") == "|Tables|Are|Cool|\n" + "|---|---|---|\n"
  {
    HeadersLine();
    SeparatorLine();
  }

  lemma TwoRowLines(first: seq<string>, second: seq<string>, nl: string)
    ensures RowLines([first, second], nl) == TableLine(first, nl) + TableLine(second, nl)
  {
    assert [first, second][..1] == [first] && [first][..0] == [];
    assert RowLines([first], nl) == "" + TableLine(first, nl) == TableLine(first, nl);
  }

  lemma HelloLine()
    ensures TableLine(["Hello", "World", "!!!"], "\n") == "|Hello|World|!!!|\n"
  {
    LineText("Hello", "World", "!!!");
  }

  lemma OneTwoThreeLine()
    ensures TableLine(["One", "Two", "Three"], "\n") == "|One|Two|Three|\n"
  {
    LineText("One", "Two", "Three");
  }

  lemma PlainRows()
    ensures RowLines([["Hello", "World", "!!!"], ["One", "Two", "Three"]], "\n")
      == "|Hello|World|!!!|\n" + "|One|Two|Three|\n"
  {
    HelloLine();
    OneTwoThreeLine();
    TwoRowLines(["Hello", "World", "!!!"], ["One", "Two", "Three"], "\n");
  }

  lemma PlainTableText()
    ensures RunOp(Table(["Tables", "Are", "Cool"], [["Hello", "World", "!!!"], ["One", "Two", "Three"]]), "\n").written
      == "|Tables|Are|Cool|\n" + "|---|---|---|\n" + "|Hello|World|!!!|\n" + "|One|Two|Three|\n"
  {
    PlainHead();
    PlainRows();
  }

  /** The `AddTable` test: a three-column table with two rows. */
  method PlainTableScenario() returns (output: string)
    ensures output == "|Tables|Are|Cool|\n" + "|---|---|---|\n" + "|Hello|World|!!!|\n" + "|One|Two|Three|\n"
  {
    var builder := new FluentMarkdownBuilder("\n");
    builder.AddTable(["Tables", "Are", "Cool"], [["Hello", "World", "!!!"], ["One", "Two", "Three"]]);
    PlainTableText();
    output := builder.ToString();
  }

  lemma LinkCellText(url: string)
    ensures RunCell(AddCell([BuiltLink([Bold("Bold")], url)]), "\n") == Trace("[**Bold**](" + url + ")|", false)
  {
    assert [Bold("Bold")][1..] == [];
    assert RunOps([Bold("Bold")], "\n") == Trace("**Bold**" + "", false);
    var link := "[" + "**Bold**" + "](" + url + ")";
    assert RunOp(BuiltLink([Bold("Bold")], url), "\n") == Trace(link, false);
    assert [BuiltLink([Bold("Bold")], url)][1..] == [];
    assert RunOps([BuiltLink([Bold("Bold")], url)], "\n") == Trace(link + "", false);
    assert "[" + "**Bold**" + "](" == "[**Bold**](";
    assert link + "|" == "[**Bold**](" + url + ")|";
  }

  lemma ItalicCellText()
    ensures RunCell(AddCell([Italic("Italic")]), "\n") == Trace("*Italic*|", false)
  {
    assert [Italic("Italic")][1..] == [];
    assert RunOps([Italic("Italic")], "\n") == Trace("*Italic*" + "", false);
  }

  lemma NestedCells(url: string)
    ensures RunCells([AddCell([BuiltLink([Bold("Bold")], url)]), AddCell([Italic("Italic")])], "\n")
      == Trace("[**Bold**](" + url + ")|" + "*Italic*|", false)
  {
    var linkCell := AddCell([BuiltLink([Bold("Bold")], url)]);
    var italicCell := AddCell([Italic("Italic")]);
    LinkCellText(url);
    ItalicCellText();
    assert [linkCell, italicCell][1..] == [italicCell];
    assert [italicCell][1..] == [];
    assert RunCells([italicCell], "\n") == Trace("*Italic*|" + "", false);
  }

  lemma SingleRowRun(row: RowCall, cells: string, nl: string)
    requires RunCells(row.cells, nl) == Trace(cells, false)
    ensures RunRows([row], nl) == Trace("|" + cells + nl, false)
  {
    assert [row][1..] == [];
  }

  lemma NestedRowText(url: string)
    ensures RunRows([AddRow([AddCell([BuiltLink([Bold("Bold")], url)]), AddCell([Italic("Italic")])])], "\n")
      == Trace("|[**Bold**](" + url + ")|*Italic*|\n", false)
  {
    var row := AddRow([AddCell([BuiltLink([Bold("Bold")], url)]), AddCell([Italic("Italic")])]);
    NestedCells(url);
    SingleRowRun(row, "[**Bold**](" + url + ")|" + "*Italic*|", "\n");
    assert "|" + "[**Bold**](" == "|[**Bold**](" && ")|" + "*Italic*|" + "\n" == ")|*Italic*|\n";
    assert "|" + ("[**Bold**](" + url + ")|" + "*Italic*|") + "\n" == "|" + "[**Bold**](" + url + (")|" + "*Italic*|" + "\n");
  }

  lemma TwoColumnHead()
    ensures TableHead(["My", "Table"], "\n") == "|My|Table|\n" + "|---|---|\n"
  {
    assert ["My", "Table"][1..] == ["Table"];
    var r := Repeat("---", 2);
    assert r == ["---", "---"] && r[1..] == ["---"];
  }

  /** The `NestedMarkdown` test: a cell holding a link whose text is bold, and an italic cell. */
  method NestedScenario() returns (output: string, outcome: Outcome)
    ensures outcome == Completed
    ensures output == "|My|Table|\n" + "|---|---|\n" + "|[**Bold**](" + "https://example.com" + ")|*Italic*|\n"
  {
    var builder := new FluentMarkdownBuilder("\n");
    var url := "https://example.com";
    NestedRowText(url);
    TwoColumnHead();
    outcome := builder.AddBuiltTable(["My", "Table"],
      [AddRow([AddCell([BuiltLink([Bold("Bold")], url)]), AddCell([Italic("Italic")])])]);
    output := builder.ToString();
  }
}
