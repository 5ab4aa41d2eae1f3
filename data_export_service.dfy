/**
 * The CSV formatter of the bridge-pattern `DataExportService`, at the
 * string level: a header line with the first row's keys, then one line per
 * row with its values escaped as in section 2, rules 6 and 7, of RFC 4180.
 * A row is a `Dictionary<string, object>` in insertion order; a value is
 * its `ToString()` text, or `None` for `null`.  The line terminator
 * written by `StreamWriter.WriteLine` is the parameter `newline`.  Also the
 * pass-through `NoCompression` handler.
 */
module DataExportService {
  import opened Seqs
  import opened Outcomes

  datatype Entry = Entry(key: string, value: Option<string>)

  type Row = seq<Entry>

  /** The characters that make a field need quotes. */
  predicate NeedsQuotes(field: string) {
    ',' in field || '"' in field || '\n' in field
  }

  /** `field.Replace("\"", "\"\"")`. */
  function DoubleQuotes(s: string): (r: string)
    ensures '"' !in s ==> r == s
  {
    if s == [] then []
    else (if s[0] == '"' then "\"\"" else [s[0]]) + DoubleQuotes(s[1..])
  }

  function EscapeCsvField(field: string): string {
    if NeedsQuotes(field) then "\"" + DoubleQuotes(field) + "\"" else field
  }

  /** Reference inverse of `DoubleQuotes`: every `""` becomes one `"`. */
  function UndoubleQuotes(s: string): string {
    if |s| >= 2 && s[0] == '"' && s[1] == '"' then "\"" + UndoubleQuotes(s[2..])
    else if s == [] then []
    else [s[0]] + UndoubleQuotes(s[1..])
  }

  /** Reference inverse of `EscapeCsvField`: strips the enclosing quotes of a quoted field and undoubles its quotes. */
  function UnescapeCsvField(s: string): string {
    if |s| >= 2 && s[0] == '"' && s[|s| - 1] == '"' then UndoubleQuotes(s[1..|s| - 1]) else s
  }

  /** Inside the quotes, every quote comes in a pair: no lone quote can end the field early. */
  predicate QuotesPaired(s: string) {
    if s == [] then true
    else if s[0] == '"' then |s| >= 2 && s[1] == '"' && QuotesPaired(s[2..])
    else QuotesPaired(s[1..])
  }

  lemma {:induction false} DoubleQuotesShape(s: string)
    ensures |DoubleQuotes(s)| == |s| + Count(s, '"')
    ensures QuotesPaired(DoubleQuotes(s))
    ensures forall c :: c != '"' ==> (c in DoubleQuotes(s) <==> c in s)
  {
    if s != [] {
      DoubleQuotesShape(s[1..]);
      var head := if s[0] == '"' then "\"\"" else [s[0]];
      var r := DoubleQuotes(s);
      assert r == head + DoubleQuotes(s[1..]);
      assert s == [s[0]] + s[1..];
      CountAppend([s[0]], s[1..], '"');
      if s[0] == '"' {
        assert r[2..] == DoubleQuotes(s[1..]);
      } else {
        assert r[1..] == DoubleQuotes(s[1..]);
      }
      forall c | c != '"'
        ensures c in r <==> c in s
      {
        assert c in r <==> c in head || c in DoubleQuotes(s[1..]);
        assert c in s <==> c == s[0] || c in s[1..];
      }
    }
  }

  lemma {:induction false} UndoubleAfterDouble(s: string)
    ensures UndoubleQuotes(DoubleQuotes(s)) == s
  {
    if s != [] {
      UndoubleAfterDouble(s[1..]);
      var r := DoubleQuotes(s);
      if s[0] == '"' {
        assert r[2..] == DoubleQuotes(s[1..]);
      } else {
        assert r[1..] == DoubleQuotes(s[1..]);
      }
      assert s == [s[0]] + s[1..];
    }
  }

  /**
   * A field that needs quoting comes out enclosed in quotes with every inner
   * quote doubled, so no lone quote sits inside and the length grows by two
   * plus the number of quotes; any other field, including one holding only
   * carriage returns, comes out unchanged.
   */
  lemma EscapeShape(field: string)
    ensures NeedsQuotes(field) ==>
      var e := EscapeCsvField(field);
      && |e| == |field| + 2 + Count(field, '"')
      && e[0] == '"' && e[|e| - 1] == '"'
      && e[1..|e| - 1] == DoubleQuotes(field)
      && QuotesPaired(e[1..|e| - 1])
    ensures !NeedsQuotes(field) ==> EscapeCsvField(field) == field
    ensures ',' !in field && '"' !in field && '\n' !in field ==> EscapeCsvField(field) == field
  {
    if NeedsQuotes(field) {
      DoubleQuotesShape(field);
      var e := EscapeCsvField(field);
      assert e[1..|e| - 1] == DoubleQuotes(field);
    }
  }

  /** Escaping loses nothing: the reference unescaping recovers every field. */
  lemma UnescapeAfterEscape(field: string)
    ensures UnescapeCsvField(EscapeCsvField(field)) == field
  {
    var e := EscapeCsvField(field);
    if NeedsQuotes(field) {
      assert e[1..|e| - 1] == DoubleQuotes(field);
      UndoubleAfterDouble(field);
    } else {
      assert |field| >= 2 && field[0] == '"' ==> '"' in field;
    }
  }

  function Keys(row: Row): (r: seq<string>)
    ensures |r| == |row| && forall i :: 0 <= i < |row| ==> r[i] == row[i].key
  {
    if row == [] then [] else [row[0].key] + Keys(row[1..])
  }

  /** `v?.ToString() ?? ""`, escaped. */
  function Field(value: Option<string>): string {
    EscapeCsvField(if value.Some? then value.value else "")
  }

  function Fields(row: Row): (r: seq<string>)
    ensures |r| == |row| && forall i :: 0 <= i < |row| ==> r[i] == Field(row[i].value)
  {
    if row == [] then [] else [Field(row[0].value)] + Fields(row[1..])
  }

  /** The lines the formatter writes: the first row's keys, unescaped, then one line of escaped values per row. */
  function CsvLines(data: seq<Row>): seq<string> {
    (if data == [] then [] else [Join(",", Keys(data[0]))]) + RowLines(data)
  }

  function RowLines(data: seq<Row>): (r: seq<string>)
    ensures |r| == |data| && forall i :: 0 <= i < |data| ==> r[i] == Join(",", Fields(data[i]))
  {
    if data == [] then [] else RowLines(data[..|data| - 1]) + [Join(",", Fields(data[|data| - 1]))]
  }

  /** Each line followed by the terminator. */
  function Terminated(lines: seq<string>, newline: string): string {
    if lines == [] then "" else Terminated(lines[..|lines| - 1], newline) + lines[|lines| - 1] + newline
  }

  /**
   * The formatter's lines: none for no data; otherwise the header with the
   * first row's keys as they are, then exactly one line per row, in order.
   */
  lemma CsvLinesShape(data: seq<Row>)
    ensures data == [] ==> CsvLines(data) == []
    ensures data != [] ==> |CsvLines(data)| == |data| + 1 && CsvLines(data)[0] == Join(",", Keys(data[0]))
    ensures data != [] ==> forall i :: 0 <= i < |data| ==> CsvLines(data)[i + 1] == Join(",", Fields(data[i]))
  {
    if data != [] {
      var rows := RowLines(data);
      assert CsvLines(data) == [Join(",", Keys(data[0]))] + rows;
      assert forall i :: 0 <= i < |data| ==> CsvLines(data)[i + 1] == rows[i];
    }
  }

  /** An absent value is written as an empty field. */
  lemma NullIsEmptyField()
    ensures Field(None) == ""
  {
    assert !NeedsQuotes("");
  }

  /** `CsvFormatter.Format`: writes the header when there is data, then each row, through one `StreamWriter`. */
  method Format(data: seq<Row>, newline: string) returns (output: string)
    ensures output == Terminated(CsvLines(data), newline)
  {
    output := "";
    if data != [] {
      output := output + Join(",", Keys(data[0])) + newline;
    }
    ghost var head := if data == [] then [] else [Join(",", Keys(data[0]))];
    assert Terminated(head, newline) == output by {
      if data != [] {
        assert head[..0] == [];
      }
    }
    for i := 0 to |data|
      invariant output == Terminated(head + RowLines(data[..i]), newline)
    {
      var values := Fields(data[i]);
      var line := Join(",", values);
      FormatStep(head, data, i, newline);
      output := output + line + newline;
    }
    assert data[..|data|] == data;
  }

  /** One more row writes its line after everything written so far. */
  lemma FormatStep(head: seq<string>, data: seq<Row>, i: nat, newline: string)
    requires i < |data|
    ensures Terminated(head + RowLines(data[..i + 1]), newline)
      == Terminated(head + RowLines(data[..i]), newline) + Join(",", Fields(data[i])) + newline
  {
    assert data[..i + 1][..i] == data[..i];
    var lines := head + RowLines(data[..i + 1]);
    assert lines[..|lines| - 1] == head + RowLines(data[..i]);
  }

  lemma JoinThree(x: string, y: string, z: string)
    ensures Join(",", [x, y, z]) == x + "," + (y + "," + z)
  {
    assert [x, y, z][1..] == [y, z] && [y, z][1..] == [z];
    assert Join(",", [z]) == z;
  }

  const TestRow: Row := [Entry("id", Some("1")), Entry("name", Some("Test Item")), Entry("value", Some("42.5"))]

  lemma TestHeader()
    ensures Join(",", Keys(TestRow)) == "id,name,value"
  {
    assert Keys(TestRow) == ["id", "name", "value"];
    JoinThree("id", "name", "value");
  }

  lemma PlainValue(v: string)
    requires !NeedsQuotes(v)
    ensures Field(Some(v)) == v
  {
  }

  lemma TestValuesNeedNoQuotes()
    ensures !NeedsQuotes("1") && !NeedsQuotes("Test Item") && !NeedsQuotes("42.5")
  {
  }

  lemma TestFieldsArePlain()
    ensures Fields(TestRow) == ["1", "Test Item", "42.5"]
  {
    assert Fields(TestRow) == [Field(Some("1")), Field(Some("Test Item")), Field(Some("42.5"))];
    TestValuesNeedNoQuotes();
    PlainValue("1");
    PlainValue("Test Item");
    PlainValue("42.5");
  }

  lemma TestValues()
    ensures Join(",", Fields(TestRow)) == "1,Test Item,42.5"
  {
    TestFieldsArePlain();
    JoinThree("1", "Test Item", "42.5");
  }

  lemma TestRowLines()
    ensures CsvLines([TestRow]) == ["id,name,value", "1,Test Item,42.5"]
  {
    TestHeader();
    TestValues();
    assert [TestRow][..0] == [];
    assert RowLines([TestRow]) == [Join(",", Fields(TestRow))];
  }

  /** The test's single row: header `id,name,value`, then the row's values. */
  lemma SingleRowText(newline: string)
    ensures Terminated(CsvLines([TestRow]), newline) == "id,name,value" + newline + "1,Test Item,42.5" + newline
  {
    TestRowLines();
    var lines := CsvLines([TestRow]);
    assert lines[..1] == ["id,name,value"] && lines[..1][..0] == [];
    assert Terminated(lines[..1], newline) == "" + "id,name,value" + newline;
  }

  /** `NoCompression`: data passes through unchanged in both directions, with no file extension. */
  datatype NoCompression = NoCompression
  {
    function CompressionExtension(): string { "" }
    function Compress(data: seq<bv8>): seq<bv8> { data }
    function Decompress(compressedData: seq<bv8>): seq<bv8> { compressedData }
  }

  lemma NoCompressionRoundTrip(c: NoCompression, data: seq<bv8>)
    ensures c.Decompress(c.Compress(data)) == data
    ensures c.Compress(data) == data && c.CompressionExtension() == ""
  {
  }
}
