/** The dashboard's CSV reader, and the documents it reads back. */
module Csv {
  import opened Basics

  type Row = seq<string>

  predicate SomeField(row: Row) {
    exists i :: 0 <= i < |row| && row[i] != ""
  }

  /** A finished row, unless all its fields are empty. */
  function Keep(row: Row): seq<Row> {
    if SomeField(row) then [row] else []
  }

  /** A row is dropped exactly when there is nothing in any of its fields. */
  lemma EmptyRowsAreDropped(row: Row)
    ensures Keep(row) == [] <==> forall field :: field in row ==> field == ""
    ensures Keep(row) != [] ==> Keep(row) == [row]
  {
    if SomeField(row) {
      var i :| 0 <= i < |row| && row[i] != "";
      assert row[i] in row;
    }
  }

  /** The rows of what is left to read, `row` and `field` being under construction. */
  function Parse(content: string, row: Row, field: string, quoted: bool): seq<Row>
    decreases |content|
  {
    if content == [] then Keep(row + [field]) else
    var c := content[0];
    var next := if |content| > 1 then content[1..2] else "";
    if c == '"' && quoted && next == "\"" then Parse(content[2..], row, field + "\"", quoted)
    else if c == '"' then Parse(content[1..], row, field, !quoted)
    else if c == ',' && !quoted then Parse(content[1..], row + [field], "", quoted)
    else if (c == '\n' || c == '\r') && !quoted then
      Keep(row + [field]) + Parse(content[if c == '\r' && next == "\n" then 2 else 1..], [], "", quoted)
    else Parse(content[1..], row, field + [c], quoted)
  }

  function Rows(content: string): seq<Row> {
    Parse(content, [], "", false)
  }

  /** One character, or two, off the front. */
  lemma ParseStep(content: string, index: nat, row: Row, field: string, quoted: bool)
    requires index < |content|
    ensures var c := content[index];
      var next := if index + 1 < |content| then content[index + 1..index + 2] else "";
      Parse(content[index..], row, field, quoted) ==
      if c == '"' && quoted && next == "\"" then Parse(content[index + 2..], row, field + "\"", quoted)
      else if c == '"' then Parse(content[index + 1..], row, field, !quoted)
      else if c == ',' && !quoted then Parse(content[index + 1..], row + [field], "", quoted)
      else if (c == '\n' || c == '\r') && !quoted then
        Keep(row + [field]) + Parse(content[index + if c == '\r' && next == "\n" then 2 else 1..], [], "", quoted)
      else Parse(content[index + 1..], row, field + [c], quoted)
  {
    var left := content[index..];
    assert (if |left| > 1 then left[1..2] else "") == if index + 1 < |content| then content[index + 1..index + 2] else "";
    assert left[1..] == content[index + 1..];
    assert |left| > 1 ==> left[2..] == content[index + 2..];
    hide Keep;
  }

  /** `csvRows`. */
  method CsvRows(content: string) returns (rows: seq<Row>)
    ensures rows == Rows(content)
  {
    hide SomeField, Keep;
    rows := [];
    var row: Row, field, quoted := [], "", false;
    var index := 0;
    assert content[0..] == content;
    hide Parse;
    while index < |content|
      invariant 0 <= index <= |content|
      invariant rows + Parse(content[index..], row, field, quoted) == Rows(content)
    {
      ParseStep(content, index, row, field, quoted);
      var character := content[index];
      var following := if index + 1 < |content| then content[index + 1..index + 2] else "";
      if character == '"' && quoted && following == "\"" {
        field := field + "\"";
        index := index + 1;
      } else if character == '"' {
        quoted := !quoted;
      } else if character == ',' && !quoted {
        row, field := row + [field], "";
      } else if (character == '\n' || character == '\r') && !quoted {
        if character == '\r' && following == "\n" {
          index := index + 1;
        }
        row := row + [field];
        KeepAppends(rows, row, Parse(content[index + 1..], [], "", quoted));
        if SomeField(row) {
          rows := rows + [row];
        }
        row, field := [], "";
      } else {
        field := field + [character];
      }
      index := index + 1;
    }
    ParseEnd(content, row, field, quoted);
    row := row + [field];
    KeepAppends(rows, row, []);
    if SomeField(row) {
      rows := rows + [row];
    }
  }

  lemma KeepAppends(rows: seq<Row>, row: Row, more: seq<Row>)
    ensures Keep(row) + [] == Keep(row)
    ensures rows + (Keep(row) + more) == (if SomeField(row) then rows + [row] else rows) + more
    ensures rows + [] == rows && (rows + [row]) + [] == rows + [row]
  {
  }

  lemma ParseEnd(content: string, row: Row, field: string, quoted: bool)
    ensures Parse(content[|content|..], row, field, quoted) == Keep(row + [field])
  {
  }

  /* ---------- documents in the form of section 2 of RFC 4180 ---------- */

  /** A field is written bare or between quotes, its own quotes doubled. */
  datatype Field = Bare(text: string) | Quoted(text: string) {
    predicate Valid() {
      Bare? ==> Plain(text)
    }
  }

  datatype End = Crlf | Lf

  datatype Line = Line(fields: seq<Field>, end: End) {
    predicate Valid() {
      fields != [] && forall i :: 0 <= i < |fields| ==> fields[i].Valid()
    }
  }

  predicate Special(c: char) {
    c == ',' || c == '"' || c == '\r' || c == '\n'
  }

  predicate Plain(text: string) {
    forall i :: 0 <= i < |text| ==> !Special(text[i])
  }

  function Doubled(text: string): string {
    if text == "" then "" else (if text[0] == '"' then "\"\"" else [text[0]]) + Doubled(text[1..])
  }

  function PrintField(f: Field): string {
    match f
    case Bare(text) => text
    case Quoted(text) => "\"" + Doubled(text) + "\""
  }

  function PrintFields(fields: seq<Field>): string {
    if fields == [] then "" else
    if |fields| == 1 then PrintField(fields[0])
    else PrintField(fields[0]) + "," + PrintFields(fields[1..])
  }

  function PrintEnd(end: End): string {
    match end
    case Crlf => "\r\n"
    case Lf => "\n"
  }

  /** A document; the end of its last line may be left out. */
  function Print(lines: seq<Line>, lastEnded: bool): string {
    if lines == [] then "" else
    PrintFields(lines[0].fields)
    + (if |lines| > 1 || lastEnded then PrintEnd(lines[0].end) else "")
    + Print(lines[1..], lastEnded)
  }

  function Texts(fields: seq<Field>): Row {
    seq(|fields|, i requires 0 <= i < |fields| => fields[i].text)
  }

  /** The rows of a document that have something in them. */
  function Contents(lines: seq<Line>): seq<Row> {
    if lines == [] then [] else Keep(Texts(lines[0].fields)) + Contents(lines[1..])
  }

  predicate AllValid(lines: seq<Line>) {
    forall i :: 0 <= i < |lines| ==> lines[i].Valid()
  }

  /* ---------- reading back ---------- */

  lemma {:induction false} ReadPlain(text: string, rest: string, row: Row, field: string)
    requires Plain(text)
    ensures Parse(text + rest, row, field, false) == Parse(rest, row, field + text, false)
    decreases |text|
  {
    if text == "" {
      assert text + rest == rest && field + text == field;
    } else {
      ReadPlain(text[1..], rest, row, field + [text[0]]);
      assert (text + rest)[0] == text[0] && (text + rest)[1..] == text[1..] + rest;
      assert (field + [text[0]]) + text[1..] == field + text;
    }
  }

  /** Inside quotes, up to a closing quote that no other quote follows. */
  lemma {:induction false} ReadQuoted(text: string, rest: string, row: Row, field: string)
    requires rest == "" || rest[0] != '"'
    ensures Parse(Doubled(text) + "\"" + rest, row, field, true) == Parse(rest, row, field + text, false)
    decreases |text|
  {
    var all := Doubled(text) + "\"" + rest;
    if text == "" {
      assert all == "\"" + rest && all[1..] == rest && field + text == field;
      assert |all| > 1 ==> all[1..2] == [rest[0]];
    } else {
      var c, tail := text[0], text[1..];
      var left := Doubled(tail) + "\"" + rest;
      ReadQuoted(tail, rest, row, field + [c]);
      assert (field + [c]) + tail == field + text;
      if c == '"' {
        assert all == "\"\"" + left && all[2..] == left && all[1..2] == "\"";
      } else {
        assert all == [c] + left && all[1..] == left;
      }
    }
  }

  /** What may follow a field: nothing, a comma or an end of line. */
  predicate Delimited(rest: string) {
    rest == "" || rest[0] == ',' || rest[0] == '\r' || rest[0] == '\n'
  }

  lemma ReadField(f: Field, rest: string, row: Row)
    requires f.Valid() && Delimited(rest)
    ensures Parse(PrintField(f) + rest, row, "", false) == Parse(rest, row, f.text, false)
  {
    match f
    case Bare(text) =>
      ReadPlain(text, rest, row, "");
      assert "" + text == text;
    case Quoted(text) =>
      var all := PrintField(f) + rest;
      assert all[1..] == Doubled(text) + "\"" + rest;
      ReadQuoted(text, rest, row, "");
      assert "" + text == text;
  }

  lemma ReadComma(rest: string, row: Row, field: string)
    ensures Parse("," + rest, row, field, false) == Parse(rest, row + [field], "", false)
  {
    assert ("," + rest)[1..] == rest;
  }

  lemma ReadEnd(end: End, rest: string, row: Row, field: string)
    ensures Parse(PrintEnd(end) + rest, row, field, false) == Keep(row + [field]) + Rows(rest)
  {
    var all := PrintEnd(end) + rest;
    assert all[|PrintEnd(end)|..] == rest;
    assert end.Crlf? ==> all[1..2] == "\n";
  }

  lemma ReadNothing(row: Row, field: string)
    ensures Parse("", row, field, false) == Keep(row + [field])
  {
  }

  lemma TextsSplit(fields: seq<Field>)
    requires fields != []
    ensures [] + Texts(fields[..|fields| - 1]) + [fields[|fields| - 1].text] == Texts(fields)
  {
  }

  lemma TextsStep(fields: seq<Field>, row: Row)
    requires |fields| > 1
    ensures (row + [fields[0].text]) + Texts(fields[1..][..|fields| - 2]) == row + Texts(fields[..|fields| - 1])
  {
  }

  lemma NoTexts(fields: seq<Field>, row: Row)
    ensures row + Texts(fields[..0]) == row
  {
  }

  lemma PrintMore(fields: seq<Field>, rest: string)
    requires |fields| > 1
    ensures PrintFields(fields) + rest == PrintField(fields[0]) + ("," + (PrintFields(fields[1..]) + rest))
  {
    assert PrintFields(fields) == PrintField(fields[0]) + "," + PrintFields(fields[1..]);
    hide PrintField, PrintFields;
    Regroup(PrintField(fields[0]), ",", PrintFields(fields[1..]), rest);
  }

  lemma Regroup(a: string, b: string, c: string, d: string)
    ensures a + b + c + d == a + (b + (c + d))
  {
  }

  lemma {:induction false} ReadFields(fields: seq<Field>, rest: string, row: Row)
    requires fields != [] && forall i :: 0 <= i < |fields| ==> fields[i].Valid()
    requires Delimited(rest) && (rest != "" ==> rest[0] != ',')
    ensures var last := |fields| - 1;
      Parse(PrintFields(fields) + rest, row, "", false) == Parse(rest, row + Texts(fields[..last]), fields[last].text, false)
    decreases |fields|
  {
    hide Parse, Texts;
    var first, tail := fields[0], fields[1..];
    if |fields| == 1 {
      NoTexts(fields, row);
      ReadField(first, rest, row);
    } else {
      var after := PrintFields(tail) + rest;
      PrintMore(fields, rest);
      hide PrintField, PrintFields;
      ReadField(first, "," + after, row);
      ReadComma(after, row, first.text);
      ReadFields(tail, rest, row + [first.text]);
      TextsStep(fields, row);
    }
  }

  lemma EndDelimits(end: End, rest: string)
    ensures Delimited(PrintEnd(end) + rest) && PrintEnd(end) + rest != "" && (PrintEnd(end) + rest)[0] != ','
  {
  }

  lemma ReadLine(fields: seq<Field>, end: End, rest: string)
    requires fields != [] && forall i :: 0 <= i < |fields| ==> fields[i].Valid()
    ensures Rows(PrintFields(fields) + PrintEnd(end) + rest) == Keep(Texts(fields)) + Rows(rest)
  {
    hide Parse, PrintFields, PrintEnd, Keep, Texts, Delimited;
    var last := |fields| - 1;
    var after := PrintEnd(end) + rest;
    EndDelimits(end, rest);
    Associates(PrintFields(fields), PrintEnd(end), rest);
    ReadFields(fields, after, []);
    ReadEnd(end, rest, [] + Texts(fields[..last]), fields[last].text);
    TextsSplit(fields);
  }

  lemma ReadLastLine(fields: seq<Field>)
    requires fields != [] && forall i :: 0 <= i < |fields| ==> fields[i].Valid()
    ensures Rows(PrintFields(fields)) == Keep(Texts(fields))
  {
    hide Parse, PrintFields, Keep, Texts;
    var last := |fields| - 1;
    assert PrintFields(fields) + "" == PrintFields(fields);
    ReadFields(fields, "", []);
    ReadNothing([] + Texts(fields[..last]), fields[last].text);
    TextsSplit(fields);
  }

  /** A printed document reads back as its rows that have some non-empty field, however each field is
      written, whichever line ends are used and with or without the last one. */
  lemma {:induction false} RoundTrip(lines: seq<Line>, lastEnded: bool)
    requires AllValid(lines)
    ensures Rows(Print(lines, lastEnded)) == Contents(lines)
    decreases |lines|
  {
    hide PrintFields, Keep;
    if lines == [] {
      NoRows();
    } else {
      hide Rows;
      var fields, rest := lines[0].fields, Print(lines[1..], lastEnded);
      assert lines[0].Valid();
      RoundTrip(lines[1..], lastEnded);
      if |lines| > 1 || lastEnded {
        ReadLine(fields, lines[0].end, rest);
      } else {
        ReadLastLine(fields);
        assert Print(lines, lastEnded) == PrintFields(fields);
        assert Keep(Texts(fields)) + [] == Keep(Texts(fields));
      }
    }
  }

  lemma NoRows()
    ensures Rows("") == []
  {
  }

  /* ---------- what no printed document has ---------- */

  /** A carriage return on its own ends a row too, unless a line feed follows, which belongs to it. */
  lemma LoneReturnEndsRow(fields: seq<Field>, rest: string)
    requires fields != [] && forall i :: 0 <= i < |fields| ==> fields[i].Valid()
    requires rest != "" ==> rest[0] != '\n'
    ensures Rows(PrintFields(fields) + ("\r" + rest)) == Keep(Texts(fields)) + Rows(rest)
  {
    hide PrintFields, Keep, Texts;
    var last := |fields| - 1;
    ReadFields(fields, "\r" + rest, []);
    ReturnEnds(rest, [] + Texts(fields[..last]), fields[last].text);
    TextsSplit(fields);
  }

  lemma ReturnEnds(rest: string, row: Row, field: string)
    requires rest != "" ==> rest[0] != '\n'
    ensures Parse("\r" + rest, row, field, false) == Keep(row + [field]) + Rows(rest)
  {
    var all := "\r" + rest;
    assert all[1..] == rest;
    assert |all| > 1 ==> all[1..2] == [rest[0]];
  }

  /** A quote inside a bare field opens a quoted stretch of it, in which commas and line ends are text, and
      is itself dropped. */
  lemma QuoteInsideField(before: string, inside: string, after: string)
    requires Plain(before) && Plain(after)
    ensures Rows(before + ("\"" + (Doubled(inside) + "\"" + after))) == Keep([before + inside + after])
  {
    var quoted := Doubled(inside) + "\"" + after;
    ReadPlain(before, "\"" + quoted, [], "");
    assert "" + before == before;
    assert ("\"" + quoted)[1..] == quoted && ("\"" + quoted)[0] == '"';
    hide Doubled, Keep;
    assert Parse("\"" + quoted, [], before, false) == Parse(quoted, [], before, true);
    ReadQuoted(inside, after, [], before);
    ReadPlain(after, "", [], before + inside);
    assert after + "" == after;
    ReadNothing([], before + inside + after);
    assert [] + [before + inside + after] == [before + inside + after];
  }

  /** A quote that is never closed takes everything up to the end. */
  lemma {:induction false} UnclosedQuote(text: string, row: Row, field: string)
    ensures Parse(Doubled(text), row, field, true) == Keep(row + [field + text])
    decreases |text|
  {
    if text == "" {
      assert field + text == field;
    } else {
      var all := Doubled(text);
      UnclosedQuote(text[1..], row, field + [text[0]]);
      assert (field + [text[0]]) + text[1..] == field + text;
      if text[0] == '"' {
        assert all == "\"\"" + Doubled(text[1..]) && all[2..] == Doubled(text[1..]) && all[1..2] == "\"";
      } else {
        assert all == [text[0]] + Doubled(text[1..]) && all[1..] == Doubled(text[1..]);
      }
    }
  }

  /** Every row that is read has a non-empty field. */
  lemma {:induction false} ReadRowsHaveContent(content: string, row: Row, field: string, quoted: bool)
    ensures forall r :: r in Parse(content, row, field, quoted) ==> SomeField(r)
    decreases |content|
  {
    if content != [] {
      var c := content[0];
      var next := if |content| > 1 then content[1..2] else "";
      if c == '"' && quoted && next == "\"" {
        ReadRowsHaveContent(content[2..], row, field + "\"", quoted);
      } else if c == '"' {
        ReadRowsHaveContent(content[1..], row, field, !quoted);
      } else if c == ',' && !quoted {
        ReadRowsHaveContent(content[1..], row + [field], "", quoted);
      } else if (c == '\n' || c == '\r') && !quoted {
        ReadRowsHaveContent(content[if c == '\r' && next == "\n" then 2 else 1..], [], "", quoted);
      } else {
        ReadRowsHaveContent(content[1..], row, field + [c], quoted);
      }
    }
  }

  lemma {:induction false} ContentsOf(lines: seq<Line>, rows: seq<Row>)
    requires |lines| == |rows|
    requires forall i :: 0 <= i < |rows| ==> Texts(lines[i].fields) == rows[i] && SomeField(rows[i])
    ensures Contents(lines) == rows
    decreases |lines|
  {
    if lines != [] {
      ContentsOf(lines[1..], rows[1..]);
    }
  }

  /** Whatever text is read, printing the rows it gave, in any style, and reading again gives the same
      rows. */
  lemma ReadPrintRead(content: string, lines: seq<Line>, lastEnded: bool)
    requires AllValid(lines) && |lines| == |Rows(content)|
    requires forall i :: 0 <= i < |lines| ==> Texts(lines[i].fields) == Rows(content)[i]
    ensures Rows(Print(lines, lastEnded)) == Rows(content)
  {
    ReadRowsHaveContent(content, [], "", false);
    ContentsOf(lines, Rows(content));
    RoundTrip(lines, lastEnded);
  }
}
