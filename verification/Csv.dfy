/** The table's CSV text, with a reader of quoted fields as in section 2 of RFC 4180 (LF line ends). */
module Csv {
  import opened Commerce

  /** Every double quote doubled. */
  function Doubled(cell: string): string {
    if cell == "" then ""
    else (if cell[0] == '"' then "\"\"" else [cell[0]]) + Doubled(cell[1..])
  }

  function Quoted(cell: string): string { "\"" + Doubled(cell) + "\"" }

  function Join(parts: seq<string>, separator: string): string {
    if |parts| == 0 then ""
    else if |parts| == 1 then parts[0]
    else parts[0] + separator + Join(parts[1..], separator)
  }

  function Record(cells: seq<string>): string {
    Join(seq(|cells|, i requires 0 <= i < |cells| => Quoted(cells[i])), ",")
  }

  function Body(rows: seq<seq<string>>): string {
    Join(seq(|rows|, i requires 0 <= i < |rows| => Record(rows[i])), "\n")
  }

  /** The exported text: headers are joined as they are. */
  function Export(headers: seq<string>, rows: seq<seq<string>>): string {
    Join(headers, ",") + "\n" + Body(rows)
  }

  // ---------- reading ----------

  /** The rest of a quoted field: its text and what follows the closing quote. */
  function ReadQuoted(s: string): (r: Option<(string, string)>)
    ensures r.Some? ==> |r.value.1| < |s|
    decreases |s|
  {
    if s == "" then None
    else if s[0] != '"' then
      match ReadQuoted(s[1..])
      case None => None
      case Some((text, rest)) => Some(([s[0]] + text, rest))
    else if |s| > 1 && s[1] == '"' then
      match ReadQuoted(s[2..])
      case None => None
      case Some((text, rest)) => Some(("\"" + text, rest))
    else Some(("", s[1..]))
  }

  function ReadRecord(s: string): (r: Option<(seq<string>, string)>)
    ensures r.Some? ==> |r.value.1| < |s|
    decreases |s|
  {
    if s == "" || s[0] != '"' then None
    else
      match ReadQuoted(s[1..])
      case None => None
      case Some((cell, rest)) =>
        if rest != "" && rest[0] == ',' then
          match ReadRecord(rest[1..])
          case None => None
          case Some((cells, rest')) => Some(([cell] + cells, rest'))
        else Some(([cell], rest))
  }

  /** Records up to the end; the last one may or may not end its line. */
  function ReadBody(s: string): Option<seq<seq<string>>>
    decreases |s|
  {
    if s == "" then Some([])
    else
      match ReadRecord(s)
      case None => None
      case Some((record, rest)) =>
        if rest == "" then Some([record])
        else if rest[0] == '\n' then
          match ReadBody(rest[1..])
          case None => None
          case Some(records) => Some([record] + records)
        else None
  }

  // ---------- round trip ----------

  lemma {:induction false} QuotedReadsBack(cell: string, rest: string)
    requires rest == "" || rest[0] != '"'
    ensures ReadQuoted(Doubled(cell) + "\"" + rest) == Some((cell, rest))
  {
    var s := Doubled(cell) + "\"" + rest;
    if cell == "" {
      assert s[1..] == rest;
    } else {
      QuotedReadsBack(cell[1..], rest);
      var tail := Doubled(cell[1..]) + "\"" + rest;
      if cell[0] == '"' {
        assert s[2..] == tail;
        assert "\"" + cell[1..] == cell;
      } else {
        assert s[1..] == tail;
        assert [cell[0]] + cell[1..] == cell;
      }
    }
  }

  lemma RecordOfMore(cells: seq<string>)
    requires |cells| > 1
    ensures Record(cells) == Quoted(cells[0]) + "," + Record(cells[1..])
  {
    var quoted := seq(|cells|, i requires 0 <= i < |cells| => Quoted(cells[i]));
    assert quoted[1..] == seq(|cells[1..]|, i requires 0 <= i < |cells[1..]| => Quoted(cells[1..][i]));
  }

  /** What a record is once its first cell has been read. */
  function AfterCell(cell: string, tail: string): Option<(seq<string>, string)> {
    if tail == "" || tail[0] != ',' then Some(([cell], tail))
    else
      match ReadRecord(tail[1..])
      case None => None
      case Some((cells, rest)) => Some(([cell] + cells, rest))
  }

  lemma ReadsCellFirst(s: string, cell: string, tail: string)
    requires s != "" && s[0] == '"' && ReadQuoted(s[1..]) == Some((cell, tail))
    ensures ReadRecord(s) == AfterCell(cell, tail)
  {
  }

  lemma AfterOpeningQuote(text: string, tail: string)
    ensures var s := "\"" + text + "\"" + tail; s[0] == '"' && s[1..] == text + "\"" + tail
  {
  }

  /** Reading one quoted cell off the front of a record. */
  lemma CellReadsBack(cell: string, tail: string)
    requires tail == "" || tail[0] != '"'
    ensures ReadRecord(Quoted(cell) + tail) == AfterCell(cell, tail)
  {
    var s := Quoted(cell) + tail;
    AfterOpeningQuote(Doubled(cell), tail);
    QuotedReadsBack(cell, tail);
    ReadsCellFirst(s, cell, tail);
  }

  lemma ReadsMore(first: string, more: string, cells: seq<string>, rest: string)
    requires ReadRecord(more) == Some((cells, rest))
    ensures ReadRecord(Quoted(first) + ("," + more)) == Some(([first] + cells, rest))
  {
    CellReadsBack(first, "," + more);
    assert ("," + more)[1..] == more;
  }

  lemma Regroup(a: string, b: string, c: string)
    ensures a + "," + b + c == a + ("," + (b + c))
  {
  }

  lemma RecordIsNotEmpty(cells: seq<string>)
    requires |cells| > 0
    ensures Record(cells) != ""
  {
    if |cells| > 1 { RecordOfMore(cells); }
  }

  lemma {:induction false} RecordReadsBack(cells: seq<string>, rest: string)
    requires |cells| > 0 && (rest == "" || rest[0] == '\n')
    ensures ReadRecord(Record(cells) + rest) == Some((cells, rest))
  {
    if |cells| == 1 {
      assert Record(cells) == Quoted(cells[0]) && [cells[0]] == cells;
      CellReadsBack(cells[0], rest);
    } else {
      var more := Record(cells[1..]);
      RecordReadsBack(cells[1..], rest);
      ReadsMore(cells[0], more + rest, cells[1..], rest);
      RecordOfMore(cells);
      Regroup(Quoted(cells[0]), more, rest);
      assert [cells[0]] + cells[1..] == cells;
    }
  }

  lemma BodyOfMore(rows: seq<seq<string>>)
    requires |rows| > 1
    ensures Body(rows) == Record(rows[0]) + "\n" + Body(rows[1..])
  {
    var records := seq(|rows|, i requires 0 <= i < |rows| => Record(rows[i]));
    assert records[1..] == seq(|rows[1..]|, i requires 0 <= i < |rows[1..]| => Record(rows[1..][i]));
  }

  /** Whatever the cells hold, the exported body reads back as exactly the original cells. */
  lemma {:induction false} BodyReadsBack(rows: seq<seq<string>>)
    requires forall i :: 0 <= i < |rows| ==> |rows[i]| > 0
    ensures ReadBody(Body(rows)) == Some(rows)
  {
    if |rows| == 1 {
      RecordReadsBack(rows[0], "");
      RecordIsNotEmpty(rows[0]);
      assert Body(rows) == Record(rows[0]) == Record(rows[0]) + "";
      assert [rows[0]] == rows;
    } else if |rows| > 1 {
      BodyOfMore(rows);
      var tail := "\n" + Body(rows[1..]);
      RecordReadsBack(rows[0], tail);
      RecordIsNotEmpty(rows[0]);
      assert Body(rows) == Record(rows[0]) + tail;
      assert tail[1..] == Body(rows[1..]);
      BodyReadsBack(rows[1..]);
      assert [rows[0]] + rows[1..] == rows;
    }
  }

  /** For a table of n visible columns, the export is faithful exactly if a column is visible or there are no rows. */
  lemma FaithfulIffVisible(rows: seq<seq<string>>, columns: nat)
    requires forall i :: 0 <= i < |rows| ==> |rows[i]| == columns
    ensures ReadBody(Body(rows)) == Some(rows) <==> columns > 0 || rows == []
  {
    if columns > 0 || rows == [] {
      BodyReadsBack(rows);
    } else if |rows| == 1 {
      assert Body(rows) == "";
    } else {
      BodyOfMore(rows);
      assert Body(rows)[0] == '\n';
    }
  }

  /** The text after the first line break. */
  function AfterFirstLine(s: string): string {
    if s == "" then "" else if s[0] == '\n' then s[1..] else AfterFirstLine(s[1..])
  }

  lemma {:induction false} SkipsLine(line: string, rest: string)
    requires '\n' !in line
    ensures AfterFirstLine(line + "\n" + rest) == rest
  {
    if line == "" {
      assert (line + "\n" + rest)[1..] == rest;
    } else {
      SkipsLine(line[1..], rest);
      assert (line + "\n" + rest)[1..] == line[1..] + "\n" + rest;
    }
  }

  lemma {:induction false} JoinKeepsLine(parts: seq<string>)
    requires forall i :: 0 <= i < |parts| ==> '\n' !in parts[i]
    ensures '\n' !in Join(parts, ",")
  {
    if |parts| > 1 {
      JoinKeepsLine(parts[1..]);
    }
  }

  /** The whole file: if no header breaks the line, skipping the first line leaves the original cells. */
  lemma ExportReadsBack(headers: seq<string>, rows: seq<seq<string>>)
    requires forall i :: 0 <= i < |headers| ==> '\n' !in headers[i]
    requires forall i :: 0 <= i < |rows| ==> |rows[i]| == |headers| > 0
    ensures ReadBody(AfterFirstLine(Export(headers, rows))) == Some(rows)
  {
    JoinKeepsLine(headers);
    SkipsLine(Join(headers, ","), Body(rows));
    BodyReadsBack(rows);
  }

  // ---------- the whole file ----------

  /** A character that section 2 of RFC 4180 allows in an unquoted field, line ends being LF. */
  predicate Textdata(c: char) { c != ',' && c != '"' && c != '\n' }

  predicate Plain(cell: string) { forall i :: 0 <= i < |cell| ==> Textdata(cell[i]) }

  /** An unquoted field and what follows it. */
  function ReadPlain(s: string): (r: (string, string))
    ensures Plain(r.0) && s == r.0 + r.1
    ensures r.1 == "" || !Textdata(r.1[0])
  {
    if s == "" || !Textdata(s[0]) then ("", s)
    else
      var (text, rest) := ReadPlain(s[1..]);
      ([s[0]] + text, rest)
  }

  /** A field, quoted or not. */
  function ReadField(s: string): (r: Option<(string, string)>)
    ensures r.Some? ==> |r.value.1| <= |s|
  {
    if s != "" && s[0] == '"' then ReadQuoted(s[1..]) else Some(ReadPlain(s))
  }

  /** A header record up to the end of its line. */
  function ReadHeader(s: string): (r: Option<(seq<string>, string)>)
    decreases |s|
  {
    match ReadField(s)
    case None => None
    case Some((cell, rest)) =>
      if rest != "" && rest[0] == ',' then
        match ReadHeader(rest[1..])
        case None => None
        case Some((cells, rest')) => Some(([cell] + cells, rest'))
      else if rest != "" && rest[0] == '\n' then Some(([cell], rest[1..]))
      else None
  }

  function ReadFile(s: string): Option<(seq<string>, seq<seq<string>>)> {
    match ReadHeader(s)
    case None => None
    case Some((headers, rest)) =>
      match ReadBody(rest)
      case None => None
      case Some(rows) => Some((headers, rows))
  }

  lemma {:induction false} PlainReadsBack(cell: string, rest: string)
    requires Plain(cell) && rest != "" && !Textdata(rest[0])
    ensures ReadPlain(cell + rest) == (cell, rest)
  {
    if cell == "" {
      assert cell + rest == rest;
    } else {
      PlainReadsBack(cell[1..], rest);
      assert (cell + rest)[1..] == cell[1..] + rest;
      assert [cell[0]] + cell[1..] == cell;
    }
  }

  lemma {:induction false} PlainHeadersReadBack(headers: seq<string>, rest: string)
    requires headers != [] && forall i :: 0 <= i < |headers| ==> Plain(headers[i])
    ensures ReadHeader(Join(headers, ",") + "\n" + rest) == Some((headers, rest))
  {
    var line, cell := Join(headers, ",") + "\n" + rest, headers[0];
    if |headers| == 1 {
      assert line == cell + ("\n" + rest);
      PlainReadsBack(cell, "\n" + rest);
      assert ("\n" + rest)[1..] == rest;
      assert [cell] == headers;
    } else {
      var more := Join(headers[1..], ",") + "\n" + rest;
      assert line == cell + ("," + more);
      PlainReadsBack(cell, "," + more);
      PlainHeadersReadBack(headers[1..], rest);
      assert ("," + more)[1..] == more;
      assert [cell] + headers[1..] == headers;
    }
  }

  /** A quoted field is longer than its text, by two quotes and by one for each quote in the text. */
  lemma {:induction false} QuotedIsLonger(s: string)
    requires ReadQuoted(s).Some?
    ensures |Doubled(ReadQuoted(s).value.0)| + 1 + |ReadQuoted(s).value.1| == |s|
    ensures |ReadQuoted(s).value.0| <= |Doubled(ReadQuoted(s).value.0)|
    decreases |s|
  {
    if s[0] != '"' {
      QuotedIsLonger(s[1..]);
    } else if |s| > 1 && s[1] == '"' {
      QuotedIsLonger(s[2..]);
    }
  }

  /** A header record takes at least the room of its cells, and more if one of them had to be quoted. */
  lemma {:induction false} HeaderIsLonger(s: string)
    requires ReadHeader(s).Some?
    ensures var (cells, rest) := ReadHeader(s).value;
            cells != [] && |Join(cells, ",")| + 1 + |rest| <= |s| &&
            (|Join(cells, ",")| + 1 + |rest| == |s| ==> forall i :: 0 <= i < |cells| ==> Plain(cells[i]))
    decreases |s|
  {
    var (cell, rest) := ReadField(s).value;
    if s != "" && s[0] == '"' { QuotedIsLonger(s[1..]); }
    if rest[0] == ',' { HeaderIsLonger(rest[1..]); }
  }

  /** A record has one text only. */
  lemma {:induction false} RecordIsAsLong(s: string)
    requires ReadRecord(s).Some?
    ensures var (cells, rest) := ReadRecord(s).value;
            cells != [] && |Record(cells)| + |rest| == |s|
    decreases |s|
  {
    QuotedIsLonger(s[1..]);
    var (cell, rest) := ReadQuoted(s[1..]).value;
    if rest != "" && rest[0] == ',' {
      RecordIsAsLong(rest[1..]);
      var (cells, _) := ReadRecord(rest[1..]).value;
      RecordOfMore([cell] + cells);
      assert ([cell] + cells)[1..] == cells;
    } else {
      assert Record([cell]) == Quoted(cell);
    }
  }

  lemma {:induction false} BodyIsAsLong(s: string)
    requires ReadBody(s).Some?
    ensures |Body(ReadBody(s).value)| <= |s|
    decreases |s|
  {
    if s != "" {
      RecordIsAsLong(s);
      var (record, rest) := ReadRecord(s).value;
      if rest == "" {
        assert Body([record]) == Record(record);
      } else {
        BodyIsAsLong(rest[1..]);
        var rows := ReadBody(rest[1..]).value;
        if rows == [] {
          assert Body([record]) == Record(record);
        } else {
          BodyOfMore([record] + rows);
          assert ([record] + rows)[1..] == rows;
        }
      }
    }
  }

  /**
    Headers are written unquoted. A reader of section 2 of RFC 4180 gets the whole file back, headers and
    cells, exactly if there is a header and no header holds a comma, a double quote or a line break.
  */
  lemma FileReadsBackIffPlain(headers: seq<string>, rows: seq<seq<string>>)
    requires forall i :: 0 <= i < |rows| ==> |rows[i]| == |headers|
    ensures ReadFile(Export(headers, rows)) == Some((headers, rows)) <==>
            headers != [] && forall i :: 0 <= i < |headers| ==> Plain(headers[i])
  {
    var s := Export(headers, rows);
    if headers != [] && forall i :: 0 <= i < |headers| ==> Plain(headers[i]) {
      PlainHeadersReadBack(headers, Body(rows));
      BodyReadsBack(rows);
    } else if ReadFile(s) == Some((headers, rows)) {
      HeaderIsLonger(s);
      BodyIsAsLong(ReadHeader(s).value.1);
      assert false;
    }
  }

  /** Two different header rows that give the same line. */
  lemma HeadersAreAmbiguous()
    ensures Join(["a,b"], ",") == Join(["a", "b"], ",")
  {
    assert ["a", "b"][1..] == ["b"];
  }
}
