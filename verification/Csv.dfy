/** RFC 4180 rows out of text fed in pieces, and the writer whose text they are read back from. */
module Csv {

  type Row = seq<string>

  /** Where the reader is between two characters. */
  datatype State = State(field: string, row: Row, inQuotes: bool, afterQuote: bool, quoted: bool)

  const START := State("", [], false, false, false)

  /** A state and the rows completed on the way to it. */
  datatype Read = Read(state: State, rows: seq<Row>)

  /** One character inside a quoted field: consumed, or it closed the field and is read again outside. */
  function InsideQuotes(s: State, c: char): (State, bool) {
    if !s.afterQuote then
      (if c == '"' then s.(afterQuote := true) else s.(field := s.field + [c]), true)
    else if c == '"' then (s.(field := s.field + ['"'], afterQuote := false), true)
    else (s.(inQuotes := false, afterQuote := false), false)
  }

  function EndField(s: State): State {
    s.(row := s.row + [s.field], field := "", quoted := false)
  }

  function OutsideQuotes(s: State, c: char): Read {
    if c == '"' && s.field == "" && !s.quoted then Read(s.(inQuotes := true, quoted := true), [])
    else if c == ',' then Read(EndField(s), [])
    else if c == '\n' then Read(EndField(s).(row := []), [EndField(s).row])
    else if c != '\r' then Read(s.(field := s.field + [c]), [])
    else Read(s, [])
  }

  function Char(s: State, c: char): Read {
    if s.inQuotes then
      var (next, consumed) := InsideQuotes(s, c);
      if consumed then Read(next, []) else OutsideQuotes(next, c)
    else OutsideQuotes(s, c)
  }

  function FeedFrom(s: State, text: string): Read
    decreases |text|
  {
    if text == "" then Read(s, [])
    else
      var first := Char(s, text[0]);
      var rest := FeedFrom(first.state, text[1..]);
      Read(rest.state, first.rows + rest.rows)
  }

  /** What is read after rows already answered. */
  function After(rows: seq<Row>, read: Read): Read {
    Read(read.state, rows + read.rows)
  }

  lemma FeedStep(s: State, text: string, i: nat, rows: seq<Row>)
    requires i < |text|
    ensures After(rows, FeedFrom(s, text[i..])) ==
      After(rows + Char(s, text[i]).rows, FeedFrom(Char(s, text[i]).state, text[i + 1..]))
  {
    assert text[i..][0] == text[i] && text[i..][1..] == text[i + 1..];
  }

  /** The last row, when the text ended without a newline. */
  function EndOf(s: State): Read {
    if s.field == "" && s.row == [] && !s.quoted then Read(s, [])
    else Read(EndField(s).(row := []), [EndField(s).row])
  }

  /** The reader, its state updated character by character. */
  class CsvRows {
    var field: string
    var row: Row
    var inQuotes: bool
    var afterQuote: bool
    var quoted: bool

    function At(): State
      reads this
    {
      State(field, row, inQuotes, afterQuote, quoted)
    }

    constructor ()
      ensures At() == START
    {
      field, row, inQuotes, afterQuote, quoted := "", [], false, false, false;
    }

    method Feed(text: string) returns (rows: seq<Row>)
      modifies this
      ensures Read(At(), rows) == FeedFrom(old(At()), text)
    {
      rows := [];
      for i := 0 to |text|
        invariant FeedFrom(old(At()), text) == After(rows, FeedFrom(At(), text[i..]))
      {
        FeedStep(At(), text, i, rows);
        rows := TakeChar(text[i], rows);
      }
      assert text[|text|..] == "";
    }

    method TakeChar(c: char, rows: seq<Row>) returns (answer: seq<Row>)
      modifies this
      ensures At() == Char(old(At()), c).state && answer == rows + Char(old(At()), c).rows
    {
      if inQuotes {
        var consumed := TakeInside(c);
        if consumed {
          return rows;
        }
      }
      answer := TakeOutside(c, rows);
    }

    method TakeInside(c: char) returns (consumed: bool)
      modifies this
      ensures (At(), consumed) == InsideQuotes(old(At()), c)
    {
      if !afterQuote {
        if c == '"' {
          afterQuote := true;
        } else {
          field := field + [c];
        }
        return true;
      }
      if c == '"' {
        field := field + ['"'];
        afterQuote := false;
        return true;
      }
      inQuotes := false;
      afterQuote := false;
      consumed := false;
    }

    method TakeOutside(c: char, rows: seq<Row>) returns (answer: seq<Row>)
      modifies this
      ensures At() == OutsideQuotes(old(At()), c).state && answer == rows + OutsideQuotes(old(At()), c).rows
    {
      answer := rows;
      if c == '"' && field == "" && !quoted {
        inQuotes := true;
        quoted := true;
      } else if c == ',' {
        row, field, quoted := row + [field], "", false;
      } else if c == '\n' {
        row, field, quoted := row + [field], "", false;
        answer := rows + [row];
        row := [];
      } else if c != '\r' {
        field := field + [c];
      }
    }

    method End() returns (rows: seq<Row>)
      modifies this
      ensures Read(At(), rows) == EndOf(old(At()))
    {
      if field == "" && row == [] && !quoted {
        return [];
      }
      rows := [row + [field]];
      row, field, quoted := [], "", false;
    }
  }

  // ---- pieces -----------------------------------------------------------------------------------

  lemma {:induction false} FeedConcat(s: State, a: string, b: string)
    ensures
      var first := FeedFrom(s, a);
      var rest := FeedFrom(first.state, b);
      FeedFrom(s, a + b) == Read(rest.state, first.rows + rest.rows)
    decreases |a|
  {
    if a == "" {
      assert a + b == b;
      assert [] + FeedFrom(s, b).rows == FeedFrom(s, b).rows;
    } else {
      assert (a + b)[0] == a[0] && (a + b)[1..] == a[1..] + b;
      FeedConcat(Char(s, a[0]).state, a[1..], b);
      var first := FeedFrom(s, a);
      assert Char(s, a[0]).rows + (FeedFrom(Char(s, a[0]).state, a[1..]).rows + FeedFrom(first.state, b).rows)
          == first.rows + FeedFrom(first.state, b).rows;
    }
  }

  function Flatten(pieces: seq<string>): string {
    if pieces == [] then "" else pieces[0] + Flatten(pieces[1..])
  }

  /** A text fed in pieces, one after another. */
  function FeedPieces(s: State, pieces: seq<string>): Read
    decreases |pieces|
  {
    if pieces == [] then Read(s, [])
    else
      var first := FeedFrom(s, pieces[0]);
      var rest := FeedPieces(first.state, pieces[1..]);
      Read(rest.state, first.rows + rest.rows)
  }

  /** However a text is cut, the same rows come of it, and the reader is left in the same state. */
  lemma {:induction false} CuttingIsInvisible(s: State, pieces: seq<string>)
    ensures FeedPieces(s, pieces) == FeedFrom(s, Flatten(pieces))
    decreases |pieces|
  {
    if pieces != [] {
      CuttingIsInvisible(FeedFrom(s, pieces[0]).state, pieces[1..]);
      FeedConcat(s, pieces[0], Flatten(pieces[1..]));
    }
  }

  // ---- the writer -------------------------------------------------------------------------------

  predicate Special(c: char) {
    c == '"' || c == ',' || c == '\r' || c == '\n'
  }

  function Doubled(text: string): string {
    if text == "" then ""
    else (if text[0] == '"' then ['"', '"'] else [text[0]]) + Doubled(text[1..])
  }

  function Quote(text: string): string {
    if exists i :: 0 <= i < |text| && Special(text[i]) then ['"'] + Doubled(text) + ['"'] else text
  }

  function Join(cells: Row): string {
    if cells == [] then ""
    else if |cells| == 1 then Quote(cells[0])
    else Quote(cells[0]) + [','] + Join(cells[1..])
  }

  function Line(row: Row): string {
    Join(row) + "\r\n"
  }

  function Write(rows: seq<Row>): string {
    if rows == [] then "" else Line(rows[0]) + Write(rows[1..])
  }

  /** What a reader finds in a whole text. */
  function Parse(text: string): seq<Row> {
    var fed := FeedFrom(START, text);
    fed.rows + EndOf(fed.state).rows
  }

  // ---- the round trip ---------------------------------------------------------------------------

  lemma FeedOne(s: State, c: char)
    ensures FeedFrom(s, [c]) == Char(s, c)
  {
    assert [c][1..] == "";
    assert Char(s, c).rows + [] == Char(s, c).rows;
  }

  lemma {:induction false} FeedPlain(s: State, text: string)
    requires !s.inQuotes && forall i :: 0 <= i < |text| ==> !Special(text[i])
    ensures FeedFrom(s, text) == Read(s.(field := s.field + text), [])
    decreases |text|
  {
    if text == "" {
      assert s.field + text == s.field;
    } else {
      var next := s.(field := s.field + [text[0]]);
      assert Char(s, text[0]) == Read(next, []);
      assert forall i :: 0 <= i < |text[1..]| ==> text[1..][i] == text[i + 1];
      FeedPlain(next, text[1..]);
      assert next.field + text[1..] == s.field + text;
    }
  }

  lemma FeedQuotePair(s: State)
    requires s.inQuotes && !s.afterQuote
    ensures FeedFrom(s, ['"', '"']) == Read(s.(field := s.field + ['"']), [])
  {
    assert ['"', '"'] == ['"'] + ['"'];
    FeedConcat(s, ['"'], ['"']);
    FeedOne(s, '"');
    FeedOne(s.(afterQuote := true), '"');
  }

  lemma {:induction false} FeedDoubled(s: State, text: string)
    requires s.inQuotes && !s.afterQuote
    ensures FeedFrom(s, Doubled(text)) == Read(s.(field := s.field + text), [])
    decreases |text|
  {
    if text == "" {
      assert s.field + text == s.field;
    } else {
      var next := s.(field := s.field + [text[0]]);
      var head := if text[0] == '"' then ['"', '"'] else [text[0]];
      FeedConcat(s, head, Doubled(text[1..]));
      if text[0] == '"' {
        FeedQuotePair(s);
      } else {
        FeedOne(s, text[0]);
      }
      FeedDoubled(next, text[1..]);
      assert next.field + text[1..] == s.field + text;
    }
  }

  /** A written cell read from the start of a field: the reader holds its text, whichever way it was written. */
  lemma FeedCell(row: Row, cell: string)
    ensures
      var fed := FeedFrom(START.(row := row), Quote(cell));
      fed.rows == [] &&
      (fed.state == State(cell, row, false, false, false) || fed.state == State(cell, row, true, true, true))
  {
    var s := START.(row := row);
    if exists i :: 0 <= i < |cell| && Special(cell[i]) {
      var quoting := s.(inQuotes := true, quoted := true);
      FeedConcat(s, ['"'] + Doubled(cell), ['"']);
      FeedConcat(s, ['"'], Doubled(cell));
      FeedOne(s, '"');
      FeedDoubled(quoting, cell);
      FeedOne(quoting.(field := [] + cell), '"');
      assert [] + cell == cell;
    } else {
      FeedPlain(s, cell);
      assert [] + cell == cell;
    }
  }

  /** The cells of a row but its last line end: the reader holds the last one, the others in the row. */
  lemma {:induction false} FeedCells(row: Row, cells: Row)
    requires cells != []
    ensures
      var fed := FeedFrom(START.(row := row), Join(cells));
      var held := row + cells[..|cells| - 1];
      var last := cells[|cells| - 1];
      fed.rows == [] &&
      (fed.state == State(last, held, false, false, false) || fed.state == State(last, held, true, true, true))
    decreases |cells|
  {
    FeedCell(row, cells[0]);
    if |cells| == 1 {
      assert row + cells[..0] == row;
    } else {
      var s := START.(row := row);
      var first := FeedFrom(s, Quote(cells[0])).state;
      FeedConcat(s, Quote(cells[0]) + [','], Join(cells[1..]));
      FeedConcat(s, Quote(cells[0]), [',']);
      FeedOne(first, ',');
      FeedCells(row + [cells[0]], cells[1..]);
      assert row + [cells[0]] + cells[1..][..|cells| - 2] == row + cells[..|cells| - 1];
    }
  }

  /** A row as it is read back: an empty one as a row of one empty cell. */
  function ReadBack(row: Row): Row {
    if row == [] then [""] else row
  }

  lemma FeedLineEnd(s: State)
    requires s.inQuotes == s.afterQuote
    ensures FeedFrom(s, "\r\n") == Read(START, [s.row + [s.field]])
  {
    assert "\r\n" == ['\r'] + ['\n'];
    FeedConcat(s, ['\r'], ['\n']);
    FeedOne(s, '\r');
    FeedOne(s.(inQuotes := false, afterQuote := false), '\n');
  }

  lemma FeedRow(row: Row)
    ensures FeedFrom(START, Join(row)).rows == [] && FeedFrom(START, Join(row)).state.inQuotes == FeedFrom(START, Join(row)).state.afterQuote
    ensures var end := FeedFrom(START, Join(row)).state; end.row + [end.field] == ReadBack(row)
  {
    if row != [] {
      hide FeedFrom, Join;
      FeedCells([], row);
      assert [] + row[..|row| - 1] + [row[|row| - 1]] == row;
    } else {
      assert [] + [""] == [""];
    }
  }

  lemma FeedLine(row: Row)
    ensures FeedFrom(START, Line(row)) == Read(START, [ReadBack(row)])
  {
    hide FeedFrom, Join;
    FeedConcat(START, Join(row), "\r\n");
    FeedRow(row);
    FeedLineEnd(FeedFrom(START, Join(row)).state);
  }

  function EachReadBack(rows: seq<Row>): seq<Row> {
    seq(|rows|, i requires 0 <= i < |rows| => ReadBack(rows[i]))
  }

  /** What the writer writes is read back row by row, the reader left where it began. */
  lemma {:induction false} FeedWritten(rows: seq<Row>)
    ensures FeedFrom(START, Write(rows)) == Read(START, EachReadBack(rows))
    decreases |rows|
  {
    if rows != [] {
      FeedConcat(START, Line(rows[0]), Write(rows[1..]));
      FeedLine(rows[0]);
      FeedWritten(rows[1..]);
      assert [ReadBack(rows[0])] + EachReadBack(rows[1..]) == EachReadBack(rows);
    }
  }

  /**
   * The round trip: rows written and read back, in whatever pieces the text is fed, are the rows exactly when none of
   * them is empty; the reader answers none at the end of the text.
   */
  lemma RoundTrip(rows: seq<Row>, pieces: seq<string>)
    requires Flatten(pieces) == Write(rows)
    ensures EndOf(FeedPieces(START, pieces).state).rows == []
    ensures FeedPieces(START, pieces).rows == rows <==> [] !in rows
    ensures Parse(Write(rows)) == FeedPieces(START, pieces).rows
  {
    CuttingIsInvisible(START, pieces);
    FeedWritten(rows);
    var back := EachReadBack(rows);
    assert Parse(Write(rows)) == back + [];
    if [] in rows {
      var i :| 0 <= i < |rows| && rows[i] == [];
      assert back[i] != rows[i];
    } else {
      assert forall i :: 0 <= i < |rows| ==> back[i] == rows[i];
    }
  }

  // ---- a text with no line end, and what is written -----------------------------------------------

  /**
   * A text that stops before its last line end: the row it stops in is read like the others, unless it is empty or one
   * empty cell, of which nothing was written.
   */
  lemma UnfinishedIsRead(rows: seq<Row>, last: Row)
    ensures Parse(Write(rows) + Join(last)) == EachReadBack(rows) + if last == [] || last == [""] then [] else [last]
  {
    hide FeedFrom, Join, Write;
    FeedWritten(rows);
    FeedConcat(START, Write(rows), Join(last));
    var fed := FeedFrom(START, Join(last));
    if last == [] {
      assert fed == Read(START, []) by { UnfinishedNothing(last); }
    } else {
      FeedCells([], last);
      assert [] + last[..|last| - 1] + [last[|last| - 1]] == last;
      if last == [""] {
        assert fed == Read(START, []) by { UnfinishedNothing(last); }
      }
    }
    assert EachReadBack(rows) + [] == EachReadBack(rows);
  }

  lemma UnfinishedNothing(last: Row)
    requires last == [] || last == [""]
    ensures FeedFrom(START, Join(last)) == Read(START, [])
  {
    assert Quote("") == "";
  }

  /** A cell is written as it is exactly where it holds no quote, separator or line end. */
  lemma QuotedWhereNeeded(cell: string)
    ensures Quote(cell) == cell <==> forall i :: 0 <= i < |cell| ==> cell[i] !in {'"', ',', '\r', '\n'}
  {
    if exists i :: 0 <= i < |cell| && Special(cell[i]) {
      DoubledIsLonger(cell);
    }
  }

  lemma {:induction false} DoubledIsLonger(text: string)
    ensures |Doubled(text)| >= |text|
  {
    if text != "" {
      DoubledIsLonger(text[1..]);
    }
  }

  predicate HasLineEnd(text: string) {
    exists i :: 0 <= i < |text| && text[i] in {'\r', '\n'}
  }

  /** A line of cells that hold no line end is ended by CRLF and holds no other. */
  lemma LineEndsOnce(row: Row)
    requires forall i :: 0 <= i < |row| ==> !HasLineEnd(row[i])
    ensures Line(row)[|Line(row)| - 2..] == "\r\n" && !HasLineEnd(Line(row)[..|Line(row)| - 2])
  {
    JoinHasNone(row);
    assert Line(row)[..|Line(row)| - 2] == Join(row);
  }

  lemma {:induction false} JoinHasNone(cells: Row)
    requires forall i :: 0 <= i < |cells| ==> !HasLineEnd(cells[i])
    ensures !HasLineEnd(Join(cells))
  {
    if cells != [] {
      QuoteHasNone(cells[0]);
      if |cells| > 1 {
        JoinHasNone(cells[1..]);
        HasEither(Quote(cells[0]) + [','], Join(cells[1..]));
        HasEither(Quote(cells[0]), [',']);
      }
    }
  }

  lemma HasEither(a: string, b: string)
    requires !HasLineEnd(a) && !HasLineEnd(b)
    ensures !HasLineEnd(a + b)
  {
  }

  lemma QuoteHasNone(cell: string)
    requires !HasLineEnd(cell)
    ensures !HasLineEnd(Quote(cell))
  {
    DoubledHasNone(cell);
    HasEither(['"'] + Doubled(cell), ['"']);
    HasEither(['"'], Doubled(cell));
  }

  lemma {:induction false} DoubledHasNone(text: string)
    requires !HasLineEnd(text)
    ensures !HasLineEnd(Doubled(text))
  {
    if text != "" {
      assert text[0] in text;
      forall i | 0 <= i < |text[1..]| ensures text[1..][i] !in {'\r', '\n'} { assert text[i + 1] !in {'\r', '\n'}; }
      DoubledHasNone(text[1..]);
      HasEither(if text[0] == '"' then ['"', '"'] else [text[0]], Doubled(text[1..]));
    }
  }
}
