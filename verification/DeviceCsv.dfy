/** The CSV reader of the device import (admin-web/src/utils/deviceCsv.ts). */
module DeviceCsv {
  import opened Basics

  /** A UTF-16 code unit, the element of a JavaScript string. */
  type Unit = u: int | 0 <= u < 0x1_0000
  type Text = seq<Unit>

  const LF: Unit := 10
  const CR: Unit := 13
  const QUOTE: Unit := 34
  const COMMA: Unit := 44
  const BOM: Unit := 0xfeff

  datatype Row = Row(values: seq<Text>, line: nat)

  datatype Mode = Start | Plain | Quoted | Closed

  datatype CsvError = UnclosedQuote(line: nat) | AfterClosingQuote(line: nat) | MisplacedQuote(line: nat)

  /** The white space that String.prototype.trim removes. */
  predicate IsSpace(u: Unit) {
    || 9 <= u <= 13 || u == 32 || u == 0xa0 || u == 0x1680 || 0x2000 <= u <= 0x200a
    || u == 0x2028 || u == 0x2029 || u == 0x202f || u == 0x205f || u == 0x3000 || u == BOM
  }

  function TrimStart(t: Text): (r: Text)
    ensures |r| <= |t|
  {
    if t != [] && IsSpace(t[0]) then TrimStart(t[1..]) else t
  }

  function TrimEnd(t: Text): (r: Text)
    ensures |r| <= |t|
  {
    if t != [] && IsSpace(t[|t| - 1]) then TrimEnd(t[..|t| - 1]) else t
  }

  function Trim(t: Text): Text { TrimEnd(TrimStart(t)) }

  predicate Blank(values: seq<Text>) { values == [] || (Trim(values[0]) == [] && Blank(values[1..])) }

  function StripBom(source: Text): Text {
    if source != [] && source[0] == BOM then source[1..] else source
  }

  // ---------------------------------------------------------------- the lexer

  datatype Lexer = Lexer(rows: seq<Row>, values: seq<Text>, cell: Text, mode: Mode, line: nat, startLine: nat)

  const FIRST: Lexer := Lexer([], [], [], Start, 1, 1)

  function EndField(lx: Lexer): Lexer { lx.(values := lx.values + [lx.cell], cell := [], mode := Start) }

  function EndRow(lx: Lexer): Lexer {
    var f := EndField(lx);
    f.(rows := if Blank(f.values) then f.rows else f.rows + [Row(f.values, f.startLine)], values := [])
  }

  function NextLine(lx: Lexer): Lexer { lx.(line := lx.line + 1, startLine := lx.line + 1) }

  /** The line on which the text after a quoted character goes on. */
  function LineAfter(u: Unit, line: nat): nat { if u == LF then line + 1 else line }

  /** What remains of the lexing of `t` from a given state. */
  function Lex(t: Text, lx: Lexer): Result<seq<Row>, CsvError>
    decreases |t|
  {
    if t == [] then
      if lx.mode.Quoted? then Err(UnclosedQuote(lx.line)) else Ok(EndRow(lx).rows)
    else if lx.mode.Quoted? then
      if t[0] == QUOTE then
        if |t| > 1 && t[1] == QUOTE then Lex(t[2..], lx.(cell := lx.cell + [QUOTE]))
        else Lex(t[1..], lx.(mode := Closed))
      else Lex(t[1..], lx.(cell := lx.cell + [t[0]], line := LineAfter(t[0], lx.line)))
    else if t[0] == COMMA then Lex(t[1..], EndField(lx))
    else if t[0] == CR || t[0] == LF then
      Lex(if t[0] == CR && |t| > 1 && t[1] == LF then t[2..] else t[1..], NextLine(EndRow(lx)))
    else if lx.mode.Closed? then Err(AfterClosingQuote(lx.line))
    else if t[0] == QUOTE then
      if lx.mode.Start? then Lex(t[1..], lx.(mode := Quoted)) else Err(MisplacedQuote(lx.line))
    else Lex(t[1..], lx.(mode := Plain, cell := lx.cell + [t[0]]))
  }

  /** The character loop. */
  method ReadRows(source: Text) returns (r: Result<seq<Row>, CsvError>)
    ensures r == Lex(StripBom(source), FIRST)
  {
    var text := StripBom(source);
    var rows: seq<Row>, values: seq<Text>, cell: Text, mode := [], [], [], Start;
    var line, startLine, i := 1, 1, 0;
    assert text[0..] == text;
    while i < |text|
      invariant 0 <= i <= |text|
      invariant Lex(text, FIRST) == Lex(text[i..], Lexer(rows, values, cell, mode, line, startLine))
    {
      var c := text[i];
      ghost var rest := text[i..];
      assert rest[1..] == text[i + 1..];
      assert |rest| > 1 ==> rest[1] == text[i + 1] && rest[2..] == text[i + 2..];
      if mode == Quoted {
        if c == QUOTE {
          if i + 1 < |text| && text[i + 1] == QUOTE {
            cell := cell + [QUOTE];
            i := i + 1;
          } else {
            mode := Closed;
          }
        } else {
          cell := cell + [c];
          if c == LF { line := line + 1; }
        }
      } else if c == COMMA {
        values, cell, mode := values + [cell], [], Start;
      } else if c == CR || c == LF {
        if c == CR && i + 1 < |text| && text[i + 1] == LF { i := i + 1; }
        values, cell, mode := values + [cell], [], Start;
        if !Blank(values) { rows := rows + [Row(values, startLine)]; }
        values := [];
        line := line + 1;
        startLine := line;
      } else {
        if mode == Closed { return Err(AfterClosingQuote(line)); }
        if c == QUOTE {
          if mode != Start { return Err(MisplacedQuote(line)); }
          mode := Quoted;
        } else {
          mode, cell := Plain, cell + [c];
        }
      }
      i := i + 1;
    }
    assert text[i..] == [];
    if mode == Quoted { return Err(UnclosedQuote(line)); }
    values := values + [cell];
    if !Blank(values) { rows := rows + [Row(values, startLine)]; }
    r := Ok(rows);
  }

  // ------------------------------------------- documents and how they are written

  datatype Cell = Cell(text: Text, quoted: bool)

  datatype Break = BreakLf | BreakCrLf | BreakCr

  datatype Record = Record(cells: seq<Cell>, end: Break)

  /** Records that end with a line break, then one that ends with the text. */
  datatype Document = Document(records: seq<Record>, last: seq<Cell>)

  predicate Special(u: Unit) { u == COMMA || u == QUOTE || u == CR || u == LF }

  /** Section 2 of RFC 4180: a cell may be quoted, and must be if it holds a special character. */
  predicate GoodCell(c: Cell) { c.quoted || forall k :: 0 <= k < |c.text| ==> !Special(c.text[k]) }

  predicate GoodCells(cells: seq<Cell>) { cells != [] && forall k :: 0 <= k < |cells| ==> GoodCell(cells[k]) }

  function Doubled(t: Text): Text {
    if t == [] then [] else (if t[0] == QUOTE then [QUOTE, QUOTE] else [t[0]]) + Doubled(t[1..])
  }

  function WriteCell(c: Cell): Text { if c.quoted then [QUOTE] + Doubled(c.text) + [QUOTE] else c.text }

  function WriteCells(cells: seq<Cell>): Text {
    if cells == [] then [] else if |cells| == 1 then WriteCell(cells[0]) else WriteCell(cells[0]) + [COMMA] + WriteCells(cells[1..])
  }

  function WriteBreak(b: Break): Text {
    match b case BreakLf => [LF] case BreakCrLf => [CR, LF] case BreakCr => [CR]
  }

  /** A lone CR may end a record unless the next character is LF, which would make it a CRLF. */
  ghost predicate Good(d: Document)
    decreases |d.records|
  {
    && GoodCells(d.last)
    && (d.records != [] ==>
         && GoodCells(d.records[0].cells)
         && Good(Document(d.records[1..], d.last))
         && (d.records[0].end.BreakCr? ==> !StartsWithLf(Write(Document(d.records[1..], d.last)))))
  }

  predicate StartsWithLf(t: Text) { t != [] && t[0] == LF }

  function Write(d: Document): Text
    decreases |d.records|
  {
    if d.records == [] then WriteCells(d.last)
    else WriteCells(d.records[0].cells) + WriteBreak(d.records[0].end) + Write(Document(d.records[1..], d.last))
  }

  /** The rows that a document holds: blank ones dropped, each with the line it starts on. */
  function LineFeeds(t: Text): nat {
    if t == [] then 0 else (if t[0] == LF then 1 else 0) + LineFeeds(t[1..])
  }

  function QuotedLineFeeds(cells: seq<Cell>): nat {
    if cells == [] then 0 else LineFeeds(cells[0].text) + QuotedLineFeeds(cells[1..])
  }

  function Values(cells: seq<Cell>): (values: seq<Text>)
    ensures |values| == |cells| && forall k :: 0 <= k < |cells| ==> values[k] == cells[k].text
  {
    if cells == [] then [] else [cells[0].text] + Values(cells[1..])
  }

  function RowAt(cells: seq<Cell>, line: nat): seq<Row> {
    if Blank(Values(cells)) then [] else [Row(Values(cells), line)]
  }

  function Rows(d: Document, line: nat): seq<Row>
    decreases |d.records|
  {
    if d.records == [] then RowAt(d.last, line)
    else
      RowAt(d.records[0].cells, line)
      + Rows(Document(d.records[1..], d.last), line + QuotedLineFeeds(d.records[0].cells) + 1)
  }

  // ------------------------------------------------- reading back what was written

  predicate EndsCell(t: Text) { t == [] || t[0] == COMMA || t[0] == CR || t[0] == LF }

  lemma Regroup(a: Text, b: Text, c: Text)
    ensures a + b + c == a + (b + c)
  {}

  /** A lexer that has added a text to its cell; only its mode may have changed besides. */
  ghost predicate Collected(lx: Lexer, t: Text, lx': Lexer) {
    && lx'.rows == lx.rows && lx'.values == lx.values && lx'.startLine == lx.startLine
    && lx'.cell == lx.cell + t && lx'.line == lx.line + LineFeeds(t)
  }

  lemma {:induction false} ReadPlain(t: Text, rest: Text, lx: Lexer) returns (lx': Lexer)
    requires lx.mode.Start? || lx.mode.Plain?
    requires forall k :: 0 <= k < |t| ==> !Special(t[k])
    ensures lx'.mode == (if t == [] then lx.mode else Plain) && Collected(lx, t, lx') && Lex(t + rest, lx) == Lex(rest, lx')
    decreases |t|
  {
    if t == [] {
      lx' := lx;
      assert t + rest == rest && lx.cell + t == lx.cell;
    } else {
      var lx1 := lx.(mode := Plain, cell := lx.cell + [t[0]]);
      assert (t + rest)[0] == t[0] && (t + rest)[1..] == t[1..] + rest;
      lx' := ReadPlain(t[1..], rest, lx1);
      assert lx1.cell + t[1..] == lx.cell + t;
    }
  }

  /** One quoted character, doubled if it is a quote. */
  lemma LexQuoted(u: Unit, rest: Text, lx: Lexer, lx': Lexer)
    requires lx.mode.Quoted? && lx' == lx.(cell := lx.cell + [u], line := LineAfter(u, lx.line))
    ensures Lex((if u == QUOTE then [QUOTE, QUOTE] else [u]) + rest, lx) == Lex(rest, lx')
  {
    if u == QUOTE {
      assert ([QUOTE, QUOTE] + rest)[2..] == rest;
    } else {
      assert ([u] + rest)[1..] == rest;
    }
  }

  lemma LexOpen(rest: Text, lx: Lexer)
    requires lx.mode.Start?
    ensures Lex([QUOTE] + rest, lx) == Lex(rest, lx.(mode := Quoted))
  {
    assert ([QUOTE] + rest)[1..] == rest;
  }

  lemma LexClose(rest: Text, lx: Lexer)
    requires lx.mode.Quoted? && (rest == [] || rest[0] != QUOTE)
    ensures Lex([QUOTE] + rest, lx) == Lex(rest, lx.(mode := Closed))
  {
    assert ([QUOTE] + rest)[1..] == rest;
  }

  lemma {:induction false} ReadDoubled(t: Text, rest: Text, lx: Lexer) returns (lx': Lexer)
    requires lx.mode.Quoted?
    ensures lx'.mode.Quoted? && Collected(lx, t, lx') && Lex(Doubled(t) + rest, lx) == Lex(rest, lx')
    decreases |t|
  {
    if t == [] {
      lx' := lx;
      assert Doubled(t) + rest == rest && lx.cell + t == lx.cell;
    } else {
      var first := if t[0] == QUOTE then [QUOTE, QUOTE] else [t[0]];
      var lx1 := lx.(cell := lx.cell + [t[0]], line := LineAfter(t[0], lx.line));
      assert Doubled(t) == first + Doubled(t[1..]);
      Regroup(first, Doubled(t[1..]), rest);
      LexQuoted(t[0], Doubled(t[1..]) + rest, lx, lx1);
      lx' := ReadDoubled(t[1..], rest, lx1);
      assert lx1.cell + t[1..] == lx.cell + t;
    }
  }

  lemma QuotedText(t: Text, rest: Text)
    ensures [QUOTE] + Doubled(t) + [QUOTE] + rest == [QUOTE] + (Doubled(t) + ([QUOTE] + rest))
  {}

  lemma ReadQuoted(t: Text, rest: Text, lx: Lexer) returns (lx': Lexer)
    requires (rest == [] || rest[0] != QUOTE) && lx.mode.Start?
    ensures lx'.mode.Closed? && Collected(lx, t, lx') && Lex([QUOTE] + Doubled(t) + [QUOTE] + rest, lx) == Lex(rest, lx')
  {
    QuotedText(t, rest);
    LexOpen(Doubled(t) + ([QUOTE] + rest), lx);
    var read := ReadDoubled(t, [QUOTE] + rest, lx.(mode := Quoted));
    LexClose(rest, read);
    lx' := read.(mode := Closed);
  }

  /** A lexer that has just finished reading a cell. */
  ghost predicate ReadCellTo(lx: Lexer, c: Cell, lx': Lexer) {
    && !lx'.mode.Quoted?
    && lx'.rows == lx.rows && lx'.values == lx.values && lx'.startLine == lx.startLine
    && lx'.cell == c.text && lx'.line == lx.line + LineFeeds(c.text)
  }

  lemma ReadCell(c: Cell, rest: Text, lx: Lexer) returns (lx': Lexer)
    requires GoodCell(c) && EndsCell(rest) && lx.mode.Start? && lx.cell == []
    ensures ReadCellTo(lx, c, lx') && Lex(WriteCell(c) + rest, lx) == Lex(rest, lx')
  {
    assert lx.cell + c.text == c.text;
    if c.quoted {
      lx' := ReadQuoted(c.text, rest, lx);
    } else {
      lx' := ReadPlain(c.text, rest, lx);
    }
  }

  /** A lexer that has read the cells of a record and is about to end the row. */
  ghost predicate ReadCellsTo(lx: Lexer, cells: seq<Cell>, lx': Lexer) {
    && !lx'.mode.Quoted?
    && lx'.rows == lx.rows && lx'.startLine == lx.startLine
    && lx'.values + [lx'.cell] == lx.values + Values(cells)
    && lx'.line == lx.line + QuotedLineFeeds(cells)
  }

  lemma LexComma(rest: Text, lx: Lexer)
    requires !lx.mode.Quoted?
    ensures Lex([COMMA] + rest, lx) == Lex(rest, EndField(lx))
  {
    assert ([COMMA] + rest)[1..] == rest;
  }

  lemma LexBreak(b: Break, rest: Text, lx: Lexer)
    requires !lx.mode.Quoted? && (b.BreakCr? ==> !StartsWithLf(rest))
    ensures Lex(WriteBreak(b) + rest, lx) == Lex(rest, NextLine(EndRow(lx)))
  {
    var t := WriteBreak(b) + rest;
    if b.BreakCrLf? { assert t[2..] == rest; } else { assert t[1..] == rest; }
  }

  lemma ConsCells(c: Cell, cells: seq<Cell>)
    ensures Values([c] + cells) == [c.text] + Values(cells)
    ensures QuotedLineFeeds([c] + cells) == LineFeeds(c.text) + QuotedLineFeeds(cells)
  {
    assert ([c] + cells)[1..] == cells;
  }

  lemma RegroupValues(a: seq<Text>, b: seq<Text>, c: seq<Text>)
    ensures a + b + c == a + (b + c)
  {}

  lemma JoinCells(lx: Lexer, c: Cell, lx1: Lexer, cells: seq<Cell>, lx2: Lexer)
    requires ReadCellTo(lx, c, lx1) && ReadCellsTo(EndField(lx1), cells, lx2)
    ensures ReadCellsTo(lx, [c] + cells, lx2)
  {
    ConsCells(c, cells);
    RegroupValues(lx.values, [c.text], Values(cells));
    assert EndField(lx1).values == lx.values + [c.text];
  }

  lemma {:induction false} ReadCells(cells: seq<Cell>, rest: Text, lx: Lexer) returns (lx': Lexer)
    requires GoodCells(cells) && EndsCell(rest) && (rest != [] ==> rest[0] != COMMA)
    requires lx.mode.Start? && lx.cell == []
    ensures ReadCellsTo(lx, cells, lx') && Lex(WriteCells(cells) + rest, lx) == Lex(rest, lx')
    decreases |cells|
  {
    var c, tail := cells[0], cells[1..];
    assert cells == [c] + tail;
    if tail == [] {
      lx' := ReadCell(c, rest, lx);
      assert Values(cells) == [c.text];
      assert QuotedLineFeeds(tail) == 0;
    } else {
      var more := WriteCells(tail) + rest;
      Regroup(WriteCell(c), [COMMA], WriteCells(tail));
      Regroup(WriteCell(c), [COMMA] + WriteCells(tail), rest);
      Regroup([COMMA], WriteCells(tail), rest);
      var lx1 := ReadCell(c, [COMMA] + more, lx);
      LexComma(more, lx1);
      lx' := ReadCells(tail, rest, EndField(lx1));
      JoinCells(lx, c, lx1, tail, lx');
    }
  }

  predicate AtRowStart(lx: Lexer) { lx.mode.Start? && lx.cell == [] && lx.values == [] && lx.startLine == lx.line }

  lemma ReadRecordEnd(cells: seq<Cell>, lx: Lexer, lx': Lexer)
    requires AtRowStart(lx) && ReadCellsTo(lx, cells, lx')
    ensures EndRow(lx').rows == lx.rows + RowAt(cells, lx.line)
    ensures AtRowStart(NextLine(EndRow(lx')))
    ensures NextLine(EndRow(lx')).line == lx.line + QuotedLineFeeds(cells) + 1
  {
    assert lx.values + Values(cells) == Values(cells);
  }

  /** One record and its line break. */
  lemma ReadRecord(r: Record, rest: Text, lx: Lexer) returns (lx': Lexer)
    requires GoodCells(r.cells) && AtRowStart(lx) && (r.end.BreakCr? ==> !StartsWithLf(rest))
    ensures Lex(WriteCells(r.cells) + WriteBreak(r.end) + rest, lx) == Lex(rest, lx')
    ensures AtRowStart(lx') && lx'.rows == lx.rows + RowAt(r.cells, lx.line)
    ensures lx'.line == lx.line + QuotedLineFeeds(r.cells) + 1
  {
    var lx1 := ReadCells(r.cells, WriteBreak(r.end) + rest, lx);
    Regroup(WriteCells(r.cells), WriteBreak(r.end), rest);
    LexBreak(r.end, rest, lx1);
    ReadRecordEnd(r.cells, lx, lx1);
    lx' := NextLine(EndRow(lx1));
  }

  lemma ReadLast(cells: seq<Cell>, lx: Lexer)
    requires GoodCells(cells) && AtRowStart(lx)
    ensures Lex(WriteCells(cells), lx) == Ok(lx.rows + RowAt(cells, lx.line))
  {
    assert WriteCells(cells) + [] == WriteCells(cells);
    var lx' := ReadCells(cells, [], lx);
    ReadRecordEnd(cells, lx, lx');
  }

  lemma DocumentStep(d: Document, line: nat, next: nat)
    requires d.records != [] && next == line + QuotedLineFeeds(d.records[0].cells) + 1
    ensures var r, more := d.records[0], Document(d.records[1..], d.last);
      && Write(d) == WriteCells(r.cells) + WriteBreak(r.end) + Write(more)
      && Rows(d, line) == RowAt(r.cells, line) + Rows(more, next)
  {}

  /** Reading one record first, then the rest as a document of its own. */
  lemma RoundTripStep(d: Document, rest: Text, rows: seq<Row>, lx: Lexer, lx': Lexer)
    requires d.records != [] && AtRowStart(lx)
    requires var r, more := d.records[0], Document(d.records[1..], d.last);
      && rest == Write(more) && rows == Rows(more, lx'.line)
      && Lex(WriteCells(r.cells) + WriteBreak(r.end) + rest, lx) == Ok(lx'.rows + rows)
      && lx'.rows == lx.rows + RowAt(r.cells, lx.line) && lx'.line == lx.line + QuotedLineFeeds(r.cells) + 1
    ensures Lex(Write(d), lx) == Ok(lx.rows + Rows(d, lx.line))
  {
    DocumentStep(d, lx.line, lx'.line);
    RegroupRows(lx.rows, RowAt(d.records[0].cells, lx.line), rows);
  }

  /** Reading a written document gives back its rows, each with its line. */
  lemma {:induction false} RoundTrip(d: Document, lx: Lexer)
    requires Good(d) && AtRowStart(lx)
    ensures Lex(Write(d), lx) == Ok(lx.rows + Rows(d, lx.line))
    decreases |d.records|
  {
    if d.records == [] {
      ReadLast(d.last, lx);
    } else {
      var more := Document(d.records[1..], d.last);
      var lx' := ReadRecord(d.records[0], Write(more), lx);
      RoundTrip(more, lx');
      RoundTripStep(d, Write(more), Rows(more, lx'.line), lx, lx');
    }
  }

  lemma RegroupRows(a: seq<Row>, b: seq<Row>, c: seq<Row>)
    ensures a + b + c == a + (b + c)
  {}

  // ------------------------------------------------- whatever is read was written so

  lemma {:induction false} UnreadPlain(t: Text, lx: Lexer) returns (cell: Text, rest: Text)
    requires lx.mode.Plain? && Lex(t, lx).Ok?
    ensures t == cell + rest && EndsCell(rest) && forall k :: 0 <= k < |cell| ==> !Special(cell[k])
    decreases |t|
  {
    if EndsCell(t) {
      cell, rest := [], t;
    } else {
      cell, rest := UnreadPlain(t[1..], lx.(cell := lx.cell + [t[0]]));
      cell := [t[0]] + cell;
    }
  }

  lemma {:induction false} UnreadQuoted(t: Text, lx: Lexer) returns (cell: Text, rest: Text)
    requires lx.mode.Quoted? && Lex(t, lx).Ok?
    ensures t == Doubled(cell) + [QUOTE] + rest && EndsCell(rest)
    decreases |t|
  {
    if t[0] == QUOTE {
      if |t| > 1 && t[1] == QUOTE {
        cell, rest := UnreadQuoted(t[2..], lx.(cell := lx.cell + [QUOTE]));
        assert t == [QUOTE, QUOTE] + t[2..];
        cell := [QUOTE] + cell;
      } else {
        cell, rest := [], t[1..];
      }
    } else {
      cell, rest := UnreadQuoted(t[1..], lx.(cell := lx.cell + [t[0]], line := LineAfter(t[0], lx.line)));
      assert t == [t[0]] + t[1..];
      cell := [t[0]] + cell;
    }
  }

  lemma UnreadCell(t: Text, lx: Lexer) returns (c: Cell, rest: Text)
    requires lx.mode.Start? && lx.cell == [] && Lex(t, lx).Ok?
    ensures GoodCell(c) && t == WriteCell(c) + rest && EndsCell(rest)
  {
    if EndsCell(t) {
      c, rest := Cell([], false), t;
    } else if t[0] == QUOTE {
      var text;
      text, rest := UnreadQuoted(t[1..], lx.(mode := Quoted));
      c := Cell(text, true);
      Regroup([QUOTE], Doubled(text), [QUOTE]);
      Regroup([QUOTE], Doubled(text) + [QUOTE], rest);
      assert t == [QUOTE] + t[1..];
    } else {
      c, rest := UnreadPlainCell(t, lx);
    }
  }

  lemma UnreadPlainCell(t: Text, lx: Lexer) returns (c: Cell, rest: Text)
    requires lx.mode.Start? && lx.cell == [] && Lex(t, lx).Ok? && !EndsCell(t) && t[0] != QUOTE
    ensures GoodCell(c) && t == WriteCell(c) + rest && EndsCell(rest)
  {
    var text;
    text, rest := UnreadPlain(t[1..], lx.(mode := Plain, cell := lx.cell + [t[0]]));
    c := Cell([t[0]] + text, false);
    Regroup([t[0]], text, rest);
    assert t == [t[0]] + t[1..];
  }

  lemma {:induction false} UnreadCells(t: Text, lx: Lexer) returns (cells: seq<Cell>, rest: Text)
    requires lx.mode.Start? && lx.cell == [] && Lex(t, lx).Ok?
    ensures GoodCells(cells) && t == WriteCells(cells) + rest && EndsCell(rest) && (rest != [] ==> rest[0] != COMMA)
    decreases |t|
  {
    var c, more := UnreadCell(t, lx);
    if more != [] && more[0] == COMMA {
      var lx' := ReadCell(c, more, lx);
      assert more == [COMMA] + more[1..];
      LexComma(more[1..], lx');
      cells, rest := UnreadCells(more[1..], EndField(lx'));
      AddCell(c, cells, rest);
      cells := [c] + cells;
    } else {
      cells, rest := [c], more;
    }
  }

  lemma AddCell(c: Cell, cells: seq<Cell>, rest: Text)
    requires GoodCell(c) && GoodCells(cells)
    ensures GoodCells([c] + cells)
    ensures WriteCell(c) + ([COMMA] + (WriteCells(cells) + rest)) == WriteCells([c] + cells) + rest
  {
    assert ([c] + cells)[1..] == cells;
  }

  lemma UnreadBreak(t: Text) returns (end: Break, rest: Text)
    requires t != [] && (t[0] == CR || t[0] == LF)
    ensures t == WriteBreak(end) + rest && (end.BreakCr? ==> !StartsWithLf(rest))
  {
    end := if t[0] == LF then BreakLf else if |t| > 1 && t[1] == LF then BreakCrLf else BreakCr;
    rest := t[|WriteBreak(end)|..];
  }

  lemma AddRecord(r: Record, d: Document)
    requires GoodCells(r.cells) && Good(d) && (r.end.BreakCr? ==> !StartsWithLf(Write(d)))
    ensures var d' := Document([r] + d.records, d.last);
      Good(d') && Write(d') == WriteCells(r.cells) + WriteBreak(r.end) + Write(d)
  {
    var d' := Document([r] + d.records, d.last);
    assert d'.records[1..] == d.records;
    assert Document(d'.records[1..], d'.last) == d;
  }

  /** Every accepted text is some document, written. */
  lemma {:induction false} Unread(t: Text, lx: Lexer) returns (d: Document)
    requires AtRowStart(lx) && Lex(t, lx).Ok?
    ensures Good(d) && Write(d) == t
    decreases |t|
  {
    var cells, rest := UnreadCells(t, lx);
    if rest == [] {
      d := Document([], cells);
    } else {
      var end, tail := UnreadBreak(rest);
      Regroup(WriteCells(cells), WriteBreak(end), tail);
      var lx' := ReadRecord(Record(cells, end), tail, lx);
      d := Unread(tail, lx');
      AddRecord(Record(cells, end), d);
      d := Document([Record(cells, end)] + d.records, d.last);
    }
  }

  lemma ReadFromTheTop(d: Document)
    requires Good(d)
    ensures Lex(Write(d), FIRST) == Ok(Rows(d, 1))
  {
    RoundTrip(d, FIRST);
    assert FIRST.rows + Rows(d, 1) == Rows(d, 1);
  }

  /**
   * The reader accepts exactly the texts that the quoting rules produce, whichever way a leading
   * byte-order mark is used, and gives the rows of the document that wrote them; everything else,
   * an unclosed or misplaced quote in particular, is refused.
   */
  lemma AcceptsExactly(source: Text)
    ensures Lex(StripBom(source), FIRST).Ok? <==> exists d :: Good(d) && Write(d) == StripBom(source)
    ensures forall d :: Good(d) && Write(d) == StripBom(source) ==> Lex(StripBom(source), FIRST) == Ok(Rows(d, 1))
  {
    if Lex(StripBom(source), FIRST).Ok? {
      var d := Unread(StripBom(source), FIRST);
    }
    forall d | Good(d) && Write(d) == StripBom(source) ensures Lex(StripBom(source), FIRST) == Ok(Rows(d, 1)) {
      ReadFromTheTop(d);
    }
  }

  // ------------------------------------------------------------ where refusals point

  /** As much of a text as a quoted cell takes in, and whether it ends there. */
  lemma {:induction false} TakeQuoted(t: Text) returns (cell: Text, closed: bool, rest: Text)
    ensures !closed ==> t == Doubled(cell)
    ensures closed ==> t == Doubled(cell) + [QUOTE] + rest && (rest == [] || rest[0] != QUOTE)
    decreases |t|
  {
    if t == [] {
      cell, closed, rest := [], false, [];
    } else if t[0] == QUOTE && (|t| == 1 || t[1] != QUOTE) {
      cell, closed, rest := [], true, t[1..];
      assert t == Doubled([]) + [QUOTE] + rest;
    } else {
      var n := if t[0] == QUOTE then 2 else 1;
      cell, closed, rest := TakeQuoted(t[n..]);
      DoubledFirst(t[0], cell);
      assert t == t[..n] + t[n..] && t[..n] == if t[0] == QUOTE then [QUOTE, QUOTE] else [t[0]];
      if closed {
        Regroup(t[..n], Doubled(cell), [QUOTE]);
        Regroup(t[..n], Doubled(cell) + [QUOTE], rest);
      }
      cell := [t[0]] + cell;
    }
  }

  lemma DoubledFirst(u: Unit, t: Text)
    ensures Doubled([u] + t) == (if u == QUOTE then [QUOTE, QUOTE] else [u]) + Doubled(t)
  {
    assert ([u] + t)[1..] == t;
  }

  /** As much of a text as an unquoted cell takes in. */
  lemma {:induction false} TakePlain(t: Text) returns (cell: Text, rest: Text)
    ensures t == cell + rest && (rest == [] || Special(rest[0]))
    ensures forall k :: 0 <= k < |cell| ==> !Special(cell[k])
    decreases |t|
  {
    if t == [] || Special(t[0]) {
      cell, rest := [], t;
    } else {
      cell, rest := TakePlain(t[1..]);
      cell := [t[0]] + cell;
    }
  }

  /** A refusal in the last of some cells: the text breaks off in a quoted cell, or goes on where it must not. */
  ghost predicate Stuck(t: Text, cells: seq<Cell>, rest: Text, line: nat, e: CsvError) {
    match e
    case UnclosedQuote(n) =>
      n == line + QuotedLineFeeds(cells) && cells != [] && cells[|cells| - 1].quoted && t + [QUOTE] == WriteCells(cells)
    case AfterClosingQuote(n) =>
      && n == line + QuotedLineFeeds(cells) && cells != [] && cells[|cells| - 1].quoted
      && t == WriteCells(cells) + rest && rest != [] && !Special(rest[0])
    case MisplacedQuote(n) =>
      && n == line + QuotedLineFeeds(cells) && cells != [] && !cells[|cells| - 1].quoted && cells[|cells| - 1].text != []
      && t == WriteCells(cells) + rest && rest != [] && rest[0] == QUOTE
  }

  lemma OneCell(c: Cell)
    ensures WriteCells([c]) == WriteCell(c) && QuotedLineFeeds([c]) == LineFeeds(c.text)
  {
    assert QuotedLineFeeds([c][1..]) == 0;
  }

  /** One cell: read up to its end, or stuck in it. */
  lemma TryCell(t: Text, lx: Lexer) returns (c: Cell, rest: Text, lx': Lexer, stuck: bool)
    requires lx.mode.Start? && lx.cell == []
    ensures GoodCell(c)
    ensures !stuck ==> t == WriteCell(c) + rest && EndsCell(rest) && ReadCellTo(lx, c, lx') && Lex(t, lx) == Lex(rest, lx')
    ensures stuck ==> Lex(t, lx).Err? && Stuck(t, [c], rest, lx.line, Lex(t, lx).error)
  {
    if t != [] && t[0] == QUOTE {
      c, rest, lx', stuck := TryQuoted(t, lx);
    } else {
      var text;
      text, rest := TakePlain(t);
      c := Cell(text, false);
      lx' := ReadPlain(text, rest, lx);
      assert lx.cell + text == text;
      OneCell(c);
      stuck := !EndsCell(rest);
      if stuck { assert text != [] && lx'.cell != []; }
    }
  }

  lemma TryQuoted(t: Text, lx: Lexer) returns (c: Cell, rest: Text, lx': Lexer, stuck: bool)
    requires lx.mode.Start? && lx.cell == [] && t != [] && t[0] == QUOTE
    ensures GoodCell(c)
    ensures !stuck ==> t == WriteCell(c) + rest && EndsCell(rest) && ReadCellTo(lx, c, lx') && Lex(t, lx) == Lex(rest, lx')
    ensures stuck ==> Lex(t, lx).Err? && Stuck(t, [c], rest, lx.line, Lex(t, lx).error)
  {
    var text, closed;
    text, closed, rest := TakeQuoted(t[1..]);
    c := Cell(text, true);
    OneCell(c);
    assert t == [QUOTE] + t[1..];
    assert lx.cell + text == text;
    if closed {
      Regroup([QUOTE], Doubled(text), [QUOTE]);
      Regroup([QUOTE], Doubled(text) + [QUOTE], rest);
      lx' := ReadQuoted(text, rest, lx);
      stuck := !EndsCell(rest);
    } else {
      LexOpen(t[1..], lx);
      lx' := ReadDoubled(text, [], lx.(mode := Quoted));
      assert Doubled(text) + [] == t[1..];
      stuck := true;
    }
  }

  lemma AddCellOpen(c: Cell, t: Text, cells: seq<Cell>)
    requires GoodCell(c) && GoodCells(cells) && t + [QUOTE] == WriteCells(cells)
    ensures WriteCell(c) + ([COMMA] + t) + [QUOTE] == WriteCells([c] + cells)
  {
    AddCell(c, cells, []);
    assert WriteCells(cells) + [] == WriteCells(cells);
    assert WriteCells([c] + cells) + [] == WriteCells([c] + cells);
    Regroup(WriteCell(c), [COMMA] + t, [QUOTE]);
    Regroup([COMMA], t, [QUOTE]);
  }

  lemma StuckLater(c: Cell, t: Text, cells: seq<Cell>, rest: Text, line: nat, line1: nat, e: CsvError)
    requires GoodCell(c) && GoodCells(cells) && Stuck(t, cells, rest, line1, e) && line1 == line + LineFeeds(c.text)
    ensures Stuck(WriteCell(c) + ([COMMA] + t), [c] + cells, rest, line, e)
  {
    ConsCells(c, cells);
    var all := [c] + cells;
    assert all[|all| - 1] == cells[|cells| - 1];
    if e.UnclosedQuote? { AddCellOpen(c, t, cells); } else { AddCell(c, cells, rest); }
  }

  /** The cells of a record: read up to its end, or stuck in one of them. */
  lemma {:induction false} TryCells(t: Text, lx: Lexer) returns (cells: seq<Cell>, rest: Text, lx': Lexer, stuck: bool)
    requires lx.mode.Start? && lx.cell == []
    ensures GoodCells(cells)
    ensures !stuck ==>
      && t == WriteCells(cells) + rest && EndsCell(rest) && (rest != [] ==> rest[0] != COMMA)
      && ReadCellsTo(lx, cells, lx') && Lex(t, lx) == Lex(rest, lx')
    ensures stuck ==> Lex(t, lx).Err? && Stuck(t, cells, rest, lx.line, Lex(t, lx).error)
    decreases |t|
  {
    var c, more, lx1, stuck1 := TryCell(t, lx);
    if !stuck1 && more != [] && more[0] == COMMA {
      assert more == [COMMA] + more[1..];
      LexComma(more[1..], lx1);
      var later;
      later, rest, lx', stuck := TryCells(more[1..], EndField(lx1));
      cells := [c] + later;
      if stuck {
        StuckLater(c, more[1..], later, rest, lx.line, lx1.line, Lex(t, lx).error);
      } else {
        AddCell(c, later, rest);
        JoinCells(lx, c, lx1, later, lx');
      }
    } else {
      OneCell(c);
      cells, rest, lx', stuck := [c], more, lx1, stuck1;
    }
  }

  /** The line breaks of a document, those inside quoted cells included. */
  function LinesOf(d: Document): nat
    decreases |d.records|
  {
    if d.records == [] then QuotedLineFeeds(d.last)
    else QuotedLineFeeds(d.records[0].cells) + 1 + LinesOf(Document(d.records[1..], d.last))
  }

  /** The text breaks off or goes wrong in the last cell of a document, on that cell's last line. */
  ghost predicate RefusedIn(t: Text, d: Document, rest: Text, line: nat, e: CsvError) {
    && d.last != []
    && var c := d.last[|d.last| - 1];
    match e
    case UnclosedQuote(n) => n == line + LinesOf(d) && c.quoted && t + [QUOTE] == Write(d)
    case AfterClosingQuote(n) => n == line + LinesOf(d) && c.quoted && t == Write(d) + rest && rest != [] && !Special(rest[0])
    case MisplacedQuote(n) =>
      n == line + LinesOf(d) && !c.quoted && c.text != [] && t == Write(d) + rest && rest != [] && rest[0] == QUOTE
  }

  lemma RefusedStart(t: Text, d: Document, rest: Text, line: nat, e: CsvError)
    requires RefusedIn(t, d, rest, line, e) && StartsWithLf(Write(d))
    ensures StartsWithLf(t)
  {
    if e.UnclosedQuote? {
      assert (t + [QUOTE])[0] == if t == [] then QUOTE else t[0];
    } else {
      assert (Write(d) + rest)[0] == Write(d)[0];
    }
  }

  lemma LaterDocument(r: Record, d: Document)
    requires GoodCells(r.cells) && Good(d) && (r.end.BreakCr? ==> !StartsWithLf(Write(d)))
    ensures var d' := Document([r] + d.records, d.last);
      && Good(d') && Write(d') == WriteCells(r.cells) + WriteBreak(r.end) + Write(d)
      && LinesOf(d') == QuotedLineFeeds(r.cells) + 1 + LinesOf(d)
  {
    AddRecord(r, d);
    assert ([r] + d.records)[1..] == d.records;
  }

  lemma RefusedLater(r: Record, t: Text, d: Document, rest: Text, line: nat, line1: nat, e: CsvError)
    requires GoodCells(r.cells) && Good(d) && (r.end.BreakCr? ==> !StartsWithLf(t))
    requires RefusedIn(t, d, rest, line1, e) && line1 == line + QuotedLineFeeds(r.cells) + 1
    ensures var d' := Document([r] + d.records, d.last);
      Good(d') && RefusedIn(WriteCells(r.cells) + WriteBreak(r.end) + t, d', rest, line, e)
  {
    if StartsWithLf(Write(d)) { RefusedStart(t, d, rest, line1, e); }
    LaterDocument(r, d);
    var before := WriteCells(r.cells) + WriteBreak(r.end);
    if e.UnclosedQuote? { Regroup(before, t, [QUOTE]); } else { Regroup(before, Write(d), rest); }
  }

  /** Every refusal is of one of three kinds and points to the line on which it happens. */
  lemma {:induction false} Refused(t: Text, lx: Lexer) returns (d: Document, rest: Text)
    requires AtRowStart(lx) && Lex(t, lx).Err?
    ensures Good(d) && RefusedIn(t, d, rest, lx.line, Lex(t, lx).error)
    decreases |t|
  {
    var cells, more, lx1, stuck := TryCells(t, lx);
    if stuck {
      d, rest := Document([], cells), more;
    } else {
      var end, tail := UnreadBreak(more);
      Regroup(WriteCells(cells), WriteBreak(end), tail);
      var lx' := ReadRecord(Record(cells, end), tail, lx);
      d, rest := Refused(tail, lx');
      RefusedLater(Record(cells, end), tail, d, rest, lx.line, lx'.line, Lex(t, lx).error);
      d := Document([Record(cells, end)] + d.records, d.last);
    }
  }

  /** In terms of whole texts. */
  lemma RefusesAt(source: Text) returns (d: Document, rest: Text)
    requires Lex(StripBom(source), FIRST).Err?
    ensures Good(d) && RefusedIn(StripBom(source), d, rest, 1, Lex(StripBom(source), FIRST).error)
  {
    d, rest := Refused(StripBom(source), FIRST);
  }

  // ------------------------------------------------------------ trimming and blanks

  ghost predicate Spaces(t: Text) { forall k :: 0 <= k < |t| ==> IsSpace(t[k]) }

  lemma {:induction false} TrimStartExactly(t: Text) returns (n: nat)
    ensures n <= |t| && TrimStart(t) == t[n..] && Spaces(t[..n]) && (n < |t| ==> !IsSpace(t[n]))
  {
    if t != [] && IsSpace(t[0]) {
      n := TrimStartExactly(t[1..]);
      n := n + 1;
      assert t[1..][n - 1..] == t[n..];
      forall k | 0 <= k < n ensures IsSpace(t[..n][k]) { if k > 0 { assert t[1..][..n - 1][k - 1] == t[k]; } }
    } else {
      n := 0;
    }
  }

  lemma {:induction false} TrimEndExactly(t: Text) returns (n: nat)
    ensures n <= |t| && TrimEnd(t) == t[..n] && Spaces(t[n..]) && (n > 0 ==> !IsSpace(t[n - 1]))
  {
    if t != [] && IsSpace(t[|t| - 1]) {
      n := TrimEndExactly(t[..|t| - 1]);
      assert t[..|t| - 1][..n] == t[..n];
      forall k | 0 <= k < |t[n..]| ensures IsSpace(t[n..][k]) {
        if n + k < |t| - 1 { assert t[..|t| - 1][n..][k] == t[n + k]; }
      }
    } else {
      n := |t|;
    }
  }

  /** Trimming takes off all white space at both ends and nothing else. */
  lemma TrimExactly(t: Text) returns (i: nat, j: nat)
    ensures i <= j <= |t| && Trim(t) == t[i..j] && Spaces(t[..i]) && Spaces(t[j..])
    ensures i < j ==> !IsSpace(t[i]) && !IsSpace(t[j - 1])
  {
    i := TrimStartExactly(t);
    var n := TrimEndExactly(t[i..]);
    j := i + n;
    assert t[i..][..n] == t[i..j] && t[i..][n..] == t[j..];
  }

  /** A row is dropped exactly if all its cells are white space. */
  lemma {:induction false} BlankExactly(values: seq<Text>)
    ensures Blank(values) <==> forall k :: 0 <= k < |values| ==> Spaces(values[k])
  {
    if values != [] {
      BlankExactly(values[1..]);
      var i, j := TrimExactly(values[0]);
      assert Trim(values[0]) == [] <==> Spaces(values[0]) by {
        if Trim(values[0]) == [] {
          assert values[0] == values[0][..i] + values[0][j..];
        } else {
          assert !IsSpace(values[0][i]);
        }
      }
      assert forall k :: 0 < k < |values| ==> values[k] == values[1..][k - 1];
      assert forall k :: 0 <= k < |values[1..]| ==> values[1..][k] == values[k + 1];
    }
  }

  /** Written with or without a byte-order mark, a document is read back row by row. */
  lemma SourceRoundTrip(d: Document, marked: bool)
    requires Good(d)
    requires marked || !(Write(d) != [] && Write(d)[0] == BOM)
    ensures Lex(StripBom((if marked then [BOM] else []) + Write(d)), FIRST) == Ok(Rows(d, 1))
  {
    ReadFromTheTop(d);
    assert ([BOM] + Write(d))[1..] == Write(d);
    assert [] + Write(d) == Write(d);
  }

  /** Quoting the first cell is enough to keep a leading byte-order mark inside it. */
  lemma QuotedFirstCellHidesBom(d: Document)
    requires Good(d)
    requires (if d.records == [] then d.last else d.records[0].cells)[0].quoted
    ensures Write(d) != [] && Write(d)[0] != BOM
  {}
}
