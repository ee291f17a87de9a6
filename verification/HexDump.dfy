/** The payload formatter of the logger: a dump in fixed-width columns of code points beside the text,
    in which whatever might upset a terminal is replaced, and a short form on one line. */
module HexDump {
  import opened Frames
  import opened Utf8

  const SPACE: Byte := 0x20
  const NEWLINE: Byte := 0x0A
  const UNPRINTABLE: Byte := 0xBF

  // ---------- one rune ----------

  /** The code, the text and the width in the payload of one rune. */
  datatype Cell = Cell(code: seq<Byte>, val: seq<Byte>, width: nat)

  function HexDigit(d: nat): Byte
    requires d < 16
  {
    if d < 10 then 0x30 + d else 0x37 + d
  }

  /** The verb %04X: at least four upper-case hexadecimal digits. */
  function Hex04(n: nat): (s: seq<Byte>)
    ensures |s| >= 4 && (n < 0x10000 ==> |s| == 4)
    ensures forall b :: b in s ==> b > SPACE
  {
    if n < 0x10000 then [HexDigit(n / 4096), HexDigit(n / 256 % 16), HexDigit(n / 16 % 16), HexDigit(n % 16)]
    else Hex04(n / 16) + [HexDigit(n % 16)]
  }

  /** The rune at the start of a nonempty slice. */
  function ReplaceUnsafe(p: seq<Byte>, graphic: nat -> bool): (cell: Cell)
    requires p != []
    ensures 1 <= cell.width <= |p|
  {
    var d := DecodeRune(p);
    if d.rune == RUNE_ERROR then Cell(Hex04(p[0]), [UNPRINTABLE], d.width)
    else
      EncodeDecode(p);
      Cell(Hex04(d.rune), if graphic(d.rune) then Encode(d.rune) else [UNPRINTABLE], d.width)
  }

  function Cells(p: seq<Byte>, graphic: nat -> bool): seq<Cell>
    decreases |p|
  {
    if p == [] then []
    else var cell := ReplaceUnsafe(p, graphic); [cell] + Cells(p[cell.width..], graphic)
  }

  // ---------- the layout ----------

  /** Codes with a space between them. */
  function Codes(cells: seq<Cell>): seq<Byte> {
    if cells == [] then []
    else if |cells| == 1 then cells[0].code
    else Codes(cells[..|cells| - 1]) + [SPACE] + cells[|cells| - 1].code
  }

  function Values(cells: seq<Cell>): seq<Byte> {
    if cells == [] then [] else Values(cells[..|cells| - 1]) + cells[|cells| - 1].val
  }

  function Spaces(n: nat): (s: seq<Byte>)
    ensures |s| == n && forall b :: b in s ==> b == SPACE
  {
    if n == 0 then [] else Spaces(n - 1) + [SPACE]
  }

  /** The verb %-w.ws: padded on the right or cut to exactly `w` characters. */
  function Column(s: seq<Byte>, w: nat): (c: seq<Byte>)
    ensures |c| == w
    ensures forall b :: b in c ==> b == SPACE || b in s
  {
    if |s| >= w then s[..w] else s + Spaces(w - |s|)
  }

  function Line(codes: seq<Byte>, values: seq<Byte>, runesPerLine: nat): seq<Byte>
    requires runesPerLine > 0
  {
    Column(codes, runesPerLine * 5 - 1) + [SPACE] + values
  }

  function RowText(row: seq<Cell>, runesPerLine: nat): seq<Byte>
    requires runesPerLine > 0
  {
    Line(Codes(row), Values(row), runesPerLine)
  }

  /** All rows but the last are full. */
  function Rows(cells: seq<Cell>, runesPerLine: nat): seq<seq<Cell>>
    requires runesPerLine > 0
  {
    if cells == [] then []
    else if |cells| <= runesPerLine then [cells]
    else [cells[..runesPerLine]] + Rows(cells[runesPerLine..], runesPerLine)
  }

  /** The rows, with a newline between them. */
  function Text(rows: seq<seq<Cell>>, runesPerLine: nat): seq<Byte>
    requires runesPerLine > 0
  {
    if rows == [] then []
    else if |rows| == 1 then RowText(rows[0], runesPerLine)
    else Text(rows[..|rows| - 1], runesPerLine) + [NEWLINE] + RowText(rows[|rows| - 1], runesPerLine)
  }

  function Dump(p: seq<Byte>, runesPerLine: nat, graphic: nat -> bool): seq<Byte>
    requires runesPerLine > 0
  {
    Text(Rows(Cells(p, graphic), runesPerLine), runesPerLine)
  }

  // ---------- formatTerminalSafe ----------

  lemma CodesAppended(cells: seq<Cell>, cell: Cell)
    ensures Codes(cells + [cell]) == (if cells == [] then [] else Codes(cells) + [SPACE]) + cell.code
    ensures Values(cells + [cell]) == Values(cells) + cell.val
  {
    assert (cells + [cell])[..|cells|] == cells;
  }

  lemma TextAppended(rows: seq<seq<Cell>>, row: seq<Cell>, runesPerLine: nat)
    requires runesPerLine > 0
    ensures Text(rows + [row], runesPerLine) ==
            (if rows == [] then [] else Text(rows, runesPerLine) + [NEWLINE]) + RowText(row, runesPerLine)
    ensures Text(rows + [row], runesPerLine) != []
  {
    assert (rows + [row])[..|rows|] == rows;
  }

  /** The space that follows the codes of an unfinished row is lost in the column. */
  lemma TrailingSpace(codes: seq<Byte>, w: nat)
    ensures Column(codes + [SPACE], w) == Column(codes, w)
  {
    if |codes| < w {
      OneSpaceFirst(w - |codes| - 1);
      assert codes + [SPACE] + Spaces(w - |codes| - 1) == codes + ([SPACE] + Spaces(w - |codes| - 1));
    } else {
      assert (codes + [SPACE])[..w] == codes[..w];
    }
  }

  lemma {:induction false} OneSpaceFirst(n: nat)
    ensures [SPACE] + Spaces(n) == Spaces(n + 1)
  {
    if n > 0 {
      OneSpaceFirst(n - 1);
      assert [SPACE] + Spaces(n) == [SPACE] + Spaces(n - 1) + [SPACE];
    }
  }

  function Flat(rows: seq<seq<Cell>>): seq<Cell> {
    if rows == [] then [] else rows[0] + Flat(rows[1..])
  }

  lemma {:induction false} FlatAppended(rows: seq<seq<Cell>>, row: seq<Cell>)
    ensures Flat(rows + [row]) == Flat(rows) + row
  {
    if rows == [] {
      assert rows + [row] == [row];
    } else {
      assert (rows + [row])[1..] == rows[1..] + [row];
      FlatAppended(rows[1..], row);
      assert rows[0] + Flat(rows[1..]) + row == rows[0] + (Flat(rows[1..]) + row);
    }
  }

  /** Full rows and the cells left over are the rows of the whole. */
  lemma {:induction false} RowsOf(rows: seq<seq<Cell>>, cur: seq<Cell>, runesPerLine: nat)
    requires runesPerLine > 0 && |cur| < runesPerLine
    requires forall row :: row in rows ==> |row| == runesPerLine
    ensures Rows(Flat(rows) + cur, runesPerLine) == rows + if cur == [] then [] else [cur]
  {
    if rows == [] {
      assert Flat(rows) + cur == cur;
    } else {
      assert rows[0] in rows;
      RowsOf(rows[1..], cur, runesPerLine);
      var rest := Flat(rows[1..]) + cur;
      assert Flat(rows) + cur == rows[0] + rest;
      FullRow(rows[0], rest, runesPerLine);
    }
  }

  lemma FullRow(row: seq<Cell>, rest: seq<Cell>, runesPerLine: nat)
    requires runesPerLine > 0 && |row| == runesPerLine
    ensures Rows(row + rest, runesPerLine) == [row] + Rows(rest, runesPerLine)
  {
    var all := row + rest;
    if rest == [] {
      assert all == row;
    } else {
      assert all[..runesPerLine] == row && all[runesPerLine..] == rest;
    }
  }

  lemma NextRemainder(c: nat, d: nat)
    requires d > 0
    ensures (c + 1) % d == if c % d == d - 1 then 0 else c % d + 1
  {
    var k, diff := (c + 1) / d - c / d, c % d + 1 - (c + 1) % d;
    assert d * k == diff by {
      assert c == d * (c / d) + c % d && c + 1 == d * ((c + 1) / d) + (c + 1) % d;
      assert d * ((c + 1) / d) - d * (c / d) == d * k;
    }
    Multiple(d, k);
  }

  lemma Multiple(d: int, k: int)
    requires d > 0
    ensures k >= 2 ==> d * k >= d + d
    ensures k <= -1 ==> d * k <= -d
  {
    if k >= 2 {
      assert d * (k - 2) >= 0;
    } else if k <= -1 {
      assert d * (-1 - k) >= 0;
    }
  }

  /** The variables of the loop: `rows` are in `result`, and `cur` is the unfinished row. */
  ghost predicate Laid(rows: seq<seq<Cell>>, cur: seq<Cell>, runesPerLine: nat,
                       result: seq<Byte>, codes: seq<Byte>, values: seq<Byte>)
    requires runesPerLine > 0
  {
    && (forall row :: row in rows ==> |row| == runesPerLine)
    && |cur| < runesPerLine
    && result == Text(rows, runesPerLine) && (result != [] <==> rows != [])
    && codes == (if cur == [] then [] else Codes(cur) + [SPACE])
    && values == Values(cur)
  }

  /** `text` and, if there is text before it, a newline. */
  function NextLine(result: seq<Byte>, text: seq<Byte>): seq<Byte> {
    (if result != [] then result + [NEWLINE] else result) + text
  }

  lemma RowEnds(rows: seq<seq<Cell>>, cur: seq<Cell>, cell: Cell, runesPerLine: nat,
                result: seq<Byte>, codes: seq<Byte>, values: seq<Byte>)
    requires runesPerLine > 0 && Laid(rows, cur, runesPerLine, result, codes, values) && |cur| == runesPerLine - 1
    ensures Laid(rows + [cur + [cell]], [], runesPerLine,
                 NextLine(result, Line(codes + cell.code, values + cell.val, runesPerLine)), [], [])
  {
    hide Text, Codes, Values, Column;
    CodesAppended(cur, cell);
    TextAppended(rows, cur + [cell], runesPerLine);
    NothingLaid();
  }

  lemma NothingLaid()
    ensures Codes([]) == [] && Values([]) == []
  {
  }

  lemma RowGoesOn(rows: seq<seq<Cell>>, cur: seq<Cell>, cell: Cell, runesPerLine: nat,
                  result: seq<Byte>, codes: seq<Byte>, values: seq<Byte>)
    requires runesPerLine > 0 && Laid(rows, cur, runesPerLine, result, codes, values) && |cur| < runesPerLine - 1
    ensures Laid(rows, cur + [cell], runesPerLine, result, codes + cell.code + [SPACE], values + cell.val)
  {
    hide Text, Codes, Values, Column;
    CodesAppended(cur, cell);
  }

  lemma Finished(rows: seq<seq<Cell>>, cur: seq<Cell>, runesPerLine: nat,
                 result: seq<Byte>, codes: seq<Byte>, values: seq<Byte>)
    requires runesPerLine > 0 && Laid(rows, cur, runesPerLine, result, codes, values)
    ensures Text(Rows(Flat(rows) + cur, runesPerLine), runesPerLine) ==
            if codes != [] then NextLine(result, Line(codes, values, runesPerLine)) else result
  {
    hide Text, Rows, Flat, Codes, Values, Line, RowText;
    RowsOf(rows, cur, runesPerLine);
    if cur == [] {
      assert rows + [] == rows;
    } else {
      TextAppended(rows, cur, runesPerLine);
      RowAsLine(cur, runesPerLine);
    }
  }

  lemma RowAsLine(row: seq<Cell>, runesPerLine: nat)
    requires runesPerLine > 0
    ensures RowText(row, runesPerLine) == Line(Codes(row) + [SPACE], Values(row), runesPerLine)
  {
    hide Codes, Values, Column;
    TrailingSpace(Codes(row), runesPerLine * 5 - 1);
  }

  /** The rows, the unfinished row and what is still to be read are the whole payload. */
  ghost predicate Covers(rows: seq<seq<Cell>>, cur: seq<Cell>, bytes: seq<Byte>, i: nat, graphic: nat -> bool)
    requires i <= |bytes|
  {
    Flat(rows) + cur + Cells(bytes[i..], graphic) == Cells(bytes, graphic)
  }

  lemma Regroup(a: seq<Cell>, b: seq<Cell>, x: Cell, rest: seq<Cell>)
    ensures a + b + ([x] + rest) == a + (b + [x]) + rest
    ensures a + (b + [x]) + [] + rest == a + (b + [x]) + rest
  {
  }

  lemma NextCell(rows: seq<seq<Cell>>, cur: seq<Cell>, bytes: seq<Byte>, i: nat, graphic: nat -> bool)
    requires i < |bytes| && Covers(rows, cur, bytes, i, graphic)
    ensures var cell := ReplaceUnsafe(bytes[i..], graphic);
            && Covers(rows, cur + [cell], bytes, i + cell.width, graphic)
            && Covers(rows + [cur + [cell]], [], bytes, i + cell.width, graphic)
  {
    hide Flat;
    var cell := ReplaceUnsafe(bytes[i..], graphic);
    var rest := bytes[i + cell.width..];
    assert bytes[i..][cell.width..] == rest;
    Regroup(Flat(rows), cur, cell, Cells(rest, graphic));
    FlatAppended(rows, cur + [cell]);
  }

  lemma Start(bytes: seq<Byte>, runesPerLine: nat, graphic: nat -> bool)
    requires runesPerLine > 0
    ensures Laid([], [], runesPerLine, [], [], []) && Covers([], [], bytes, 0, graphic)
  {
    assert bytes[0..] == bytes;
  }

  lemma Covered(rows: seq<seq<Cell>>, cur: seq<Cell>, bytes: seq<Byte>, graphic: nat -> bool)
    requires Covers(rows, cur, bytes, |bytes|, graphic)
    ensures Cells(bytes, graphic) == Flat(rows) + cur
  {
  }

  // ---------- the short form ----------

  function Ascii(text: string): (s: seq<Byte>)
    requires forall i :: 0 <= i < |text| ==> text[i] as int < 0x80
  {
    if text == "" then []
    else
      var b: Byte := text[0] as int;
      [b] + Ascii(text[1..])
  }

  function Decimal(n: nat): seq<Byte> {
    if n < 10 then [0x30 + n] else Decimal(n / 10) + [0x30 + n % 10]
  }

  /** The size of the payload, after the values that are shown. */
  function Suffix(cut: bool, length: nat): seq<Byte> {
    Ascii(if cut then " ... (" else " (") + Decimal(length) + Ascii(" bytes)")
  }

  /** The values of at most `cutLength` runes. */
  function ShortForm(p: seq<Byte>, cutLength: int, graphic: nat -> bool): seq<Byte> {
    var cells := Cells(p, graphic);
    var shown := if cutLength < 0 then 0 else if cutLength < |cells| then cutLength else |cells|;
    Values(cells[..shown]) + Suffix(shown < |cells|, |p|)
  }

  lemma CutAt(shown: seq<Cell>, p: seq<Byte>, i: nat, graphic: nat -> bool)
    requires i <= |p| && Covers([], shown, p, i, graphic)
    ensures |shown| <= |Cells(p, graphic)| && Cells(p, graphic)[..|shown|] == shown
    ensures |shown| == |Cells(p, graphic)| <==> i == |p|
  {
    assert Flat([]) + shown == shown;
  }

  // ---------- geometry ----------

  function TotalWidth(cells: seq<Cell>): nat {
    if cells == [] then 0 else cells[0].width + TotalWidth(cells[1..])
  }

  /** The widths of the runes partition the payload. */
  lemma {:induction false} WidthsPartition(p: seq<Byte>, graphic: nat -> bool)
    ensures TotalWidth(Cells(p, graphic)) == |p|
    decreases |p|
  {
    if p != [] {
      var cell := ReplaceUnsafe(p, graphic);
      WidthsPartition(p[cell.width..], graphic);
      assert Cells(p, graphic)[1..] == Cells(p[cell.width..], graphic);
    }
  }

  /** What is shown of a rune contains no newline, unless newline counts as graphic. */
  lemma {:induction false} NoNewlines(p: seq<Byte>, graphic: nat -> bool)
    requires !graphic(10)
    ensures forall cell :: cell in Cells(p, graphic) ==> NEWLINE !in cell.val && NEWLINE !in cell.code
    decreases |p|
  {
    if p != [] {
      var cell, d := ReplaceUnsafe(p, graphic), DecodeRune(p);
      NoNewlines(p[cell.width..], graphic);
      assert NEWLINE in Hex04(p[0]) ==> NEWLINE > SPACE;
      if d.rune != RUNE_ERROR {
        EncodeDecode(p);
        assert NEWLINE in Hex04(d.rune) ==> NEWLINE > SPACE;
      }
    }
  }

  /** A text cut at its newlines. */
  function Split(text: seq<Byte>): (lines: seq<seq<Byte>>)
    ensures lines != []
  {
    if text == [] then [[]]
    else
      var lines, b := Split(text[..|text| - 1]), text[|text| - 1];
      if b == NEWLINE then lines + [[]] else lines[..|lines| - 1] + [lines[|lines| - 1] + [b]]
  }

  lemma {:induction false} SplitLine(text: seq<Byte>, line: seq<Byte>)
    requires NEWLINE !in line
    ensures Split(text + [NEWLINE] + line) == Split(text) + [line]
    ensures Split(line) == [line]
    decreases |line|
  {
    var whole := text + [NEWLINE] + line;
    if line == [] {
      assert whole == text + [NEWLINE];
      assert whole[..|whole| - 1] == text;
    } else {
      var init, b := line[..|line| - 1], line[|line| - 1];
      SplitLine(text, init);
      assert whole[..|whole| - 1] == text + [NEWLINE] + init;
      assert line == init + [b];
    }
  }

  predicate Printable(row: seq<Cell>) {
    forall cell :: cell in row ==> NEWLINE !in cell.val && NEWLINE !in cell.code
  }

  lemma {:induction false} RowTextPrintable(row: seq<Cell>)
    requires Printable(row)
    ensures NEWLINE !in Codes(row) && NEWLINE !in Values(row)
  {
    if row != [] {
      assert row == row[..|row| - 1] + [row[|row| - 1]];
      RowTextPrintable(row[..|row| - 1]);
    }
  }

  lemma {:induction false} SplitText(rows: seq<seq<Cell>>, runesPerLine: nat)
    requires runesPerLine > 0 && rows != []
    requires forall row :: row in rows ==> Printable(row)
    ensures |Split(Text(rows, runesPerLine))| == |rows|
    ensures forall k :: 0 <= k < |rows| ==> Split(Text(rows, runesPerLine))[k] == RowText(rows[k], runesPerLine)
  {
    var init, row := rows[..|rows| - 1], rows[|rows| - 1];
    var line := RowText(row, runesPerLine);
    assert row in rows;
    RowTextPrintable(row);
    assert NEWLINE !in line;
    hide RowText, Codes, Values;
    if init == [] {
      SplitLine([], line);
    } else {
      SplitText(init, runesPerLine);
      SplitLine(Text(init, runesPerLine), line);
    }
  }

  /** The rows take the cells in order, and there are ceil(|cells| / runesPerLine) of them. */
  lemma {:induction false} RowCount(cells: seq<Cell>, runesPerLine: nat)
    requires runesPerLine > 0
    ensures var rows := Rows(cells, runesPerLine);
            && |rows| == (|cells| + runesPerLine - 1) / runesPerLine
            && Flat(rows) == cells
            && (forall row :: row in rows ==> 0 < |row| <= runesPerLine && forall cell :: cell in row ==> cell in cells)
    decreases |cells|
  {
    if |cells| <= runesPerLine {
      SmallQuotient(|cells|, runesPerLine);
      if cells != [] { assert Flat([cells]) == cells + Flat([]) == cells; }
    } else {
      var first, rest := cells[..runesPerLine], cells[runesPerLine..];
      RowCount(rest, runesPerLine);
      QuotientStep(|rest| + runesPerLine - 1, runesPerLine);
      assert Rows(cells, runesPerLine)[1..] == Rows(rest, runesPerLine);
      assert cells == first + rest;
    }
  }

  lemma SmallQuotient(n: nat, d: nat)
    requires n <= d && d > 0
    ensures (n + d - 1) / d == if n == 0 then 0 else 1
  {
    Multiple(d, (n + d - 1) / d);
  }

  lemma QuotientStep(a: nat, d: nat)
    requires d > 0
    ensures (a + d) / d == a / d + 1
  {
    var k := (a + d) / d - a / d;
    assert d * k == a + d - (a + d) % d - (a - a % d) by {
      assert d * ((a + d) / d) - d * (a / d) == d * k;
    }
    Multiple(d, k);
  }

  /** For arbitrary bytes: the dump has ceil(runes / runesPerLine) lines, each made of a column of exactly
      5 * runesPerLine - 1 characters, a space, and the values of its runes. */
  lemma Geometry(p: seq<Byte>, runesPerLine: nat, graphic: nat -> bool)
    requires runesPerLine > 0 && p != [] && !graphic(10)
    ensures var cells := Cells(p, graphic);
            var rows, lines := Rows(cells, runesPerLine), Split(Dump(p, runesPerLine, graphic));
            && |lines| == |rows| == (|cells| + runesPerLine - 1) / runesPerLine
            && Flat(rows) == cells
            && forall k :: 0 <= k < |lines| ==>
                 && 0 < |rows[k]| <= runesPerLine
                 && |lines[k]| == 5 * runesPerLine + |Values(rows[k])|
                 && lines[k][..5 * runesPerLine - 1] == Column(Codes(rows[k]), 5 * runesPerLine - 1)
                 && lines[k][5 * runesPerLine - 1] == SPACE
                 && lines[k][5 * runesPerLine..] == Values(rows[k])
                 && NEWLINE !in lines[k]
  {
    hide Split, Text, Rows, ReplaceUnsafe, Codes, Values, Column, Flat;
    var cells := Cells(p, graphic);
    var rows := Rows(cells, runesPerLine);
    RowCount(cells, runesPerLine);
    NoNewlines(p, graphic);
    assert cells != [];
    NonemptyRows(cells, runesPerLine);
    assert forall row :: row in rows ==> Printable(row);
    SplitText(rows, runesPerLine);
    forall k | 0 <= k < |rows|
      ensures NEWLINE !in RowText(rows[k], runesPerLine)
    {
      assert rows[k] in rows;
      RowTextPrintable(rows[k]);
    }
  }

  lemma NonemptyRows(cells: seq<Cell>, runesPerLine: nat)
    requires runesPerLine > 0 && cells != []
    ensures Rows(cells, runesPerLine) != []
  {
  }

  // ---------- the two forms agree ----------

  lemma {:induction false} ValuesOf(a: seq<Cell>, b: seq<Cell>)
    ensures Values(a + b) == Values(a) + Values(b)
    decreases |b|
  {
    if b == [] {
      assert a + b == a;
    } else {
      var init, last := b[..|b| - 1], b[|b| - 1];
      assert a + b == a + init + [last] && b == init + [last];
      ValuesOf(a, init);
      CodesAppended(a + init, last);
      CodesAppended(init, last);
    }
  }

  /** What stands beside the columns, line by line. */
  function Beside(lines: seq<seq<Byte>>, w: nat): seq<Byte> {
    if lines == [] then []
    else (if |lines[0]| >= w then lines[0][w..] else []) + Beside(lines[1..], w)
  }

  lemma {:induction false} BesideRows(rows: seq<seq<Cell>>, lines: seq<seq<Byte>>, runesPerLine: nat)
    requires runesPerLine > 0 && |lines| == |rows|
    requires forall k :: 0 <= k < |rows| ==> lines[k] == RowText(rows[k], runesPerLine)
    ensures Beside(lines, 5 * runesPerLine) == Values(Flat(rows))
  {
    hide RowText, Values;
    if rows == [] {
      NothingLaid();
    } else {
      RowParts(rows[0], runesPerLine);
      BesideRows(rows[1..], lines[1..], runesPerLine);
      ValuesOf(rows[0], Flat(rows[1..]));
    }
  }

  lemma RowParts(row: seq<Cell>, runesPerLine: nat)
    requires runesPerLine > 0
    ensures var line := RowText(row, runesPerLine);
            && |line| >= 5 * runesPerLine && line[5 * runesPerLine..] == Values(row)
            && line[..5 * runesPerLine - 1] == Column(Codes(row), 5 * runesPerLine - 1)
  {
  }

  /** The value columns of a dump are the values of the payload. */
  lemma BesideDump(p: seq<Byte>, runesPerLine: nat, graphic: nat -> bool)
    requires runesPerLine > 0 && p != [] && !graphic(10)
    ensures Beside(Split(Dump(p, runesPerLine, graphic)), 5 * runesPerLine) == Values(Cells(p, graphic))
  {
    hide RowText, Text, Split, Rows, Beside, Values, Cells, Flat;
    var cells := Cells(p, graphic);
    var rows := Rows(cells, runesPerLine);
    PrintableRows(p, runesPerLine, graphic);
    SplitText(rows, runesPerLine);
    BesideRows(rows, Split(Text(rows, runesPerLine)), runesPerLine);
  }

  lemma PrintableRows(p: seq<Byte>, runesPerLine: nat, graphic: nat -> bool)
    requires runesPerLine > 0 && p != [] && !graphic(10)
    ensures var rows := Rows(Cells(p, graphic), runesPerLine);
            && rows != [] && Flat(rows) == Cells(p, graphic)
            && forall row :: row in rows ==> Printable(row) && 0 < |row| <= runesPerLine
  {
    hide Rows, ReplaceUnsafe, Flat;
    RowCount(Cells(p, graphic), runesPerLine);
    NoNewlines(p, graphic);
    NonemptyRows(Cells(p, graphic), runesPerLine);
  }

  /** A short form that is not cut is the value columns of the dump, one after the other; the ellipsis
      appears exactly if there are more runes than the limit. */
  lemma ModesAgree(p: seq<Byte>, cutLength: nat, runesPerLine: nat, graphic: nat -> bool)
    requires runesPerLine > 0 && p != [] && !graphic(10)
    ensures var n, all := |Cells(p, graphic)|, Beside(Split(Dump(p, runesPerLine, graphic)), 5 * runesPerLine);
            if n <= cutLength then ShortForm(p, cutLength, graphic) == all + Suffix(false, |p|)
            else exists shown :: shown <= all && ShortForm(p, cutLength, graphic) == shown + Suffix(true, |p|)
  {
    hide Dump, Split, Beside, Cells, Values, Suffix;
    BesideDump(p, runesPerLine, graphic);
    var cells := Cells(p, graphic);
    if |cells| <= cutLength {
      assert cells[..|cells|] == cells;
    } else {
      assert cells == cells[..cutLength] + cells[cutLength..];
      ValuesOf(cells[..cutLength], cells[cutLength..]);
      var shown := Values(cells[..cutLength]);
      assert shown <= Values(cells) && ShortForm(p, cutLength, graphic) == shown + Suffix(true, |p|);
    }
  }

  // ---------- reading a dump back ----------

  function UnHexDigit(b: Byte): nat {
    var n: int := b;
    if 0x30 <= n < 0x3A then n - 0x30 else if 0x41 <= n < 0x47 then n - 0x37 else 0
  }

  function UnHex(s: seq<Byte>): nat
    requires |s| == 4
  {
    UnHexDigit(s[0]) * 4096 + UnHexDigit(s[1]) * 256 + UnHexDigit(s[2]) * 16 + UnHexDigit(s[3])
  }

  /** The codes in a column, in cells of five characters. */
  function ReadColumn(column: seq<Byte>): seq<nat> {
    if |column| < 4 || column[0] == SPACE then []
    else [UnHex(column[..4])] + if |column| == 4 then [] else ReadColumn(column[5..])
  }

  function ReadLines(lines: seq<seq<Byte>>, w: nat): seq<nat> {
    if lines == [] then []
    else (if |lines[0]| >= w then ReadColumn(lines[0][..w]) else []) + ReadLines(lines[1..], w)
  }

  /** The codes in the columns of a dump. */
  function ReadDump(text: seq<Byte>, runesPerLine: nat): seq<nat>
    requires runesPerLine > 0
  {
    ReadLines(Split(text), 5 * runesPerLine - 1)
  }

  lemma DigitBack(d: nat)
    requires d < 16
    ensures UnHexDigit(HexDigit(d)) == d
  {
  }

  lemma Quotients(n: nat)
    ensures n / 256 == n / 16 / 16 && n / 4096 == n / 16 / 16 / 16
  {
  }

  lemma UnHexHex(n: nat)
    requires n < 0x10000
    ensures UnHex(Hex04(n)) == n
  {
    hide UnHexDigit, HexDigit;
    Quotients(n);
    var a, b, c := n / 16, n / 16 / 16, n / 16 / 16 / 16;
    assert n == 16 * a + n % 16 && a == 16 * b + a % 16 && b == 16 * c + b % 16;
    DigitBack(c);
    DigitBack(b % 16);
    DigitBack(a % 16);
    DigitBack(n % 16);
  }

  /** The cells carry the codes of `runes`, all of them in the basic plane. */
  predicate Coded(cells: seq<Cell>, runes: seq<nat>) {
    |cells| == |runes| && forall k :: 0 <= k < |runes| ==> runes[k] < 0x10000 && cells[k].code == Hex04(runes[k])
  }

  lemma {:induction false} CodesFromFront(row: seq<Cell>)
    requires |row| > 1
    ensures Codes(row) == row[0].code + [SPACE] + Codes(row[1..])
  {
    var init, last := row[..|row| - 1], row[|row| - 1];
    if |row| > 2 {
      CodesFromFront(init);
      assert row[1..][..|row| - 2] == init[1..];
    } else {
      assert row[1..] == [last];
    }
  }

  /** The last code of a row and the padding after it. */
  lemma ReadLast(code: seq<Byte>, n: nat)
    requires |code| == 4 && code[0] != SPACE
    ensures ReadColumn(code + Spaces(n)) == [UnHex(code)]
  {
    hide UnHex;
    var column := code + Spaces(n);
    assert column[..4] == code;
    if n > 0 {
      assert column[5..] == Spaces(n)[1..];
      assert forall i :: 0 <= i < n ==> Spaces(n)[i] in Spaces(n);
    }
  }

  lemma ReadFirst(code: seq<Byte>, rest: seq<Byte>)
    requires |code| == 4 && code[0] != SPACE
    ensures ReadColumn(code + [SPACE] + rest) == [UnHex(code)] + ReadColumn(rest)
  {
    hide UnHex;
    var column := code + [SPACE] + rest;
    assert column[..4] == code && column[5..] == rest;
  }

  /** One more code before a column that reads as `runes`. */
  lemma ReadBefore(row: seq<Cell>, runes: seq<nat>, pad: seq<Byte>)
    requires |row| > 1 && Coded(row, runes)
    ensures ReadColumn(Codes(row) + pad) == [runes[0]] + ReadColumn(Codes(row[1..]) + pad)
    ensures |Codes(row)| == 5 + |Codes(row[1..])|
  {
    hide ReadColumn, UnHex, Codes, Hex04;
    var code := row[0].code;
    UnHexHex(runes[0]);
    assert code[0] in code;
    CodesFromFront(row);
    ReadFirst(code, Codes(row[1..]) + pad);
    assert Codes(row) + pad == code + [SPACE] + (Codes(row[1..]) + pad);
  }

  lemma {:induction false} ReadCodes(row: seq<Cell>, runes: seq<nat>, n: nat)
    requires row != [] && Coded(row, runes)
    ensures ReadColumn(Codes(row) + Spaces(n)) == runes
    ensures |Codes(row)| == 5 * |row| - 1
  {
    hide ReadColumn, UnHex, Spaces, Hex04;
    if |row| == 1 {
      UnHexHex(runes[0]);
      assert row[0].code[0] in row[0].code;
      ReadLast(row[0].code, n);
      assert runes == [runes[0]];
    } else {
      hide Codes;
      ReadBefore(row, runes, Spaces(n));
      ReadCodes(row[1..], runes[1..], n);
      assert runes == [runes[0]] + runes[1..];
    }
  }

  lemma ReadRow(row: seq<Cell>, runes: seq<nat>, runesPerLine: nat)
    requires 0 < |row| <= runesPerLine && Coded(row, runes)
    ensures ReadColumn(Column(Codes(row), 5 * runesPerLine - 1)) == runes
  {
    hide ReadColumn, Codes, Coded;
    var n := 5 * (runesPerLine - |row|);
    ReadCodes(row, runes, n);
    assert n == 0 ==> Codes(row) + Spaces(n) == Codes(row)[..|Codes(row)|];
  }

  lemma CodedParts(a: seq<Cell>, b: seq<Cell>, runes: seq<nat>)
    requires Coded(a + b, runes)
    ensures |a| <= |runes| && Coded(a, runes[..|a|]) && Coded(b, runes[|a|..])
  {
    hide Codes;
    assert forall k :: 0 <= k < |a| ==> a[k] == (a + b)[k];
    assert forall k :: 0 <= k < |b| ==> b[k] == (a + b)[|a| + k];
  }

  lemma {:induction false} ReadRows(rows: seq<seq<Cell>>, lines: seq<seq<Byte>>, runes: seq<nat>, runesPerLine: nat)
    requires runesPerLine > 0 && |lines| == |rows| && Coded(Flat(rows), runes)
    requires forall k :: 0 <= k < |rows| ==> 0 < |rows[k]| <= runesPerLine && lines[k] == RowText(rows[k], runesPerLine)
    ensures ReadLines(lines, 5 * runesPerLine - 1) == runes
  {
    hide RowText, ReadColumn, Codes, Column;
    if rows != [] {
      var row, n := rows[0], |rows[0]|;
      assert Flat(rows) == row + Flat(rows[1..]);
      CodedParts(row, Flat(rows[1..]), runes);
      RowParts(row, runesPerLine);
      ReadRow(row, runes[..n], runesPerLine);
      ReadRows(rows[1..], lines[1..], runes[n..], runesPerLine);
    }
  }

  /** Scalar values that the dump shows by a code of four digits that is their own. */
  predicate Plain(runes: seq<nat>) {
    forall i :: 0 <= i < |runes| ==> Scalar(runes[i]) && runes[i] < 0x10000 && runes[i] != RUNE_ERROR
  }

  /** Scalar values of the basic plane: their codes have four digits. */
  predicate Basic(runes: seq<nat>) {
    forall i :: 0 <= i < |runes| ==> Scalar(runes[i]) && runes[i] < 0x10000
  }

  /** What the dump shows for each rune: its code, but for U+FFFD its first octet. */
  function Shown(runes: seq<nat>): seq<nat> {
    if runes == [] then []
    else
      var code: nat := if runes[0] == RUNE_ERROR then 0xEF else runes[0];
      [code] + Shown(runes[1..])
  }

  lemma {:induction false} ShownIff(runes: seq<nat>)
    ensures |Shown(runes)| == |runes|
    ensures Shown(runes) == runes <==> RUNE_ERROR !in runes
  {
    if runes != [] {
      ShownIff(runes[1..]);
      assert runes == [runes[0]] + runes[1..];
      assert Shown(runes)[1..] == Shown(runes[1..]);
    }
  }

  lemma FirstCell(r: nat, rest: seq<Byte>, graphic: nat -> bool)
    requires Scalar(r) && r < 0x10000
    ensures var cells := Cells(Encode(r) + rest, graphic);
            |cells| == 1 + |Cells(rest, graphic)| && cells[0].code == Hex04(if r == RUNE_ERROR then 0xEF else r)
            && cells[1..] == Cells(rest, graphic)
  {
    hide Hex04, Encode, DecodeRune;
    DecodeEncode(r, rest);
    if r == RUNE_ERROR { FirstOctet(rest); }
    assert (Encode(r) + rest)[|Encode(r)|..] == rest;
  }

  lemma FirstOctet(rest: seq<Byte>)
    ensures (Encode(RUNE_ERROR) + rest)[0] == 0xEF
  {
  }

  lemma {:induction false} CellsOfEncoded(runes: seq<nat>, graphic: nat -> bool)
    requires Basic(runes)
    ensures Coded(Cells(EncodeAll(runes), graphic), Shown(runes))
  {
    hide Hex04, Encode, ReplaceUnsafe;
    if runes != [] {
      var r, rest := runes[0], EncodeAll(runes[1..]);
      FirstCell(r, rest, graphic);
      CellsOfEncoded(runes[1..], graphic);
      hide Cells;
      var cells, codes := Cells(EncodeAll(runes), graphic), Shown(runes);
      ShownIff(runes);
      assert codes[1..] == Shown(runes[1..]) && |cells| == |codes| == |runes|;
      assert forall k :: 0 < k < |runes| ==> cells[k] == cells[1..][k - 1] && codes[k] == codes[1..][k - 1];
    }
  }

  /** Reading the five-character cells of every line's column gives what is shown, for every number of runes
      per line. */
  lemma ReadsShown(runes: seq<nat>, runesPerLine: nat, graphic: nat -> bool)
    requires runesPerLine > 0 && !graphic(10) && Basic(runes)
    ensures ReadDump(Dump(EncodeAll(runes), runesPerLine, graphic), runesPerLine) == Shown(runes)
  {
    hide RowText, Text, Split, Rows, Cells, Flat, Shown;
    var p := EncodeAll(runes);
    var rows := Rows(Cells(p, graphic), runesPerLine);
    CellsOfEncoded(runes, graphic);
    ShownIff(runes);
    if runes == [] {
      EmptyDump(runesPerLine, graphic);
    } else {
      PrintableRows(p, runesPerLine, graphic);
      SplitText(rows, runesPerLine);
      ReadRows(rows, Split(Text(rows, runesPerLine)), Shown(runes), runesPerLine);
    }
  }

  lemma UnHexSmall(s: seq<Byte>)
    requires |s| == 4
    ensures UnHex(s) < 0x10000
  {
  }

  lemma {:induction false} ColumnSmall(column: seq<Byte>)
    ensures forall r :: r in ReadColumn(column) ==> r < 0x10000
    decreases |column|
  {
    hide UnHex;
    if |column| >= 4 {
      UnHexSmall(column[..4]);
      if |column| > 4 { ColumnSmall(column[5..]); }
    }
  }

  lemma {:induction false} LinesSmall(lines: seq<seq<Byte>>, w: nat)
    ensures forall r :: r in ReadLines(lines, w) ==> r < 0x10000
  {
    hide ReadColumn;
    if lines != [] {
      LinesSmall(lines[1..], w);
      if |lines[0]| >= w { ColumnSmall(lines[0][..w]); }
    }
  }

  /** The dump of a text can be read back, from its columns, exactly if the text is plain: no code beyond four
      digits, and no U+FFFD. */
  lemma RoundTripIff(runes: seq<nat>, runesPerLine: nat, graphic: nat -> bool)
    requires runesPerLine > 0 && !graphic(10) && forall i :: 0 <= i < |runes| ==> Scalar(runes[i])
    ensures ReadDump(Dump(EncodeAll(runes), runesPerLine, graphic), runesPerLine) == runes <==> Plain(runes)
  {
    hide Dump, EncodeAll, Shown, ReadLines, Split;
    if Basic(runes) {
      ReadsShown(runes, runesPerLine, graphic);
      ShownIff(runes);
    } else {
      LinesSmall(Split(Dump(EncodeAll(runes), runesPerLine, graphic)), 5 * runesPerLine - 1);
      var i :| 0 <= i < |runes| && runes[i] >= 0x10000;
      assert runes[i] in runes;
    }
  }

  /** Round trip: reading the five-character cells of every line's column recovers the code points, and
      with them the payload, for every number of runes per line. */
  lemma RoundTrip(runes: seq<nat>, runesPerLine: nat, graphic: nat -> bool)
    requires runesPerLine > 0 && !graphic(10) && Plain(runes)
    ensures ReadDump(Dump(EncodeAll(runes), runesPerLine, graphic), runesPerLine) == runes
    ensures EncodeAll(ReadDump(Dump(EncodeAll(runes), runesPerLine, graphic), runesPerLine)) == EncodeAll(runes)
  {
    hide Dump, EncodeAll, ReadDump;
    RoundTripIff(runes, runesPerLine, graphic);
  }

  lemma EmptyDump(runesPerLine: nat, graphic: nat -> bool)
    requires runesPerLine > 0
    ensures ReadDump(Dump([], runesPerLine, graphic), runesPerLine) == []
  {
    var lines: seq<seq<Byte>> := [[]];
    assert Split(Dump([], runesPerLine, graphic)) == lines;
    assert lines[1..] == [] && ReadLines([], 5 * runesPerLine - 1) == [];
    assert ReadLines(lines, 5 * runesPerLine - 1) == [];
  }

  lemma OneCell(p: seq<Byte>, cell: Cell, graphic: nat -> bool)
    requires p != [] && ReplaceUnsafe(p, graphic) == cell && cell.width == |p|
    ensures Cells(p, graphic) == [cell]
  {
    assert p[|p|..] == [];
  }

  lemma OneRow(cell: Cell, runesPerLine: nat)
    requires runesPerLine > 0
    ensures Text(Rows([cell], runesPerLine), runesPerLine) == RowText([cell], runesPerLine)
  {
  }

  /** U+FFFD is shown by its first octet, so its dump is that of the lone octet EF: it cannot be read back. */
  lemma ReplacementCharacterIsAmbiguous(runesPerLine: nat, graphic: nat -> bool)
    requires runesPerLine > 0
    ensures Encode(RUNE_ERROR) != [0xEF]
    ensures Dump(Encode(RUNE_ERROR), runesPerLine, graphic) == Dump([0xEF], runesPerLine, graphic)
  {
    hide Hex04, Column;
    var p := Encode(RUNE_ERROR);
    var wide, narrow := Cell(Hex04(0xEF), [UNPRINTABLE], 3), Cell(Hex04(0xEF), [UNPRINTABLE], 1);
    OneCell(p, wide, graphic);
    OneCell([0xEF], narrow, graphic);
    assert RowText([wide], runesPerLine) == RowText([narrow], runesPerLine) by {
      assert [wide][..0] == [narrow][..0] == [];
      assert Codes([wide]) == Codes([narrow]) && Values([wide]) == Values([narrow]);
    }
    OneRow(wide, runesPerLine);
    OneRow(narrow, runesPerLine);
    assert |p| == 3;
  }
}
