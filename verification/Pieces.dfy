/** What the payload formatter shows, said without its own functions: in terms of the runes and the stray octets that a
    payload is made of. */
module Pieces {
  import opened Frames
  import opened Utf8
  import opened HexDump

  // ---------- the pieces of a payload ----------

  /** A scalar value, or an octet at which no encoding of one starts. */
  datatype Piece = Rune(r: nat) | Octet(b: Byte)

  predicate Fits(piece: Piece) {
    piece.Rune? ==> Scalar(piece.r)
  }

  predicate AllFit(ps: seq<Piece>) {
    forall k :: 0 <= k < |ps| ==> Fits(ps[k])
  }

  function OctetsOf(piece: Piece): seq<Byte>
    requires Fits(piece)
  {
    match piece
    case Rune(r) => Encode(r)
    case Octet(b) => [b]
  }

  function Bytes(ps: seq<Piece>): seq<Byte>
    requires AllFit(ps)
  {
    if ps == [] then [] else OctetsOf(ps[0]) + Bytes(ps[1..])
  }

  ghost predicate Stray(p: seq<Byte>) {
    forall r :: Scalar(r) ==> !(Encode(r) <= p)
  }

  /** The octets that stand for themselves do so because nothing else fits. */
  ghost predicate Segmented(ps: seq<Piece>) {
    AllFit(ps) && forall k :: 0 <= k < |ps| && ps[k].Octet? ==> Stray(Bytes(ps[k..]))
  }

  lemma SegmentedTail(ps: seq<Piece>)
    requires Segmented(ps) && ps != []
    ensures Segmented(ps[1..]) && Fits(ps[0]) && Bytes(ps) == OctetsOf(ps[0]) + Bytes(ps[1..])
    ensures ps[0].Octet? ==> Stray(Bytes(ps))
  {
    hide Stray;
    assert ps[0..] == ps;
    forall k | 0 <= k < |ps[1..]| && ps[1..][k].Octet? ensures Stray(Bytes(ps[1..][k..])) {
      assert ps[1..][k..] == ps[k + 1..];
    }
  }

  lemma SegmentedCons(piece: Piece, ps: seq<Piece>)
    requires Segmented(ps) && Fits(piece) && (piece.Octet? ==> Stray([piece.b] + Bytes(ps)))
    ensures Segmented([piece] + ps) && Bytes([piece] + ps) == OctetsOf(piece) + Bytes(ps)
  {
    hide Stray;
    var all := [piece] + ps;
    assert all[1..] == ps;
    forall k | 0 <= k < |all| && all[k].Octet? ensures Stray(Bytes(all[k..])) {
      if k == 0 { assert all[0..] == all; } else { assert all[k..] == ps[k - 1..]; }
    }
  }

  /** Every payload has pieces ... */
  lemma {:induction false} Segments(p: seq<Byte>) returns (ps: seq<Piece>)
    ensures Segmented(ps) && Bytes(ps) == p
    decreases |p|
  {
    hide Segmented, Stray, DecodeRune, Encode;
    if p == [] {
      ps := [];
      NoPieces();
    } else {
      InvalidMeansStray(p);
      var d := DecodeRune(p);
      var rest := Segments(p[d.width..]);
      var piece := if d == INVALID then Octet(p[0]) else Rune(d.rune);
      if d != INVALID { EncodeDecode(p); }
      assert p == p[..d.width] + p[d.width..];
      assert d == INVALID ==> p[..1] == [p[0]];
      SegmentsFit(rest);
      SegmentedCons(piece, rest);
      ps := [piece] + rest;
    }
  }

  lemma NoPieces()
    ensures Segmented([]) && Bytes([]) == []
  {
  }

  lemma SegmentsFit(ps: seq<Piece>)
    requires Segmented(ps)
    ensures AllFit(ps)
  {
  }

  lemma InvalidMeansStray(p: seq<Byte>)
    requires p != []
    ensures DecodeRune(p) == INVALID <==> Stray(p)
  {
    InvalidIff(p);
  }

  /** ... and no others. */
  lemma {:induction false} SegmentsUnique(a: seq<Piece>, b: seq<Piece>)
    requires Segmented(a) && Segmented(b) && Bytes(a) == Bytes(b)
    ensures a == b
  {
    hide Segmented, Stray, Encode;
    SegmentsFit(a);
    SegmentsFit(b);
    if a == [] || b == [] {
      assert a == [] && b == [] by { NotEmpty(a); NotEmpty(b); }
    } else {
      SegmentedTail(a);
      SegmentedTail(b);
      FirstPiece(a);
      FirstPiece(b);
      ErrorIsWide();
      var n := |OctetsOf(a[0])|;
      assert Bytes(a)[n..] == Bytes(a[1..]) && Bytes(b)[n..] == Bytes(b[1..]);
      SegmentsUnique(a[1..], b[1..]);
      assert a == [a[0]] + a[1..] && b == [b[0]] + b[1..];
    }
  }

  lemma NotEmpty(ps: seq<Piece>)
    requires AllFit(ps)
    ensures ps != [] ==> Bytes(ps) != []
  {
    hide Encode;
  }

  lemma ErrorIsWide()
    ensures |Encode(RUNE_ERROR)| == 3
  {
  }

  /** The first piece is what the decoder finds. */
  lemma FirstPiece(ps: seq<Piece>)
    requires Segmented(ps) && ps != []
    ensures Fits(ps[0]) && Bytes(ps) != []
    ensures var p := Bytes(ps);
            DecodeRune(p) == match ps[0]
                             case Rune(r) => Decoded(r, |Encode(r)|)
                             case Octet(b) => INVALID
    ensures ps[0].Octet? ==> Bytes(ps)[0] == ps[0].b
  {
    hide Segmented, Stray, DecodeRune, Encode;
    SegmentsFit(ps);
    SegmentedTail(ps);
    if ps[0].Rune? {
      DecodeEncode(ps[0].r, Bytes(ps[1..]));
    } else {
      InvalidMeansStray(Bytes(ps));
    }
  }

  // ---------- what is shown of a piece ----------

  /** A graphic rune as it is, anything else as one octet that is neither ASCII nor the start of an encoding. */
  function Shown(piece: Piece, graphic: nat -> bool): seq<Byte>
    requires Fits(piece)
  {
    if piece.Rune? && piece.r != 0xFFFD && graphic(piece.r) then Encode(piece.r) else [0xBF]
  }

  function AllShown(ps: seq<Piece>, graphic: nat -> bool): seq<Byte>
    requires AllFit(ps)
  {
    if ps == [] then [] else Shown(ps[0], graphic) + AllShown(ps[1..], graphic)
  }

  /** The number beside it: the code point, for a stray octet its value, and for U+FFFD that of its first octet. */
  function CodeOf(piece: Piece): nat {
    match piece
    case Rune(r) => if r == 0xFFFD then 0xEF else r
    case Octet(b) => var n: int := b; n
  }

  lemma CellIsPiece(ps: seq<Piece>, graphic: nat -> bool)
    requires Segmented(ps) && ps != []
    ensures Fits(ps[0]) && Bytes(ps) != []
    ensures var cell := ReplaceUnsafe(Bytes(ps), graphic);
            && cell.val == Shown(ps[0], graphic) && cell.code == Hex04(CodeOf(ps[0]))
            && Bytes(ps)[cell.width..] == Bytes(ps[1..])
  {
    hide Segmented, Stray, Encode, DecodeRune, Hex04;
    SegmentsFit(ps);
    SegmentedTail(ps);
    ErrorIsWide();
    FirstPiece(ps);
    if ps[0] == Rune(RUNE_ERROR) { FirstOctet(Bytes(ps[1..])); }
  }

  lemma {:induction false} CellsArePieces(ps: seq<Piece>, graphic: nat -> bool)
    requires Segmented(ps)
    ensures var cells := Cells(Bytes(ps), graphic);
            && |cells| == |ps|
            && forall k :: 0 <= k < |ps| ==> cells[k].val == Shown(ps[k], graphic) && cells[k].code == Hex04(CodeOf(ps[k]))
  {
    hide Segmented, ReplaceUnsafe, Shown, Hex04, Encode, CodeOf;
    SegmentsFit(ps);
    if ps != [] {
      CellIsPiece(ps, graphic);
      SegmentedTail(ps);
      CellsArePieces(ps[1..], graphic);
      var cells, rest := Cells(Bytes(ps), graphic), Cells(Bytes(ps[1..]), graphic);
      assert cells[1..] == rest;
      assert forall k :: 0 < k < |ps| ==> cells[k] == rest[k - 1] && ps[k] == ps[1..][k - 1];
    }
  }

  lemma {:induction false} ValuesAreShown(cells: seq<Cell>, ps: seq<Piece>, graphic: nat -> bool)
    requires AllFit(ps) && |cells| == |ps| && forall k :: 0 <= k < |ps| ==> cells[k].val == Shown(ps[k], graphic)
    ensures Values(cells) == AllShown(ps, graphic)
  {
    hide Shown;
    if ps != [] {
      assert cells == [cells[0]] + cells[1..];
      ValuesOf([cells[0]], cells[1..]);
      assert Values([cells[0]]) == Values([]) + cells[0].val by { assert [cells[0]][..0] == []; }
      ValuesAreShown(cells[1..], ps[1..], graphic);
    }
  }

  // ---------- numbers ----------

  predicate HexByte(b: Byte) {
    0x30 <= b < 0x3A || 0x41 <= b < 0x47
  }

  predicate HexText(s: seq<Byte>) {
    forall i :: 0 <= i < |s| ==> HexByte(s[i])
  }

  /** The value of a text of hexadecimal digits. */
  function HexValue(s: seq<Byte>): nat
    requires HexText(s)
  {
    if s == [] then 0
    else
      var b: int := s[|s| - 1];
      HexValue(s[..|s| - 1]) * 16 + (if b < 0x3A then b - 0x30 else b - 0x41 + 10)
  }

  /** `s` is `n` in upper-case hexadecimal, with leading zeros up to four digits and none beyond. */
  predicate WritesHex(s: seq<Byte>, n: nat) {
    && |s| >= 4 && HexText(s) && HexValue(s) == n
    && (|s| > 4 ==> s[0] != 0x30)
  }

  lemma OneDigit(s: seq<Byte>, d: nat)
    requires d < 16 && HexText(s)
    ensures var t := s + [HexDigit(d)]; HexText(t) && HexValue(t) == HexValue(s) * 16 + d
  {
    var t := s + [HexDigit(d)];
    assert t[..|t| - 1] == s;
  }

  lemma FourDigits(n: nat)
    requires n < 0x10000
    ensures WritesHex(Hex04(n), n)
  {
    hide HexDigit, HexValue;
    var a, b, c := n / 4096, n / 256 % 16, n / 16 % 16;
    var s0: seq<Byte> := [];
    var s1 := s0 + [HexDigit(a)];
    var s2 := s1 + [HexDigit(b)];
    var s3 := s2 + [HexDigit(c)];
    NoDigits();
    OneDigit(s0, a);
    OneDigit(s1, b);
    OneDigit(s2, c);
    OneDigit(s3, n % 16);
    assert Hex04(n) == s3 + [HexDigit(n % 16)];
    Quotients(n);
    var q, r := n / 16, n / 16 / 16;
    assert n == 16 * q + n % 16 && q == 16 * r + q % 16 && r == 16 * a + r % 16;
  }

  lemma NoDigits()
    ensures HexValue([]) == 0
  {
  }

  lemma LeadingDigit(d: nat)
    requires 0 < d < 16
    ensures HexDigit(d) != 0x30
  {
  }

  lemma {:induction false} HexIsWritten(n: nat)
    ensures WritesHex(Hex04(n), n)
  {
    hide HexDigit, HexValue;
    if n < 0x10000 {
      FourDigits(n);
    } else {
      HexIsWritten(n / 16);
      OneDigit(Hex04(n / 16), n % 16);
      assert Hex04(n)[0] == Hex04(n / 16)[0];
      if n / 16 < 0x10000 { LeadingDigit(n / 16 / 4096); }
    }
  }

  predicate DecimalText(s: seq<Byte>) {
    forall i :: 0 <= i < |s| ==> 0x30 <= s[i] < 0x3A
  }

  function DecimalValue(s: seq<Byte>): nat
    requires DecimalText(s)
  {
    if s == [] then 0
    else
      var b: int := s[|s| - 1];
      DecimalValue(s[..|s| - 1]) * 10 + (b - 0x30)
  }

  predicate WritesDecimal(s: seq<Byte>, n: nat) {
    && s != [] && DecimalText(s) && DecimalValue(s) == n
    && (|s| > 1 ==> s[0] != 0x30)
  }

  lemma {:induction false} DecimalIsWritten(n: nat)
    ensures WritesDecimal(Decimal(n), n)
  {
    if n < 10 {
      assert [0x30 + n as int as Byte][..0] == [];
    } else {
      DecimalIsWritten(n / 10);
      assert Decimal(n)[..|Decimal(n)| - 1] == Decimal(n / 10);
      assert n == n / 10 * 10 + n % 10;
    }
  }

  // ---------- the dump ----------

  /** The texts with a space between them. */
  function Spaced(texts: seq<seq<Byte>>): seq<Byte> {
    if texts == [] then [] else if |texts| == 1 then texts[0] else texts[0] + [0x20] + Spaced(texts[1..])
  }

  /** `c` is `s`, padded with spaces or cut to the width of `c`. */
  predicate Padded(c: seq<Byte>, s: seq<Byte>) {
    forall i :: 0 <= i < |c| ==> c[i] == if i < |s| then s[i] else 0x20
  }

  /** `codes` are the numbers of the pieces in `row`, written in hexadecimal. */
  predicate CodesOf(codes: seq<seq<Byte>>, row: seq<Piece>) {
    |codes| == |row| && forall k :: 0 <= k < |row| ==> WritesHex(codes[k], CodeOf(row[k]))
  }

  /** A line of the dump: in a column of five characters for every piece that a line has room for, less one, the numbers
      of its pieces; a space; and what is shown of them. */
  ghost predicate IsLine(line: seq<Byte>, row: seq<Piece>, runesPerLine: nat, graphic: nat -> bool)
    requires runesPerLine > 0 && AllFit(row)
  {
    && |line| >= 5 * runesPerLine && line[5 * runesPerLine - 1] == 0x20
    && line[5 * runesPerLine..] == AllShown(row, graphic)
    && exists codes :: CodesOf(codes, row) && Padded(line[..5 * runesPerLine - 1], Spaced(codes))
  }

  /** As many pieces as fit on a line, as long as there are any. */
  ghost predicate AreLines(lines: seq<seq<Byte>>, ps: seq<Piece>, runesPerLine: nat, graphic: nat -> bool)
    requires runesPerLine > 0 && AllFit(ps)
  {
    if ps == [] then lines == []
    else if |ps| <= runesPerLine then |lines| == 1 && IsLine(lines[0], ps, runesPerLine, graphic)
    else
      && lines != [] && IsLine(lines[0], ps[..runesPerLine], runesPerLine, graphic)
      && AreLines(lines[1..], ps[runesPerLine..], runesPerLine, graphic)
  }

  function CodesIn(cells: seq<Cell>): (codes: seq<seq<Byte>>)
    ensures |codes| == |cells| && forall k :: 0 <= k < |cells| ==> codes[k] == cells[k].code
  {
    if cells == [] then [] else [cells[0].code] + CodesIn(cells[1..])
  }

  lemma {:induction false} CodesAreSpaced(cells: seq<Cell>)
    ensures Codes(cells) == Spaced(CodesIn(cells))
  {
    if |cells| > 1 {
      CodesFromFront(cells);
      CodesAreSpaced(cells[1..]);
      assert CodesIn(cells)[1..] == CodesIn(cells[1..]);
    } else if |cells| == 1 {
      assert cells == [cells[0]] && cells[1..] == [];
    }
  }

  lemma ColumnIsPadded(s: seq<Byte>, w: nat)
    ensures Padded(Column(s, w), s)
  {
    if |s| < w {
      var pad := Spaces(w - |s|);
      assert forall i :: 0 <= i < |pad| ==> pad[i] in pad;
    }
  }

  /** The cells of a row, as they stand in the dump. */
  lemma RowIsLine(cells: seq<Cell>, row: seq<Piece>, runesPerLine: nat, graphic: nat -> bool)
    requires runesPerLine > 0 && AllFit(row) && |cells| == |row|
    requires forall k :: 0 <= k < |row| ==> cells[k].val == Shown(row[k], graphic) && cells[k].code == Hex04(CodeOf(row[k]))
    ensures IsLine(RowText(cells, runesPerLine), row, runesPerLine, graphic)
  {
    hide Codes, Values, Column, Shown, CodeOf, Hex04, WritesHex, Spaced, Padded;
    ValuesAreShown(cells, row, graphic);
    CodesAreSpaced(cells);
    var codes := CodesIn(cells);
    forall k | 0 <= k < |row| ensures WritesHex(codes[k], CodeOf(row[k])) {
      HexIsWritten(CodeOf(row[k]));
    }
    assert CodesOf(codes, row);
    ColumnIsPadded(Codes(cells), 5 * runesPerLine - 1);
    RowParts(cells, runesPerLine);
    assert RowText(cells, runesPerLine)[..5 * runesPerLine - 1] == Column(Codes(cells), 5 * runesPerLine - 1);
  }

  predicate SameCells(cells: seq<Cell>, ps: seq<Piece>, graphic: nat -> bool)
    requires AllFit(ps)
  {
    && |cells| == |ps|
    && forall k :: 0 <= k < |ps| ==> cells[k].val == Shown(ps[k], graphic) && cells[k].code == Hex04(CodeOf(ps[k]))
  }

  lemma {:induction false} RowsAreLines(cells: seq<Cell>, ps: seq<Piece>, lines: seq<seq<Byte>>, runesPerLine: nat,
                                        graphic: nat -> bool)
    requires runesPerLine > 0 && AllFit(ps) && SameCells(cells, ps, graphic)
    requires |lines| == |Rows(cells, runesPerLine)|
    requires forall k :: 0 <= k < |lines| ==> lines[k] == RowText(Rows(cells, runesPerLine)[k], runesPerLine)
    ensures AreLines(lines, ps, runesPerLine, graphic)
    decreases |ps|
  {
    hide RowText, IsLine, Shown, CodeOf, Hex04;
    var n := runesPerLine;
    if ps != [] {
      if |ps| <= n {
        RowIsLine(cells, ps, n, graphic);
      } else {
        RowIsLine(cells[..n], ps[..n], n, graphic);
        assert Rows(cells, n)[1..] == Rows(cells[n..], n);
        assert forall k :: 0 <= k < |lines| - 1 ==>
                 lines[1..][k] == lines[k + 1] && Rows(cells, n)[1..][k] == Rows(cells, n)[k + 1];
        RowsAreLines(cells[n..], ps[n..], lines[1..], n, graphic);
      }
    }
  }

  /** The dump of a payload, cut at its newlines, in terms of the payload's pieces. */
  lemma DumpMeans(ps: seq<Piece>, runesPerLine: nat, graphic: nat -> bool)
    requires runesPerLine > 0 && Segmented(ps) && !graphic(10)
    ensures AllFit(ps)
    ensures var dump := Dump(Bytes(ps), runesPerLine, graphic);
            if ps == [] then dump == []
            else AreLines(Split(dump), ps, runesPerLine, graphic)
                 && Beside(Split(dump), 5 * runesPerLine) == AllShown(ps, graphic)
  {
    SegmentsFit(ps);
    if ps != [] { NonemptyDump(ps, runesPerLine, graphic); }
  }

  lemma NonemptyDump(ps: seq<Piece>, runesPerLine: nat, graphic: nat -> bool)
    requires runesPerLine > 0 && Segmented(ps) && ps != [] && !graphic(10)
    ensures AllFit(ps)
    ensures AreLines(Split(Dump(Bytes(ps), runesPerLine, graphic)), ps, runesPerLine, graphic)
    ensures Beside(Split(Dump(Bytes(ps), runesPerLine, graphic)), 5 * runesPerLine) == AllShown(ps, graphic)
  {
    hide Segmented, RowText, Text, Split, Rows, Beside, Values, Cells, AreLines, Shown, CodeOf, Hex04, Flat;
    SegmentsFit(ps);
    NotEmpty(ps);
    CellsArePieces(ps, graphic);
    var p := Bytes(ps);
    var cells := Cells(p, graphic);
    PrintableRows(p, runesPerLine, graphic);
    SplitText(Rows(cells, runesPerLine), runesPerLine);
    RowsAreLines(cells, ps, Split(Text(Rows(cells, runesPerLine), runesPerLine)), runesPerLine, graphic);
    BesideDump(p, runesPerLine, graphic);
    ValuesAreShown(cells, ps, graphic);
  }

  // ---------- the short form ----------

  /** The end of the short form: an ellipsis if it is cut, and the size in decimal. */
  ghost predicate IsSuffix(s: seq<Byte>, cut: bool, length: nat) {
    exists digits ::
      && WritesDecimal(digits, length)
      && s == (if cut then [0x20, 0x2E, 0x2E, 0x2E, 0x20, 0x28] else [0x20, 0x28])
              + digits + [0x20, 0x62, 0x79, 0x74, 0x65, 0x73, 0x29]
  }

  lemma SuffixMeans(cut: bool, length: nat)
    ensures IsSuffix(Suffix(cut, length), cut, length)
  {
    hide WritesDecimal, Decimal;
    DecimalIsWritten(length);
    AsciiTexts();
  }

  lemma {:induction false} AsciiAt(text: string)
    requires forall i :: 0 <= i < |text| ==> text[i] as int < 0x80
    ensures |Ascii(text)| == |text| && forall i :: 0 <= i < |text| ==> Ascii(text)[i] == text[i] as int
  {
    if text != "" { AsciiAt(text[1..]); }
  }

  lemma AsciiTexts()
    ensures Ascii(" ... (") == [0x20, 0x2E, 0x2E, 0x2E, 0x20, 0x28]
    ensures Ascii(" (") == [0x20, 0x28]
    ensures Ascii(" bytes)") == [0x20, 0x62, 0x79, 0x74, 0x65, 0x73, 0x29]
  {
    hide Ascii;
    AsciiAt(" ... (");
    AsciiAt(" (");
    AsciiAt(" bytes)");
  }

  /** What is shown of the first pieces, up to the limit, and the size of all. */
  ghost predicate ShortOf(text: seq<Byte>, ps: seq<Piece>, cutLength: int, graphic: nat -> bool)
    requires AllFit(ps)
  {
    var limit := if cutLength < 0 then 0 else cutLength;
    var shown := if limit < |ps| then ps[..limit] else ps;
    exists suffix :: IsSuffix(suffix, limit < |ps|, |Bytes(ps)|) && text == AllShown(shown, graphic) + suffix
  }

  lemma ShortFormMeans(ps: seq<Piece>, cutLength: int, graphic: nat -> bool)
    requires Segmented(ps)
    ensures AllFit(ps) && ShortOf(ShortForm(Bytes(ps), cutLength, graphic), ps, cutLength, graphic)
  {
    hide Segmented, Values, Cells, Shown, CodeOf, Hex04, IsSuffix, Suffix, AllShown;
    SegmentsFit(ps);
    CellsArePieces(ps, graphic);
    var cells := Cells(Bytes(ps), graphic);
    var n := if cutLength < 0 then 0 else if cutLength < |ps| then cutLength else |ps|;
    ValuesAreShown(cells[..n], ps[..n], graphic);
    assert n == |ps| ==> ps[..n] == ps;
    SuffixMeans(n < |ps|, |Bytes(ps)|);
  }

  // ---------- nothing unsafe is shown ----------

  lemma {:induction false} ShownIsGraphic(ps: seq<Piece>, graphic: nat -> bool)
    requires AllFit(ps)
    ensures forall i :: 0 <= i < |AllShown(ps, graphic)| && AllShown(ps, graphic)[i] < 0x80 ==>
              graphic(AllShown(ps, graphic)[i])
  {
    hide Encode;
    if ps != [] { ShownIsGraphic(ps[1..], graphic); }
  }

  /** Whatever the payload, an ASCII octet beside the columns of the dump, or before the size in the short form, is
      graphic. */
  lemma OnlyGraphic(p: seq<Byte>, runesPerLine: nat, cutLength: int, graphic: nat -> bool)
    requires runesPerLine > 0 && p != [] && !graphic(10)
    ensures var beside := Beside(Split(Dump(p, runesPerLine, graphic)), 5 * runesPerLine);
            forall i :: 0 <= i < |beside| && beside[i] < 0x80 ==> graphic(beside[i])
    ensures exists shown: seq<Byte>, suffix: seq<Byte>, cut: bool ::
              && ShortForm(p, cutLength, graphic) == shown + suffix && IsSuffix(suffix, cut, |p|)
              && forall i :: 0 <= i < |shown| && shown[i] < 0x80 ==> graphic(shown[i])
  {
    hide Segmented, AllShown, IsSuffix, Dump, Beside, Split, ShortForm, AreLines;
    var ps := Segments(p);
    SegmentsFit(ps);
    NonemptyDump(ps, runesPerLine, graphic);
    ShownIsGraphic(ps, graphic);
    ShortFormMeans(ps, cutLength, graphic);
    var limit := if cutLength < 0 then 0 else cutLength;
    ShownIsGraphic(if limit < |ps| then ps[..limit] else ps, graphic);
  }
}
