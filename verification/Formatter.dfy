/** The payload formatter: its loops compute the dump and the short form of HexDump.dfy, and show of the payload's pieces
    what Pieces.dfy says. */
module Formatter {
  import opened Frames
  import opened HexDump
  import opened Pieces

  /** Whatever pieces the payload is made of, these are the lines for them. */
  ghost predicate IsDump(result: seq<Byte>, p: seq<Byte>, runesPerLine: nat, graphic: nat -> bool)
    requires runesPerLine > 0
  {
    forall ps :: Segmented(ps) && Bytes(ps) == p ==>
      if ps == [] then result == [] else AreLines(Split(result), ps, runesPerLine, graphic)
  }

  /** The first of the payload's pieces, and its size. */
  ghost predicate IsShort(result: seq<Byte>, p: seq<Byte>, cutLength: int, graphic: nat -> bool) {
    forall ps :: Segmented(ps) && Bytes(ps) == p ==> ShortOf(result, ps, cutLength, graphic)
  }

  lemma DumpIs(p: seq<Byte>, runesPerLine: nat, graphic: nat -> bool)
    requires runesPerLine > 0 && !graphic(10)
    ensures IsDump(Dump(p, runesPerLine, graphic), p, runesPerLine, graphic)
  {
    hide Dump, Segmented, AreLines, Split;
    forall ps | Segmented(ps)
      ensures AllFit(ps)
      ensures Bytes(ps) == p ==>
                if ps == [] then Dump(p, runesPerLine, graphic) == []
                else AreLines(Split(Dump(p, runesPerLine, graphic)), ps, runesPerLine, graphic)
    {
      DumpMeans(ps, runesPerLine, graphic);
    }
  }

  lemma ShortIs(p: seq<Byte>, cutLength: int, graphic: nat -> bool)
    ensures IsShort(ShortForm(p, cutLength, graphic), p, cutLength, graphic)
  {
    hide ShortForm, Segmented, ShortOf;
    forall ps | Segmented(ps)
      ensures AllFit(ps)
      ensures Bytes(ps) == p ==> ShortOf(ShortForm(p, cutLength, graphic), ps, cutLength, graphic)
    {
      ShortFormMeans(ps, cutLength, graphic);
    }
  }

  /** formatTerminalSafe. */
  method FormatTerminalSafe(bytes: seq<Byte>, runesPerLine: nat, graphic: nat -> bool) returns (result: seq<Byte>)
    requires runesPerLine > 0
    ensures result == Dump(bytes, runesPerLine, graphic)
    ensures !graphic(10) ==> IsDump(result, bytes, runesPerLine, graphic)
  {
    hide IsDump, ReplaceUnsafe, Laid, Covers, Line, Text, Rows, Cells, Flat;
    result := [];
    var codes: seq<Byte>, values: seq<Byte> := [], [];
    var c, i := 0, 0;
    ghost var rows: seq<seq<Cell>>, cur: seq<Cell> := [], [];
    Start(bytes, runesPerLine, graphic);
    while i < |bytes|
      invariant 0 <= i <= |bytes| && 0 <= c
      invariant Covers(rows, cur, bytes, i, graphic)
      invariant Laid(rows, cur, runesPerLine, result, codes, values)
      invariant |cur| < runesPerLine && c % runesPerLine == |cur|
      decreases |bytes| - i
    {
      var cell := ReplaceUnsafe(bytes[i..], graphic);
      NextCell(rows, cur, bytes, i, graphic);
      NextRemainder(c, runesPerLine);
      if c % runesPerLine == runesPerLine - 1 {
        RowEnds(rows, cur, cell, runesPerLine, result, codes, values);
      } else {
        RowGoesOn(rows, cur, cell, runesPerLine, result, codes, values);
      }
      codes := codes + cell.code;
      values := values + cell.val;
      if c % runesPerLine == runesPerLine - 1 {
        if result != [] {
          result := result + [NEWLINE];
        }
        result := result + Line(codes, values, runesPerLine);
        codes := [];
        values := [];
        rows, cur := rows + [cur + [cell]], [];
      } else {
        codes := codes + [SPACE];
        cur := cur + [cell];
      }
      i := i + cell.width;
      c := c + 1;
    }
    Covered(rows, cur, bytes, graphic);
    Finished(rows, cur, runesPerLine, result, codes, values);
    if !graphic(10) { DumpIs(bytes, runesPerLine, graphic); }
    if codes != [] {
      if result != [] {
        result := result + [NEWLINE];
      }
      result := result + Line(codes, values, runesPerLine);
    }
  }

  /** FormatPayload without the trace level. */
  method FormatShort(p: seq<Byte>, cutLength: int, graphic: nat -> bool) returns (result: seq<Byte>)
    ensures result == ShortForm(p, cutLength, graphic) && IsShort(result, p, cutLength, graphic)
  {
    hide IsShort, ReplaceUnsafe, Covers, Cells, Values, Suffix;
    result := [];
    var hasMore := false;
    var c, i := 0, 0;
    ghost var shown: seq<Cell> := [];
    Start(p, 1, graphic);
    NothingLaid();
    while i < |p|
      invariant 0 <= i <= |p|
      invariant Covers([], shown, p, i, graphic)
      invariant |shown| == c && (c == 0 || c <= cutLength) && result == Values(shown)
      decreases |p| - i
    {
      if c >= cutLength {
        hasMore := true;
        break;
      }
      var cell := ReplaceUnsafe(p[i..], graphic);
      NextCell([], shown, p, i, graphic);
      CodesAppended(shown, cell);
      result := result + cell.val;
      shown := shown + [cell];
      i := i + cell.width;
      c := c + 1;
    }
    CutAt(shown, p, i, graphic);
    result := result + Suffix(hasMore, |p|);
    ShortIs(p, cutLength, graphic);
  }

  method FormatPayload(payload: seq<Byte>, length: nat, cutLength: int, runesPerLine: int, trace: bool,
                       graphic: nat -> bool)
    returns (result: seq<Byte>)
    requires trace ==> runesPerLine > 0
    ensures var p := if length <= |payload| then payload[..length] else payload;
            && result == (if trace then Dump(p, runesPerLine, graphic) else ShortForm(p, cutLength, graphic))
            && (trace && !graphic(10) ==> IsDump(result, p, runesPerLine, graphic))
            && (!trace ==> IsShort(result, p, cutLength, graphic))
  {
    hide IsDump, IsShort, Dump, ShortForm;
    var n := if length > |payload| then |payload| else length;
    assert n == |payload| ==> payload[..n] == payload;
    if trace {
      result := FormatTerminalSafe(payload[..n], runesPerLine, graphic);
    } else {
      result := FormatShort(payload[..n], cutLength, graphic);
    }
  }
}
