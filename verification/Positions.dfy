/** Byte offsets to LSP positions and back. A position counts lines ended by a newline and, within
    the line, UTF-16 code units (section 2.1 of RFC 2781). */
module Positions {
  import opened Utf8
  import Utf16

  const U32_SIZE := 0x1_0000_0000

  type U32 = n: nat | n < U32_SIZE

  datatype Position = Position(line: nat, character: nat)

  const NEWLINE: Byte := 10

  function Utf16Width(c: char): (width: nat)
    ensures 1 <= width <= Width(c) && width <= 2
  {
    if c as int < 0x1_0000 then 1 else 2
  }

  function Utf16Len(text: string): nat {
    if text == [] then 0 else Utf16Len(text[..|text| - 1]) + Utf16Width(text[|text| - 1])
  }

  // ----- What positions mean, character by character

  /** Where the cursor stands after `k` characters. */
  function PositionAfter(text: string, k: nat): Position
    requires k <= |text|
  {
    if k == 0 then Position(0, 0)
    else
      var before := PositionAfter(text, k - 1);
      if text[k - 1] == '\n' then Position(before.line + 1, 0)
      else Position(before.line, before.character + Utf16Width(text[k - 1]))
  }

  /** The 32-bit casts. */
  function Truncated(p: Position): Position {
    Position(p.line % U32_SIZE, p.character % U32_SIZE)
  }

  predicate Before(p: Position, q: Position) {
    p.line < q.line || (p.line == q.line && p.character < q.character)
  }

  /** The first boundary from `k` on that is on the wanted line and at or past the wanted column or
      at the line's newline; the end of the text if there is none. */
  function Seek(text: string, p: Position, k: nat): (found: nat)
    requires k <= |text|
    ensures k <= found <= |text|
    decreases |text| - k
  {
    if k == |text| then k
    else
      var here := PositionAfter(text, k);
      if here.line == p.line && (p.character <= here.character || text[k] == '\n') then k
      else Seek(text, p, k + 1)
  }

  /** The byte offset a position names. */
  function OffsetOf(text: string, p: Position): nat {
    ByteAt(text, Seek(text, p, 0))
  }

  /** The position a byte offset names: that of the last boundary at or before it. */
  function PositionOf(text: string, b: nat): Position {
    PositionAfter(text, Floor(text, b))
  }

  // ----- The main results

  lemma {:induction false} PositionsAscend(text: string, i: nat, j: nat)
    requires i < j <= |text|
    ensures Before(PositionAfter(text, i), PositionAfter(text, j))
    decreases j
  {
    if i + 1 < j {
      PositionsAscend(text, i, j - 1);
    }
  }

  /** `position` is strictly increasing on the character boundaries. */
  lemma PositionIsStrictlyIncreasing(text: string, i: nat, j: nat)
    requires i < j <= |text|
    ensures Before(PositionOf(text, ByteAt(text, i)), PositionOf(text, ByteAt(text, j)))
  {
    FloorOfBoundary(text, i);
    FloorOfBoundary(text, j);
    PositionsAscend(text, i, j);
  }

  lemma {:induction false} SeekFindsItsBoundary(text: string, k: nat, from: nat)
    requires from <= k <= |text|
    ensures Seek(text, PositionAfter(text, k), from) == k
    decreases k - from
  {
    if from < k {
      PositionsAscend(text, from, k);
      if text[from] == '\n' && PositionAfter(text, from).line == PositionAfter(text, k).line {
        PositionsOrdered(text, from + 1, k);
      }
      SeekFindsItsBoundary(text, k, from + 1);
    }
  }

  lemma PositionsOrdered(text: string, i: nat, j: nat)
    requires i <= j <= |text|
    ensures PositionAfter(text, i).line <= PositionAfter(text, j).line
  {
  }

  /** `offset` undoes `position` at every character boundary. */
  lemma OffsetUndoesPosition(text: string, b: nat)
    requires Boundary(text, b)
    ensures OffsetOf(text, PositionOf(text, b)) == b
  {
    var k :| 0 <= k <= |text| && ByteAt(text, k) == b;
    FloorOfBoundary(text, k);
    SeekFindsItsBoundary(text, k, 0);
  }

  /** `offset` always lands on a boundary, and going there and back again stays there. */
  lemma OffsetIsAStableBoundary(text: string, p: Position)
    ensures Boundary(text, OffsetOf(text, p))
    ensures OffsetOf(text, PositionOf(text, OffsetOf(text, p))) == OffsetOf(text, p)
  {
    OffsetUndoesPosition(text, OffsetOf(text, p));
  }

  /** `position` of any byte is that of the largest boundary at or below it. */
  lemma PositionFloors(text: string, b: nat, k: nat)
    requires k <= |text| && ByteAt(text, k) <= b
    requires k < |text| ==> b < ByteAt(text, k + 1)
    ensures PositionOf(text, b) == PositionAfter(text, k)
  {
    FloorIs(text, b, k);
  }

  /** What `offset` clamps to: on a line the text has, the first boundary of that line at or past
      the column, else the line's last boundary; past the last line, the end of the text. */
  lemma {:induction false} SeekClamps(text: string, p: Position, from: nat)
    requires from <= |text| && PositionAfter(text, from).line <= p.line
    requires PositionAfter(text, from).line == p.line ==>
      (from == 0 || text[from - 1] == '\n' || PositionAfter(text, from - 1).character < p.character)
    ensures var k := Seek(text, p, from);
      && PositionAfter(text, k).line <= p.line
      && (PositionAfter(text, k).line < p.line ==> k == |text|)
      && (PositionAfter(text, k).line == p.line && PositionAfter(text, k).character < p.character ==>
            k == |text| || text[k] == '\n')
      && (PositionAfter(text, k).line == p.line ==>
            k == 0 || text[k - 1] == '\n' || PositionAfter(text, k - 1).character < p.character)
    decreases |text| - from
  {
    if from < |text| {
      var here := PositionAfter(text, from);
      if !(here.line == p.line && (p.character <= here.character || text[from] == '\n')) {
        SeekClamps(text, p, from + 1);
      }
    }
  }

  lemma {:induction false} LengthsBounded(text: string, k: nat)
    requires k <= |text|
    ensures PositionAfter(text, k).line <= k <= ByteAt(text, k)
    ensures PositionAfter(text, k).character <= ByteAt(text, k)
  {
    if k > 0 {
      LengthsBounded(text, k - 1);
    }
  }

  /** A text shorter than 2^32 bytes has no position a 32-bit cast would change. */
  lemma PositionsFit(text: string, k: nat)
    requires k <= |text| && ByteAt(text, |text|) < U32_SIZE
    ensures PositionAfter(text, k).line < U32_SIZE && PositionAfter(text, k).character < U32_SIZE
    ensures Truncated(PositionAfter(text, k)) == PositionAfter(text, k)
  {
    LengthsBounded(text, k);
    ByteAtGrows(text, k, |text|);
  }

  // ----- Lines

  /** The boundary at which the line holding boundary `k` starts. */
  function LineStart(text: string, k: nat): (start: nat)
    requires k <= |text|
    ensures start <= k
  {
    if k == 0 || text[k - 1] == '\n' then k else LineStart(text, k - 1)
  }

  /** The byte offsets at which the lines of the first `k` characters start. */
  function LineStarts(text: string, k: nat): (starts: seq<nat>)
    requires k <= |text|
    ensures |starts| == PositionAfter(text, k).line + 1
    ensures starts[|starts| - 1] == ByteAt(text, LineStart(text, k))
  {
    if k == 0 then [0]
    else if text[k - 1] == '\n' then LineStarts(text, k - 1) + [ByteAt(text, k)]
    else LineStarts(text, k - 1)
  }

  /** The same, read off the bytes. */
  function NewlineStarts(bytes: Bytes, b: nat): seq<nat>
    requires b <= |bytes|
  {
    if b == 0 then [0]
    else if bytes[b - 1] == NEWLINE then NewlineStarts(bytes, b - 1) + [b]
    else NewlineStarts(bytes, b - 1)
  }

  lemma {:induction false} NoNewlineWithin(text: string, k: nat, b: nat)
    requires k < |text| && ByteAt(text, k) <= b <= ByteAt(text, k + 1) <= |Encode(text)|
    requires text[k] != '\n'
    ensures NewlineStarts(Encode(text), b) == NewlineStarts(Encode(text), ByteAt(text, k))
    decreases b
  {
    if ByteAt(text, k) < b {
      ByteOfChar(text, k, b - 1);
      NoNewlineWithin(text, k, b - 1);
    }
  }

  /** Counting newline bytes finds the same lines as counting newline characters. */
  lemma {:induction false} NewlineBytesAreLines(text: string, k: nat)
    requires k <= |text|
    ensures ByteAt(text, k) <= |Encode(text)|
    ensures NewlineStarts(Encode(text), ByteAt(text, k)) == LineStarts(text, k)
  {
    EncodedLength(text);
    ByteAtGrows(text, k, |text|);
    if k > 0 {
      NewlineBytesAreLines(text, k - 1);
      if text[k - 1] == '\n' {
        ByteOfChar(text, k - 1, ByteAt(text, k - 1));
        assert ByteAt(text, k) == ByteAt(text, k - 1) + 1;
      } else {
        NoNewlineWithin(text, k - 1, ByteAt(text, k));
      }
    }
  }

  lemma {:induction false} EarlierLines(text: string, j: nat, k: nat)
    requires j <= k <= |text|
    ensures |LineStarts(text, j)| <= |LineStarts(text, k)|
    ensures LineStarts(text, k)[..|LineStarts(text, j)|] == LineStarts(text, j)
    ensures forall l :: |LineStarts(text, j)| <= l < |LineStarts(text, k)| ==> ByteAt(text, j) < LineStarts(text, k)[l]
    decreases k
  {
    if j < k {
      EarlierLines(text, j, k - 1);
      ByteAtGrows(text, j, k);
    }
  }

  lemma {:induction false} LineStartsAscend(text: string, k: nat)
    requires k <= |text|
    ensures forall i, j :: 0 <= i < j < |LineStarts(text, k)| ==> LineStarts(text, k)[i] < LineStarts(text, k)[j]
    ensures forall i :: 0 <= i < |LineStarts(text, k)| ==> LineStarts(text, k)[i] <= ByteAt(text, k)
  {
    if k > 0 {
      LineStartsAscend(text, k - 1);
    }
  }

  lemma {:induction false} ColumnIsUtf16Length(text: string, k: nat)
    requires k <= |text|
    ensures Utf16Len(text[LineStart(text, k)..k]) == PositionAfter(text, k).character
  {
    if k > 0 && text[k - 1] != '\n' {
      ColumnIsUtf16Length(text, k - 1);
      var start := LineStart(text, k);
      assert text[start..k][..k - start - 1] == text[start..k - 1];
    }
  }

  lemma {:induction false} Utf16LenCountsUnits(text: string)
    ensures Utf16Len(text) == |Utf16.Encode(text)|
    decreases |text|
  {
    if text != [] {
      Utf16LenCountsUnits(text[..|text| - 1]);
    }
  }

  lemma {:induction false} LineStartIsAfterTheLastNewline(text: string, k: nat)
    requires k <= |text|
    ensures var start := LineStart(text, k);
      && (start == 0 || text[start - 1] == '\n')
      && (forall i :: start <= i < k ==> text[i] != '\n')
  {
    if k > 0 && text[k - 1] != '\n' {
      LineStartIsAfterTheLastNewline(text, k - 1);
    }
  }

  lemma {:induction false} LinesCountNewlines(text: string, k: nat)
    requires k <= |text|
    ensures PositionAfter(text, k).line == multiset(text[..k])['\n']
  {
    if k > 0 {
      LinesCountNewlines(text, k - 1);
      assert text[..k] == text[..k - 1] + [text[k - 1]];
    }
  }

  /** A position counts the newlines before it and the UTF-16 units since the last one. */
  lemma PositionCounts(text: string, k: nat, start: nat)
    requires start <= k <= |text| && (start == 0 || text[start - 1] == '\n')
    requires forall i :: start <= i < k ==> text[i] != '\n'
    ensures PositionAfter(text, k) == Position(multiset(text[..k])['\n'], |Utf16.Encode(text[start..k])|)
  {
    LineStartIsAfterTheLastNewline(text, k);
    ColumnIsUtf16Length(text, k);
    Utf16LenCountsUnits(text[start..k]);
    LinesCountNewlines(text, k);
  }

  /** Every line after the first is started by a newline. */
  lemma {:induction false} LineStartsALine(text: string, line: nat, k: nat) returns (start: nat)
    requires k <= |text| && line < |LineStarts(text, k)|
    ensures start <= k && LineStarts(text, k)[line] == ByteAt(text, start)
    ensures PositionAfter(text, start) == Position(line, 0)
    decreases k
  {
    if k == 0 {
      start := 0;
    } else if line < |LineStarts(text, k - 1)| {
      start := LineStartsALine(text, line, k - 1);
    } else {
      start := k;
    }
  }

  /** Lookup by byte offset finds the line of the boundary. */
  lemma LineOfBoundary(text: string, k: nat, line: nat)
    requires k <= |text| && line < |LineStarts(text, |text|)| && LineStarts(text, |text|)[line] <= ByteAt(text, k)
    requires line + 1 < |LineStarts(text, |text|)| ==> ByteAt(text, k) < LineStarts(text, |text|)[line + 1]
    ensures line == PositionAfter(text, k).line
    ensures LineStarts(text, |text|)[line] == ByteAt(text, LineStart(text, k))
  {
    var all, sofar := LineStarts(text, |text|), LineStarts(text, k);
    EarlierLines(text, k, |text|);
    LineStartsAscend(text, |text|);
    ByteAtGrows(text, LineStart(text, k), k);
    assert all[|sofar| - 1] == sofar[|sofar| - 1];
  }

  lemma {:induction false} SeekPastTheEnd(text: string, p: Position, from: nat)
    requires from <= |text| && PositionAfter(text, |text|).line < p.line
    ensures Seek(text, p, from) == |text|
    decreases |text| - from
  {
    if from < |text| {
      PositionsOrdered(text, from, |text|);
      SeekPastTheEnd(text, p, from + 1);
    }
  }

  lemma {:induction false} SeekSkipsLines(text: string, p: Position, start: nat, from: nat)
    requires from <= start <= |text| && PositionAfter(text, start) == Position(p.line, 0)
    ensures Seek(text, p, from) == Seek(text, p, start)
    decreases start - from
  {
    if from < start {
      PositionsAscend(text, from, start);
      SeekSkipsLines(text, p, start, from + 1);
    }
  }

  lemma FloorAscends(text: string, from: nat, to: nat)
    requires from <= to
    ensures Floor(text, from) <= Floor(text, to)
  {
    if Floor(text, to) < Floor(text, from) {
      ByteAtGrows(text, Floor(text, to) + 1, Floor(text, from));
    }
  }

  // ----- The index

  class LineIndex {
    const text: string
    var lineStarts: seq<nat>

    ghost predicate Valid()
      reads this
    {
      lineStarts == LineStarts(text, |text|)
    }

    constructor (text: string)
      ensures Valid() && this.text == text
    {
      this.text := text;
      var bytes := Encode(text);
      var starts := [0];
      for b := 0 to |bytes|
        invariant starts == NewlineStarts(bytes, b)
      {
        if bytes[b] == NEWLINE {
          starts := starts + [b + 1];
        }
      }
      EncodedLength(text);
      NewlineBytesAreLines(text, |text|);
      lineStarts := starts;
    }

    /** The line of a byte offset: the last one that starts at or before it. */
    method LineOf(b: nat) returns (line: nat)
      requires Valid()
      ensures line < |lineStarts| && lineStarts[line] <= b
      ensures line + 1 < |lineStarts| ==> b < lineStarts[line + 1]
    {
      LineStartsAscend(text, |text|);
      EarlierLines(text, 0, |text|);
      line := 0;
      var past := |lineStarts|;
      while line + 1 < past
        invariant line < past <= |lineStarts|
        invariant lineStarts[line] <= b
        invariant past < |lineStarts| ==> b < lineStarts[past]
      {
        var middle := line + (past - line) / 2;
        if lineStarts[middle] <= b {
          line := middle;
        } else {
          past := middle;
        }
      }
    }

    /** The characters between two boundaries. */
    function Slice(from: nat, to: nat): string
      requires from <= to
    {
      FloorAscends(text, from, to);
      text[Floor(text, from)..Floor(text, to)]
    }

    lemma ClampKeepsFloor(b: nat)
      ensures Floor(text, b) == Floor(text, if b < |Encode(text)| then b else |Encode(text)|)
    {
      EncodedLength(text);
      FloorOfBoundary(text, |text|);
    }

    lemma SliceOfLine(k: nat)
      requires k <= |text|
      ensures ByteAt(text, LineStart(text, k)) <= ByteAt(text, k)
      ensures Utf16Len(Slice(ByteAt(text, LineStart(text, k)), ByteAt(text, k))) == PositionAfter(text, k).character
    {
      ByteAtGrows(text, LineStart(text, k), k);
      FloorOfBoundary(text, LineStart(text, k));
      FloorOfBoundary(text, k);
      ColumnIsUtf16Length(text, k);
    }

    method Utf16Units(slice: string) returns (units: nat)
      ensures units == Utf16Len(slice)
    {
      units := 0;
      for i := 0 to |slice|
        invariant units == Utf16Len(slice[..i])
      {
        assert slice[..i + 1][..i] == slice[..i];
        units := units + Utf16Width(slice[i]);
      }
      assert slice[..|slice|] == slice;
    }

    method PositionOfByte(b: nat) returns (position: Position)
      requires Valid()
      ensures position == Truncated(PositionOf(text, b))
    {
      var size := |Encode(text)|;
      ClampKeepsFloor(b);
      var at := FloorCharBoundary(text, if b < size then b else size);
      ghost var k := Floor(text, b);
      var line := LineOf(at);
      LineOfBoundary(text, k, line);
      SliceOfLine(k);
      var character := Utf16Units(Slice(lineStarts[line], at));
      position := Truncated(Position(line, character));
    }

    /** Where line `line` lies: its first boundary and the one after its newline, if it has one. */
    lemma LineExtent(line: nat, lineStart: nat, lineEnd: nat) returns (start: nat, end: nat)
      requires Valid() && line < |lineStarts| && lineStart == lineStarts[line]
      requires lineEnd == if line + 1 < |lineStarts| then lineStarts[line + 1] else |Encode(text)|
      ensures start <= end <= |text| && lineStart == ByteAt(text, start) <= lineEnd
      ensures Slice(lineStart, lineEnd) == text[start..end]
      ensures PositionAfter(text, start) == Position(line, 0)
      ensures end < |text| ==> PositionAfter(text, end).line != line
    {
      EncodedLength(text);
      start := LineStartsALine(text, line, |text|);
      end := |text|;
      if line + 1 < |lineStarts| {
        end := LineStartsALine(text, line + 1, |text|);
      }
      if end < start {
        PositionsAscend(text, end, start);
      }
      ByteAtGrows(text, start, end);
      FloorOfBoundary(text, start);
      FloorOfBoundary(text, end);
    }

    /** Walk the characters of a line to its first boundary at or past the column. */
    method Walk(lineStart: nat, slice: string, character: U32, ghost line: nat, ghost start: nat) returns (b: nat)
      requires start + |slice| <= |text| && slice == text[start..start + |slice|]
      requires lineStart == ByteAt(text, start) && PositionAfter(text, start) == Position(line, 0)
      requires start + |slice| < |text| ==> PositionAfter(text, start + |slice|).line != line
      requires ByteAt(text, |text|) < U32_SIZE
      ensures b == ByteAt(text, Seek(text, Position(line, character), start))
    {
      var utf16: U32 := 0;
      b := lineStart;
      var i := 0;
      while i < |slice| && !(character <= utf16 || slice[i] == '\n')
        invariant i <= |slice|
        invariant b == ByteAt(text, start + i)
        invariant PositionAfter(text, start + i) == Position(line, utf16)
        invariant Seek(text, Position(line, character), start) == Seek(text, Position(line, character), start + i)
      {
        PositionsFit(text, start + i + 1);
        b := b + Width(slice[i]);
        utf16 := utf16 + Utf16Width(slice[i]);
        i := i + 1;
      }
    }

    method OffsetOfPosition(line: U32, character: U32) returns (b: nat)
      requires Valid() && ByteAt(text, |text|) < U32_SIZE
      ensures b == OffsetOf(text, Position(line, character))
    {
      if |lineStarts| <= line {
        EncodedLength(text);
        SeekPastTheEnd(text, Position(line, character), 0);
        return |Encode(text)|;
      }
      var lineStart := lineStarts[line];
      var lineEnd := if line + 1 < |lineStarts| then lineStarts[line + 1] else |Encode(text)|;
      ghost var start, end := LineExtent(line, lineStart, lineEnd);
      SeekSkipsLines(text, Position(line, character), start, 0);
      b := Walk(lineStart, Slice(lineStart, lineEnd), character, line, start);
    }
  }
}
