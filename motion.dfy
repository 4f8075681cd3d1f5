/** The motion resolver: where each cursor motion puts the cursor, from the
    cursor's offset, the start offset and text of its line, and whether the
    caret is drawn thin. */
module Motion {

  /** Left and Right are the host's character moves; the other four are the
      plugin's own operations. */
  datatype MoveOperation = Left | Right | FirstNonBlankChar | LastChar | NextLine | PrevLine

  function Min(a: int, b: int): int {
    if a <= b then a else b
  }

  /** The only blanks the plugin skips are tab and space; line breaks,
      form feeds and non-breaking spaces are not blanks. */
  predicate IsTabOrSpace(ch: char)
    ensures IsTabOrSpace(ch) <==> ch in {'\t', ' '}
    ensures ch in {'\n', '\r', '\U{B}', '\U{C}', '\U{A0}'} ==> !IsTabOrSpace(ch)
  {
    ch == '\t' || ch == ' '
  }

  /** Index in `text` of the first character that is neither a tab nor a
      space, or |text| when there is none. */
  function FirstNonBlank(text: string): (r: nat)
    ensures r <= |text|
    ensures forall j :: 0 <= j < r ==> IsTabOrSpace(text[j])
    ensures r < |text| ==> !IsTabOrSpace(text[r])
  {
    if |text| == 0 || !IsTabOrSpace(text[0]) then 0 else 1 + FirstNonBlank(text[1..])
  }

  /** Leading indentation made of tabs and spaces is skipped whole: the first
      non-blank of an indented line is the indentation's width plus the first
      non-blank of the rest ("\t\t  hello" gives 4). */
  lemma {:induction false} IndentSkipped(indent: string, text: string)
    requires forall i :: 0 <= i < |indent| ==> IsTabOrSpace(indent[i])
    ensures FirstNonBlank(indent + text) == |indent| + FirstNonBlank(text)
    decreases |indent|
  {
    if indent != [] {
      assert (indent + text)[0] == indent[0];
      assert (indent + text)[1..] == indent[1..] + text;
      IndentSkipped(indent[1..], text);
    } else {
      assert indent + text == text;
    }
  }

  /** The scan the plugin runs: skip tabs and spaces from the start of the line. */
  method FirstNonBlankCharPos(text: string) returns (ix: nat)
    ensures ix == FirstNonBlank(text)
  {
    ix := 0;
    while ix < |text| && IsTabOrSpace(text[ix])
      invariant ix <= |text|
      invariant forall j :: 0 <= j < ix ==> IsTabOrSpace(text[j])
    {
      ix := ix + 1;
    }
  }

  /** Offset after moving `repeat` characters left from `pos`, stopping at `lineStart`. */
  function CharLeft(pos: int, lineStart: int, repeat: nat): (r: int)
    requires lineStart <= pos
    ensures lineStart <= r <= pos
    ensures pos - repeat >= lineStart ==> r == pos - repeat
    ensures pos - repeat < lineStart ==> r == lineStart
  {
    pos - Min(repeat, pos - lineStart)
  }

  /** The furthest offset a Right move may reach: one past the last character
      for a thin caret, the last character for a block caret. */
  function RightLimit(lineStart: int, len: nat, thin: bool): int {
    lineStart + len - (if thin then 0 else 1)
  }

  /** Offset after moving `repeat` characters right from `pos`: nothing moves on
      an empty line or at the limit; otherwise the move stops at the limit. */
  function CharRight(pos: int, lineStart: int, len: nat, thin: bool, repeat: nat): (r: int)
    ensures len == 0 || pos >= RightLimit(lineStart, len, thin) ==> r == pos
    ensures len > 0 && pos < RightLimit(lineStart, len, thin) ==>
      pos < r <= RightLimit(lineStart, len, thin) || (repeat == 0 && r == pos)
    ensures pos <= r <= pos + repeat
    ensures r == pos || r == pos + repeat || r == RightLimit(lineStart, len, thin)
  {
    if len == 0 then pos
    else
      var endpos := RightLimit(lineStart, len, thin);
      if pos >= endpos then pos else pos + Min(repeat, endpos - pos)
  }

  /** Offset of the last character of the line, or the line start when it is empty. */
  function LastCharPos(lineStart: int, len: nat): (r: int)
    ensures len > 0 ==> lineStart <= r < lineStart + len && r + 1 == lineStart + len
    ensures len == 0 ==> r == lineStart
  {
    var ix := if len != 0 then len - 1 else 0;
    lineStart + ix
  }

  /** A cursor on a document made of lines: a line index and a column. */
  datatype Cursor = Cursor(line: nat, col: nat)

  predicate ValidCursor(lines: seq<string>, c: Cursor) {
    c.line < |lines| && c.col <= |lines[c.line]|
  }

  /** Absolute offset of the first character of line `k` (each line is
      followed by one separator character). */
  function LineStart(lines: seq<string>, k: nat): nat
    requires k <= |lines|
  {
    if k == 0 then 0 else LineStart(lines, k - 1) + |lines[k - 1]| + 1
  }

  /** The host's NextBlock / PreviousBlock move repeated `n` times, as assumed
      here: it stops at the first or last line, lands at the start of the line
      it reaches, and leaves the cursor where it was when no line lies in that
      direction. */
  function BlockMove(lines: seq<string>, c: Cursor, forward: bool, n: nat): (r: Cursor)
    requires ValidCursor(lines, c)
    ensures ValidCursor(lines, r)
    ensures forward ==> r.line == Min(c.line + n, |lines| - 1)
    ensures !forward ==> r.line == if c.line >= n then c.line - n else 0
    ensures r.line == c.line ==> r == c
    ensures r.line != c.line ==> r.col == 0
  {
    var target := if forward then Min(c.line + n, |lines| - 1)
                  else if c.line >= n then c.line - n else 0;
    if target == c.line then c else Cursor(target, 0)
  }

  /** `moveToFirstNonBlankChar`: on a non-empty line, jump to its first non-blank character. */
  function ToFirstNonBlank(lines: seq<string>, c: Cursor): (r: Cursor)
    requires ValidCursor(lines, c)
    ensures ValidCursor(lines, r) && r.line == c.line
    ensures |lines[c.line]| > 0 ==> r.col == FirstNonBlank(lines[c.line])
    ensures |lines[c.line]| == 0 ==> r == c
  {
    if |lines[c.line]| > 0 then Cursor(c.line, FirstNonBlank(lines[c.line])) else c
  }

  /** Where `moveCursor(op, repeat)` puts the cursor, stated per line. */
  function Resolve(op: MoveOperation, repeat: nat, lines: seq<string>, c: Cursor, thin: bool): (r: Cursor)
    requires ValidCursor(lines, c)
    ensures ValidCursor(lines, r)
    ensures op == Left ==> r.line == c.line && r.col == if c.col >= repeat then c.col - repeat else 0
    ensures op == Right ==> r.line == c.line && c.col <= r.col <= c.col + repeat
    ensures op == Right && (|lines[c.line]| == 0 || c.col >= |lines[c.line]| - (if thin then 0 else 1)) ==> r == c
    ensures op == Right && |lines[c.line]| > 0 && c.col < |lines[c.line]| - (if thin then 0 else 1) ==>
      r.col == Min(c.col + repeat, |lines[c.line]| - (if thin then 0 else 1))
    ensures op == FirstNonBlankChar ==> r == Cursor(c.line, FirstNonBlank(lines[c.line]))
    ensures op == LastChar ==> r.line == c.line && r.col == if |lines[c.line]| == 0 then 0 else |lines[c.line]| - 1
    ensures op == NextLine ==> r.line == Min(c.line + repeat, |lines| - 1) && r.col == FirstNonBlank(lines[r.line])
    ensures op == PrevLine ==> r.line == (if c.line >= repeat then c.line - repeat else 0) && r.col == FirstNonBlank(lines[r.line])
  {
    var text := lines[c.line];
    var start := LineStart(lines, c.line);
    match op
    case Left => Cursor(c.line, CharLeft(start + c.col, start, repeat) - start)
    case Right => Cursor(c.line, CharRight(start + c.col, start, |text|, thin, repeat) - start)
    case FirstNonBlankChar => Cursor(c.line, FirstNonBlank(text))
    case LastChar => Cursor(c.line, LastCharPos(start, |text|) - start)
    case NextLine => ToFirstNonBlank(lines, BlockMove(lines, c, true, repeat))
    case PrevLine => ToFirstNonBlank(lines, BlockMove(lines, c, false, repeat))
  }
}
