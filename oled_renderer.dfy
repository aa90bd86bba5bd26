/**
 * The text that oled_renderer.py puts on the 128 x 64 display: the five
 * visible map lines, the high-score board lines, and the positions that
 * `draw_text_block` gives each line. Drawing itself is not modelled.
 */
module Renderer {
  import opened Wrappers
  import opened Game

  const Player := 'O'
  const VisibleRows := 5
  const ScreenWidth := 128
  const ScreenMidY := 32
  const GlyphWidth := 6

  /** The cells of a row joined by " | ". */
  function Join(cells: seq<char>): string
  {
    if |cells| <= 1 then cells else [cells[0]] + " | " + Join(cells[1..])
  }

  /** A map line as drawn: " " + the joined cells + " ". */
  function FrameLine(cells: seq<char>): string
  {
    " " + Join(cells) + " "
  }

  lemma {:induction false} JoinAt(cells: seq<char>, p: int)
    requires |cells| >= 1 && 0 <= p < 4 * |cells| - 3
    ensures |Join(cells)| == 4 * |cells| - 3
    ensures Join(cells)[p] == if p % 4 == 0 then cells[p / 4] else if p % 4 == 2 then '|' else ' '
  {
    if |cells| > 1 {
      var rest := Join(cells[1..]);
      JoinAt(cells[1..], if p >= 4 then p - 4 else 0);
      assert Join(cells) == [cells[0]] + " | " + rest;
      if p >= 4 {
        assert Join(cells)[p] == rest[p - 4];
        assert cells[1..][(p - 4) / 4] == cells[p / 4];
      }
    }
  }

  /**
   * A frame line of n cells is 4n - 1 characters long: cell j sits at
   * position 4j + 1, a '|' at every position 3 mod 4, blanks elsewhere.
   */
  lemma FrameLineAt(cells: seq<char>, p: int)
    requires |cells| >= 1 && 0 <= p < 4 * |cells| - 1
    ensures |FrameLine(cells)| == 4 * |cells| - 1
    ensures FrameLine(cells)[p] ==
      if p % 4 == 1 then cells[(p - 1) / 4] else if p % 4 == 3 then '|' else ' '
  {
    JoinAt(cells, 0);
    if 1 <= p < 4 * |cells| - 2 {
      JoinAt(cells, p - 1);
    }
  }

  /** Python's `seq[i]` for a possibly negative index; `None` is an IndexError. */
  function PyIndex<T>(s: seq<T>, i: int): Option<T>
  {
    if 0 <= i < |s| then Some(s[i]) else if -|s| <= i < 0 then Some(s[i + |s|]) else None
  }

  /**
   * The cells shown on screen line i: the map row `offset + i` when that
   * index is below the map's length (negative indices count from the end),
   * otherwise a blank row; line 4 carries the player at `playerCol`.
   */
  function ShownCells(mapData: seq<seq<char>>, playerCol: int, offset: int, i: int): Option<seq<char>>
    requires Rectangular(mapData) && 0 <= playerCol < Width
  {
    var index := offset + i;
    var row :=
      if index < |mapData| then PyIndex(mapData, index)
      else Some([Empty, Empty, Empty, Empty, Empty]);
    if row.None? then None
    else if i == VisibleRows - 1 then Some(row.value[playerCol := Player])
    else row
  }

  /**
   * The five visible lines of the map, or `None` when the window starts
   * more than the map's length before the first row (Python raises an
   * IndexError). The map itself is never changed: each row is copied.
   */
  function DrawMap(mapData: seq<seq<char>>, playerCol: int, offset: int): (lines: Option<seq<string>>)
    requires Rectangular(mapData) && 0 <= playerCol < Width
  {
    if exists i :: 0 <= i < VisibleRows && ShownCells(mapData, playerCol, offset, i).None? then None
    else Some(seq(VisibleRows, i requires 0 <= i < VisibleRows =>
                FrameLine(ShownCells(mapData, playerCol, offset, i).value)))
  }

  /** The map cell shown at lane j of screen line i (before the player is drawn). */
  function MapCell(mapData: seq<seq<char>>, offset: int, i: int, j: int): char
    requires Rectangular(mapData) && 0 <= j < Width && -|mapData| <= offset + i
  {
    var index := offset + i;
    if index >= |mapData| then Empty
    else if index >= 0 then mapData[index][j]
    else mapData[index + |mapData|][j]
  }

  /**
   * `DrawMap` fails exactly when the window starts before `-|mapData|`.
   * Otherwise it gives five lines of 19 characters; lane j of line i is at
   * position 4j + 1 and shows the map cell, except lane `playerCol` of the
   * last line, which shows the player.
   */
  lemma DrawMapLines(mapData: seq<seq<char>>, playerCol: int, offset: int, i: int, j: int)
    requires Rectangular(mapData) && 0 <= playerCol < Width
    requires 0 <= i < VisibleRows && 0 <= j < Width
    ensures DrawMap(mapData, playerCol, offset).None? <==> offset < -|mapData|
    ensures offset >= -|mapData| ==>
      var lines := DrawMap(mapData, playerCol, offset).value;
      |lines| == VisibleRows && |lines[i]| == 19 &&
      lines[i][4 * j + 1] == if i == VisibleRows - 1 && j == playerCol then Player else MapCell(mapData, offset, i, j)
  {
    if offset < -|mapData| {
      assert ShownCells(mapData, playerCol, offset, 0).None?;
    } else {
      assert forall k :: 0 <= k < VisibleRows ==> ShownCells(mapData, playerCol, offset, k).Some?;
      var cells := ShownCells(mapData, playerCol, offset, i).value;
      assert |cells| == Width;
      FrameLineAt(cells, 4 * j + 1);
    }
  }

  /**
   * On a well-formed map the player mark appears on the last line only, once,
   * at the player's lane.
   */
  lemma PlayerOnlyOnLastLine(mapData: seq<seq<char>>, playerCol: int, offset: int, i: int, p: int)
    requires WellFormed(mapData) && 0 <= playerCol < Width && offset >= -|mapData|
    requires 0 <= i < VisibleRows && 0 <= p < 19
    ensures DrawMap(mapData, playerCol, offset).Some? && |DrawMap(mapData, playerCol, offset).value[i]| == 19
    ensures DrawMap(mapData, playerCol, offset).value[i][p] == Player <==>
              i == VisibleRows - 1 && p == 4 * playerCol + 1
  {
    DrawMapLines(mapData, playerCol, offset, i, 0);
    var cells := ShownCells(mapData, playerCol, offset, i).value;
    assert |cells| == Width;
    FrameLineAt(cells, p);
    if p % 4 == 1 {
      var j := (p - 1) / 4;
      DrawMapLines(mapData, playerCol, offset, i, j);
      var index := offset + i;
      if 0 <= index < |mapData| {
        assert IsCell(mapData[index][j]);
      } else if index < 0 {
        assert IsCell(mapData[index + |mapData|][j]);
      }
    }
  }

  /**
   * The lines of the high-score board: the title, then the first three
   * entries, each missing entry shown as "-----".
   */
  function HighScoreBoard(scores: seq<string>): (lines: seq<string>)
    ensures |lines| == 4 && lines[0] == "< High Score >"
    ensures forall k :: 0 <= k < 3 ==> lines[k + 1] == if k < |scores| then scores[k] else "-----"
  {
    var title := ["< High Score >"];
    if |scores| == 0 then title + ["-----", "-----", "-----"]
    else title + seq(3, k requires 0 <= k < 3 => if k < |scores| then scores[k] else "-----")
  }

  datatype Align = Left | Center

  /** The x of a centred line: `(128 - 6 * len) // 2` (Dafny's `/` floors for a positive divisor, as Python's `//` does). */
  function CenterX(t: string): int {
    (ScreenWidth - GlyphWidth * |t|) / 2
  }

  /** The y of the first line: `32 - (n * spacing) // 2` without a start position. */
  function StartY(n: int, lineSpacing: int): int {
    ScreenMidY - (n * lineSpacing) / 2
  }

  /** Centring is exact: a centred line leaves equal margins left and right. */
  lemma CenterIsExact(t: string)
    ensures CenterX(t) + GlyphWidth * |t| + CenterX(t) == ScreenWidth
  {
    var half := 64 - 3 * |t|;
    assert ScreenWidth - GlyphWidth * |t| == 2 * half;
    assert (2 * half) / 2 == half;
    assert CenterX(t) == half;
  }

  /** A block without a start position is centred vertically, to within one pixel. */
  lemma StartYCentres(n: int, lineSpacing: int)
    ensures 0 <= 2 * StartY(n, lineSpacing) + n * lineSpacing - 2 * ScreenMidY <= 1
  {
  }

  /**
   * The positions `draw_text_block` gives its lines: x from the alignment,
   * y from the start position or the vertical centring, then one line
   * spacing per line.
   */
  method TextLayout(lines: seq<string>, align: Align := Left, startPos: Option<(int, int)> := None,
                    lineSpacing: int := 14)
    returns (pos: seq<(int, int)>)
    ensures |pos| == |lines|
    ensures forall k :: 0 <= k < |lines| ==>
      pos[k].1 == (if startPos.None? then StartY(|lines|, lineSpacing) else startPos.value.1) + k * lineSpacing
    ensures forall k :: 0 <= k < |lines| ==>
      pos[k].0 == if align == Center then CenterX(lines[k]) else if startPos.None? then 0 else startPos.value.0
  {
    var startX, startY;
    if startPos.None? {
      var totalHeight := |lines| * lineSpacing;
      startY := ScreenMidY - totalHeight / 2;
      startX := 0;
    } else {
      startX, startY := startPos.value.0, startPos.value.1;
    }
    var y := startY;
    pos := [];
    for k := 0 to |lines|
      invariant |pos| == k && y == startY + k * lineSpacing
      invariant forall m :: 0 <= m < k ==> pos[m] == (if align == Left then startX else CenterX(lines[m]), startY + m * lineSpacing)
    {
      var x;
      if align == Left {
        x := startX;
      } else {
        var textWidth := |lines[k]| * GlyphWidth;
        x := (ScreenWidth - textWidth) / 2;
      }
      pos := pos + [(x, y)];
      y := y + lineSpacing;
    }
  }
}
