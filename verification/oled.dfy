/**
 * The character-grid print buffer of the display output device: a buffer of `Height`
 * rows of `Width` characters and a cursor, updated in place by `print` with wrapping at
 * the right edge and scrolling at the bottom. Pixel rendering is not part of this model.
 */
module Oled {
  import opened Wrappers

  const Width: nat := 21
  const Height: nat := 7

  function BlankRow(): (r: string)
    ensures |r| == Width && forall k :: 0 <= k < |r| ==> r[k] == ' '
  {
    seq(Width, _ => ' ')
  }

  /** The buffer and cursor of a display. */
  datatype Grid = Grid(rows: seq<string>, row: nat, col: nat)

  predicate RowsFull(rows: seq<string>) {
    forall k :: 0 <= k < |rows| ==> |rows[k]| == Width
  }

  /** What holds while `print` walks over its text: rows may have been appended below. */
  predicate Working(g: Grid) {
    && RowsFull(g.rows)
    && |g.rows| >= Height
    && g.row < |g.rows|
    && g.col <= Width
    && (|g.rows| > Height ==> g.row == |g.rows| - 1)
  }

  /** What holds between two calls of `print`. */
  predicate Settled(g: Grid) {
    RowsFull(g.rows) && |g.rows| == Height && g.row < Height && g.col <= Width
  }

  function Initial(): (g: Grid)
    ensures Settled(g)
  {
    Grid(seq(Height, _ => BlankRow()), 0, 0)
  }

  /** A newline: cursor to column 0 of the next row, appending a blank row past the end. */
  function Newline(g: Grid): (r: Grid)
    requires Working(g)
    ensures Working(r)
    ensures r.row == g.row + 1 && r.col == 0
    ensures r.rows == if g.row + 1 == |g.rows| then g.rows + [BlankRow()] else g.rows
  {
    var row := g.row + 1;
    Grid(if row == |g.rows| then g.rows + [BlankRow()] else g.rows, row, 0)
  }

  /** A printable character: wrap first when the row is full, then overwrite one cell. */
  function PutChar(g: Grid, c: char): (r: Grid)
    requires Working(g)
    ensures Working(r)
    ensures g.col < Width ==> r.row == g.row && r.col == g.col + 1
    ensures g.col == Width ==> r.row == g.row + 1 && r.col == 1
  {
    var row := if g.col == Width then g.row + 1 else g.row;
    var col := if g.col == Width then 0 else g.col;
    var rows := if row == |g.rows| then g.rows + [BlankRow()] else g.rows;
    var line := rows[row];
    Grid(rows[row := line[..col] + [c] + line[col + 1..]], row, col + 1)
  }

  /**
   * A printable character lands in exactly one cell, the one before the new cursor; the
   * other cells of that row and all other rows keep their contents.
   */
  lemma PutCharCell(g: Grid, c: char)
    requires Working(g)
    ensures var r := PutChar(g, c);
      && r.rows[r.row][r.col - 1] == c
      && (forall k :: 0 <= k < Width && k != r.col - 1 ==>
            r.rows[r.row][k] == (if r.row < |g.rows| then g.rows[r.row][k] else ' '))
      && |r.rows| >= |g.rows|
      && (forall k :: 0 <= k < |g.rows| && k != r.row ==> r.rows[k] == g.rows[k])
  {
  }

  function CharStep(g: Grid, c: char): (r: Grid)
    requires Working(g)
    ensures Working(r)
  {
    if c == '\n' then Newline(g) else PutChar(g, c)
  }

  /** The effect of the per-character loop over `text`. */
  function Feed(g: Grid, text: string): (r: Grid)
    requires Working(g)
    ensures Working(r)
  {
    if |text| == 0 then g else CharStep(Feed(g, text[..|text| - 1]), text[|text| - 1])
  }

  /** After the loop: keep only the last `Height` rows, cursor on the last of them. */
  function Scroll(g: Grid): (r: Grid)
    requires Working(g)
    ensures Settled(r)
    ensures r.col == g.col && r.rows[r.row] == g.rows[g.row]
    ensures g.row >= Height ==> r.rows == g.rows[|g.rows| - Height..] && r.row == Height - 1
    ensures g.row < Height ==> r == g
  {
    if g.row >= Height then Grid(g.rows[|g.rows| - Height..], Height - 1, g.col) else g
  }

  /** The text `print(text, end)` lays out: `end` when given, a newline otherwise. */
  function Terminated(text: string, end: Option<string>): string {
    text + if end.None? then "\n" else end.value
  }

  function Printed(g: Grid, text: string, end: Option<string>): (r: Grid)
    requires Settled(g)
    ensures Settled(r)
  {
    Scroll(Feed(g, Terminated(text, end)))
  }

  /** `line` with the cells from `col` on replaced by `text`. */
  function Overwrite(line: string, col: nat, text: string): (r: string)
    requires col + |text| <= |line|
    ensures |r| == |line|
  {
    line[..col] + text + line[col + |text|..]
  }

  /** A printable character on a row that is not full overwrites the cell at the cursor. */
  lemma PutCharInRow(h: Grid, c: char)
    requires Working(h) && h.col < Width
    ensures PutChar(h, c) == Grid(h.rows[h.row := Overwrite(h.rows[h.row], h.col, [c])], h.row, h.col + 1)
  {
  }

  /** Overwriting one more cell after a written stretch extends the stretch. */
  lemma SpliceStep(line: string, col: nat, init: string, c: char)
    requires col + |init| < |line|
    ensures Overwrite(Overwrite(line, col, init), col + |init|, [c]) == Overwrite(line, col, init + [c])
  {
    var hl := Overwrite(line, col, init);
    assert hl[..col + |init|] == line[..col] + init;
    assert hl[col + |init| + 1..] == line[col + |init| + 1..];
  }

  /**
   * Characters without newlines that fit on the cursor's row are written over the cells
   * from the cursor on; every other cell of the row and every other row is unchanged.
   */
  lemma {:induction false} FeedInRow(g: Grid, text: string)
    requires Working(g)
    requires '\n' !in text && g.col + |text| <= Width
    ensures Feed(g, text).row == g.row && Feed(g, text).col == g.col + |text|
    ensures Feed(g, text).rows == g.rows[g.row := Overwrite(g.rows[g.row], g.col, text)]
  {
    var line := g.rows[g.row];
    if |text| > 0 {
      var n := |text| - 1;
      var init := text[..n];
      assert '\n' !in init by { assert forall x :: x in init ==> x in text; }
      FeedInRow(g, init);
      var h := Feed(g, init);
      assert text == init + [text[n]];
      assert Feed(g, text) == PutChar(h, text[n]);
      PutCharInRow(h, text[n]);
      SpliceStep(line, g.col, init, text[n]);
      assert h.rows[h.row] == Overwrite(line, g.col, init);
    } else {
      assert Overwrite(line, g.col, text) == line;
    }
  }

  /** A newline that does not run past the buffer only moves the cursor. */
  lemma NewlineInside(g: Grid)
    requires Settled(g) && g.row + 1 < Height
    ensures Printed(g, "", None) == Grid(g.rows, g.row + 1, 0)
  {
    assert Terminated("", None) == "\n";
    assert "\n"[..0] == "";
    assert Feed(g, "\n") == Newline(g);
  }

  /** A newline on the last row scrolls: the top row is dropped and a blank row appears. */
  lemma NewlineAtBottom(g: Grid)
    requires Settled(g) && g.row == Height - 1
    ensures Printed(g, "", None) == Grid(g.rows[1..] + [BlankRow()], Height - 1, 0)
  {
    assert Terminated("", None) == "\n";
    assert "\n"[..0] == "";
    assert Feed(g, "\n") == Newline(g);
    assert (g.rows + [BlankRow()])[1..] == g.rows[1..] + [BlankRow()];
  }

  class Display {
    const width: nat
    const height: nat
    var buffer: seq<string>
    var curRow: nat
    var curCol: nat

    function State(): Grid
      reads this
    {
      Grid(buffer, curRow, curCol)
    }

    predicate Valid()
      reads this
    {
      width == Width && height == Height && Settled(State())
    }

    constructor ()
      ensures Valid() && State() == Initial()
      ensures forall k :: 0 <= k < height ==> buffer[k] == BlankRow()
    {
      width := Width;
      height := Height;
      buffer := seq(Height, _ => BlankRow());
      curRow := 0;
      curCol := 0;
    }

    /** Lays `text` and its terminator out in the buffer, character by character. */
    method Print(text: string, end: Option<string>)
      requires Valid()
      modifies this
      ensures Valid()
      ensures State() == Printed(old(State()), text, end)
    {
      var t := text + if end.None? then "\n" else end.value;
      ghost var g0 := State();
      for i := 0 to |t|
        invariant width == Width && height == Height
        invariant Working(State())
        invariant State() == Feed(g0, t[..i])
      {
        assert t[..i + 1][..i] == t[..i];
        var c := t[i];
        if c == '\n' {
          NewRow();
        } else {
          WriteChar(c);
        }
      }
      assert t[..|t|] == t;
      if curRow >= height {
        buffer := buffer[|buffer| - height..];
        curRow := height - 1;
      }
    }

    /** The newline branch of the loop in `print`. */
    method NewRow()
      requires width == Width && Working(State())
      modifies this
      ensures State() == Newline(old(State()))
    {
      curRow := curRow + 1;
      curCol := 0;
      if curRow == |buffer| {
        buffer := buffer + [BlankRow()];
      }
    }

    /** The printable-character branch of the loop in `print`. */
    method WriteChar(c: char)
      requires width == Width && Working(State())
      modifies this
      ensures State() == PutChar(old(State()), c)
    {
      if curCol == width {
        curRow := curRow + 1;
        curCol := 0;
      }
      if curRow == |buffer| {
        buffer := buffer + [BlankRow()];
      }
      var line := buffer[curRow];
      buffer := buffer[curRow := line[..curCol] + [c] + line[curCol + 1..]];
      curCol := curCol + 1;
    }
  }
}
