/** The input footer: how the buffer is drawn, wrapped and scrolled, and where the cursor
    lands (src/moot/spoke/tui.py). */
module Footer {
  /** What the character tables say; any tables do. */
  datatype Glyphs = Glyphs(combining: set<char>, wide: set<char>)
  {
    function Width(c: char): nat {
      if c in combining then 0 else if c in wide then 2 else 1
    }
  }

  const PROMPT: string := "\U{203A} "
  const MAX_INPUT_ROWS: nat := 5

  function CellWidth(g: Glyphs, text: string): nat {
    if text == [] then 0 else CellWidth(g, text[..|text| - 1]) + g.Width(text[|text| - 1])
  }

  // ------------------------------------------------------------------ display form

  /** Control characters are shown, never sent: caret notation, or a replacement mark. */
  function DisplayChar(c: char): string {
    if c == '\n' then [c]
    else if c as int < 0x20 then ['^', ((c as int) + 0x40) as char]
    else if c as int == 0x7F then "^?"
    else if 0x80 <= c as int <= 0x9F then "\U{FFFD}"
    else [c]
  }

  function Display(text: string): string {
    if text == [] then [] else Display(text[..|text| - 1]) + DisplayChar(text[|text| - 1])
  }

  predicate Harmless(c: char) {
    c == '\n' || (c as int >= 0x20 && !(0x7F <= c as int <= 0x9F))
  }

  function Upto(text: string, pos: nat): string {
    if pos <= |text| then text[..pos] else text
  }

  method DisplayForm(text: string) returns (out: string)
    ensures out == Display(text)
  {
    out := "";
    for i := 0 to |text|
      invariant out == Display(text[..i])
    {
      assert text[..i + 1][..i] == text[..i];
      var c := text[i];
      var o := c as int;
      if c == '\n' {
        out := out + [c];
      } else if o < 0x20 {
        out := out + ['^', (o + 0x40) as char];
      } else if o == 0x7F {
        out := out + "^?";
      } else if 0x80 <= o <= 0x9F {
        out := out + "\U{FFFD}";
      } else {
        out := out + [c];
      }
    }
    assert text[..|text|] == text;
  }

  method DisplayPos(text: string, pos: nat) returns (k: nat)
    ensures k == |Display(Upto(text, pos))|
    ensures k <= |Display(text)| && Display(text)[..k] == Display(Upto(text, pos))
  {
    hide Display, DisplayChar;
    var shown := DisplayForm(Upto(text, pos));
    k := |shown|;
    DisplayPrefix(Upto(text, pos), text[|Upto(text, pos)|..]);
    assert Upto(text, pos) + text[|Upto(text, pos)|..] == text;
  }

  lemma {:induction false} DisplayPrefix(a: string, b: string)
    ensures Display(a + b) == Display(a) + Display(b)
  {
    hide Display, DisplayChar;
    if b == [] {
      assert a + b == a;
      DisplayNothing();
    } else {
      var init, c := b[..|b| - 1], b[|b| - 1];
      DisplayPrefix(a, init);
      DisplayGrows(a + init, c);
      DisplayGrows(init, c);
      assert a + b == a + init + [c] && b == init + [c];
    }
  }

  lemma DisplayNothing()
    ensures Display([]) == []
  {
  }

  lemma DisplayGrows(text: string, c: char)
    ensures Display(text + [c]) == Display(text) + DisplayChar(c)
  {
    hide DisplayChar;
    assert (text + [c])[..|text|] == text;
  }

  /** The terminal never sees a control character, and no character disappears. */
  lemma {:induction false} DisplayIsHarmless(text: string)
    ensures forall i :: 0 <= i < |Display(text)| ==> Harmless(Display(text)[i])
    ensures |Display(text)| >= |text|
  {
    if text != [] {
      DisplayIsHarmless(text[..|text| - 1]);
    }
  }

  /** What is harmless already is drawn as it is. */
  lemma {:induction false} DisplayIsStable(text: string)
    requires forall i :: 0 <= i < |text| ==> Harmless(text[i])
    ensures Display(text) == text
  {
    if text != [] {
      DisplayIsStable(text[..|text| - 1]);
    }
  }

  // ------------------------------------------------------------------ wrapping

  function LastRow(rows: seq<string>): string
    requires rows != []
  {
    rows[|rows| - 1]
  }

  /** The rows after one more character. */
  function AddChar(g: Glyphs, width: nat, rows: seq<string>, c: char): (r: seq<string>)
    requires rows != []
    ensures r != []
  {
    if c == '\n' then rows + [""]
    else if CellWidth(g, LastRow(rows)) + g.Width(c) > width then rows + [[c]]
    else rows[..|rows| - 1] + [LastRow(rows) + [c]]
  }

  function Wrapped(g: Glyphs, text: string, width: nat): (r: seq<string>)
    ensures r != []
  {
    if text == [] then [""] else AddChar(g, width, Wrapped(g, text[..|text| - 1], width), text[|text| - 1])
  }

  lemma WidthGrows(g: Glyphs, row: string, c: char)
    ensures CellWidth(g, row + [c]) == CellWidth(g, row) + g.Width(c)
  {
    assert (row + [c])[..|row|] == row;
  }

  lemma WrapGrows(g: Glyphs, text: string, width: nat, i: nat)
    requires i < |text|
    ensures Wrapped(g, text[..i + 1], width) == AddChar(g, width, Wrapped(g, text[..i], width), text[i])
  {
    assert text[..i + 1][..i] == text[..i];
  }

  method WrapRows(g: Glyphs, text: string, width: nat) returns (rows: seq<string>)
    ensures rows == Wrapped(g, text, width)
  {
    rows := [];
    var row, rowWidth := "", 0;
    for i := 0 to |text|
      invariant rows + [row] == Wrapped(g, text[..i], width)
      invariant rowWidth == CellWidth(g, row)
    {
      WrapGrows(g, text, width, i);
      var c := text[i];
      ghost var before := rows + [row];
      assert LastRow(before) == row && before[..|before| - 1] == rows;
      if c == '\n' {
        rows := rows + [row];
        row, rowWidth := "", 0;
      } else {
        var w := g.Width(c);
        WidthGrows(g, row, c);
        WidthGrows(g, "", c);
        if rowWidth + w > width {
          rows := rows + [row];
          row, rowWidth := "", 0;
        }
        row := row + [c];
        rowWidth := rowWidth + w;
      }
    }
    rows := rows + [row];
    assert text[..|text|] == text;
  }

  /** The row and column after the first `pos` characters; the column may equal the width. */
  method CursorRowCol(g: Glyphs, text: string, pos: nat, width: nat) returns (row: nat, col: nat)
    ensures var rows := Wrapped(g, Upto(text, pos), width);
            row == |rows| - 1 && col == CellWidth(g, LastRow(rows))
  {
    row, col := 0, 0;
    var prefix := Upto(text, pos);
    for i := 0 to |prefix|
      invariant row == |Wrapped(g, prefix[..i], width)| - 1
      invariant col == CellWidth(g, LastRow(Wrapped(g, prefix[..i], width)))
    {
      WrapGrows(g, prefix, width, i);
      var c := prefix[i];
      var rows := Wrapped(g, prefix[..i], width);
      WidthGrows(g, LastRow(rows), c);
      WidthGrows(g, "", c);
      if c == '\n' {
        row, col := row + 1, 0;
      } else {
        var w := g.Width(c);
        if col + w > width {
          row, col := row + 1, 0;
        }
        col := col + w;
      }
    }
    assert prefix[..|prefix|] == prefix;
  }

  // ------------------------------------------------------------------ what wrapping means

  /** The rows put back together; `hard` says which breaks were line feeds of the text. */
  function Joined(rows: seq<string>, hard: seq<bool>): string
    requires |rows| == |hard| + 1
    decreases |rows|
  {
    if |rows| == 1 then rows[0]
    else Joined(rows[..|rows| - 1], hard[..|hard| - 1]) + (if hard[|hard| - 1] then "\n" else "") + rows[|rows| - 1]
  }

  /** A break that is not a line feed was needed: the next character did not fit. */
  predicate Needed(g: Glyphs, width: nat, rows: seq<string>, hard: seq<bool>)
    requires |rows| == |hard| + 1
  {
    forall i :: 0 <= i < |hard| && !hard[i] ==>
      rows[i + 1] != [] && CellWidth(g, rows[i]) + g.Width(rows[i + 1][0]) > width
  }

  /** Wrapping loses and adds nothing, breaks at every line feed, and otherwise only where
      the next character would not have fitted. */
  lemma {:induction false} WrapIsFaithful(g: Glyphs, text: string, width: nat) returns (hard: seq<bool>)
    ensures |Wrapped(g, text, width)| == |hard| + 1
    ensures Joined(Wrapped(g, text, width), hard) == text
    ensures Needed(g, width, Wrapped(g, text, width), hard)
    ensures forall i :: 0 <= i < |Wrapped(g, text, width)| ==> '\n' !in Wrapped(g, text, width)[i]
  {
    hide Joined, Needed, CellWidth;
    hard := [];
    if text == [] {
      NothingJoined(g, width);
    } else {
      var n := |text| - 1;
      var c := text[n];
      var rows := Wrapped(g, text[..n], width);
      hard := WrapIsFaithful(g, text[..n], width);
      var more := AddChar(g, width, rows, c);
      if c == '\n' {
        JoinBreak(rows, hard, true, "");
        NeededBreak(g, width, rows, hard, true, "");
        hard := hard + [true];
      } else if CellWidth(g, LastRow(rows)) + g.Width(c) > width {
        JoinBreak(rows, hard, false, [c]);
        NeededBreak(g, width, rows, hard, false, [c]);
        hard := hard + [false];
      } else {
        JoinExtend(rows, hard, c);
        NeededExtend(g, width, rows, hard, c);
      }
      assert text == text[..n] + [c];
    }
  }

  lemma NothingJoined(g: Glyphs, width: nat)
    ensures Joined([""], []) == "" && Needed(g, width, [""], [])
  {
  }

  lemma JoinBreak(rows: seq<string>, hard: seq<bool>, h: bool, row: string)
    requires |rows| == |hard| + 1
    ensures Joined(rows + [row], hard + [h]) == Joined(rows, hard) + (if h then "\n" else "") + row
  {
    assert (rows + [row])[..|rows|] == rows && (hard + [h])[..|hard|] == hard;
  }

  lemma JoinExtend(rows: seq<string>, hard: seq<bool>, c: char)
    requires |rows| == |hard| + 1
    ensures Joined(rows[..|rows| - 1] + [LastRow(rows) + [c]], hard) == Joined(rows, hard) + [c]
  {
    var more := rows[..|rows| - 1] + [LastRow(rows) + [c]];
    assert more[..|rows| - 1] == rows[..|rows| - 1];
  }

  lemma NeededBreak(g: Glyphs, width: nat, rows: seq<string>, hard: seq<bool>, h: bool, row: string)
    requires |rows| == |hard| + 1 && Needed(g, width, rows, hard)
    requires !h ==> row != [] && CellWidth(g, LastRow(rows)) + g.Width(row[0]) > width
    ensures Needed(g, width, rows + [row], hard + [h])
  {
    hide CellWidth;
  }

  lemma NeededExtend(g: Glyphs, width: nat, rows: seq<string>, hard: seq<bool>, c: char)
    requires |rows| == |hard| + 1 && Needed(g, width, rows, hard)
    ensures Needed(g, width, rows[..|rows| - 1] + [LastRow(rows) + [c]], hard)
  {
    hide CellWidth;
    var more := rows[..|rows| - 1] + [LastRow(rows) + [c]];
    assert forall i :: 0 <= i < |rows| - 1 ==> more[i] == rows[i];
  }

  predicate AllFit(g: Glyphs, width: nat, rows: seq<string>) {
    forall i :: 0 <= i < |rows| ==> CellWidth(g, rows[i]) <= width
  }

  lemma {:induction false} RowsFit(g: Glyphs, text: string, width: nat)
    requires width >= 2
    ensures AllFit(g, width, Wrapped(g, text, width))
  {
    if text != [] {
      var rows := Wrapped(g, text[..|text| - 1], width);
      RowsFit(g, text[..|text| - 1], width);
      WidthGrows(g, "", text[|text| - 1]);
      WidthGrows(g, LastRow(rows), text[|text| - 1]);
    }
  }

  /** Rows always fit exactly when the terminal has two columns, as soon as there is a
      double-width character to draw. */
  lemma FitNeedsTwoColumns(g: Glyphs, width: nat, wide: char)
    requires g.Width(wide) == 2 && wide != '\n'
    ensures (forall text :: AllFit(g, width, Wrapped(g, text, width))) <==> width >= 2
  {
    if width >= 2 {
      forall text
        ensures AllFit(g, width, Wrapped(g, text, width))
      {
        RowsFit(g, text, width);
      }
    } else {
      var text := [wide];
      assert text[..0] == [];
      WidthGrows(g, "", wide);
      assert "" + [wide] == text;
      var rows := Wrapped(g, text, width);
      assert Wrapped(g, text[..0], width) == [""];
      assert rows == AddChar(g, width, [""], wide) == ["", text];
      assert rows[1] == text && CellWidth(g, rows[1]) == 2;
      assert !AllFit(g, width, Wrapped(g, text, width));
    }
  }

  /** The rows of `w` go on from those of `p`: the last row of `p` may have grown. */
  predicate Extends(p: seq<string>, w: seq<string>)
    requires p != [] && w != []
  {
    |p| <= |w| && p[..|p| - 1] == w[..|p| - 1] && LastRow(p) <= w[|p| - 1]
  }

  /** Wrapping a prefix gives the rows of the whole up to where the prefix ends. */
  lemma {:induction false} PrefixRows(g: Glyphs, text: string, k: nat, width: nat)
    requires k <= |text|
    ensures Extends(Wrapped(g, text[..k], width), Wrapped(g, text, width))
    decreases |text|
  {
    hide AddChar, LastRow, Extends;
    if k == |text| {
      assert text[..k] == text;
      ExtendsSelf(Wrapped(g, text, width));
    } else {
      var n := |text| - 1;
      PrefixRows(g, text[..n], k, width);
      assert text[..n][..k] == text[..k];
      AddExtends(g, width, Wrapped(g, text[..n], width), text[n]);
      ExtendsTrans(Wrapped(g, text[..k], width), Wrapped(g, text[..n], width), Wrapped(g, text, width));
    }
  }

  lemma ExtendsSelf(p: seq<string>)
    requires p != []
    ensures Extends(p, p)
  {
  }

  lemma AddExtends(g: Glyphs, width: nat, rows: seq<string>, c: char)
    requires rows != []
    ensures Extends(rows, AddChar(g, width, rows, c))
  {
    hide CellWidth;
  }

  lemma ExtendsTrans(p: seq<string>, w: seq<string>, v: seq<string>)
    requires p != [] && w != [] && v != [] && Extends(p, w) && Extends(w, v)
    ensures Extends(p, v)
  {
    assert w[..|p| - 1] == w[..|w| - 1][..|p| - 1];
    assert v[..|p| - 1] == v[..|w| - 1][..|p| - 1];
    if |p| < |w| {
      assert w[|p| - 1] == w[..|w| - 1][|p| - 1] == v[..|w| - 1][|p| - 1] == v[|p| - 1];
    }
  }

  // ------------------------------------------------------------------ the screen

  /** The terminal defers a wrap: the cursor stays in the last column. */
  function ClampCol(col: nat, cols: nat): nat
    requires cols >= 1
  {
    if col < cols then col else cols - 1
  }

  class Screen {
    const glyphs: Glyphs
    var cols: nat
    var footerRows: nat
    var windowTop: nat
    var cursor: (nat, nat)
    var drawn: seq<string>   // the input rows as last written

    constructor (glyphs: Glyphs, cols: nat)
      ensures this.glyphs == glyphs && this.cols == cols && footerRows == 2 && windowTop == 0 && cursor == (0, 0)
    {
      this.glyphs, this.cols := glyphs, cols;
      footerRows, windowTop, cursor, drawn := 2, 0, (0, 0), [];
    }

    /** The window follows the cursor: whatever it showed before, it now shows the cursor's
        row, moves no further than it must, and stays inside the text. */
    method DrawFooter(disp: string, pos: nat)
      requires footerRows >= 2 && cols >= 1
      modifies this`windowTop, this`cursor, this`drawn
      ensures var visual := Wrapped(glyphs, PROMPT + disp, cols);
              var before := Wrapped(glyphs, Upto(PROMPT + disp, |PROMPT| + pos), cols);
              var shown, row := footerRows - 1, |before| - 1;
              && row < |visual|
              && windowTop <= row < windowTop + shown
              && cursor == (row - windowTop, ClampCol(CellWidth(glyphs, LastRow(before)), cols))
              && |drawn| == shown && (forall i :: 0 <= i < shown ==>
                   drawn[i] == if windowTop + i < |visual| then visual[windowTop + i] else "")
              && LastRow(before) <= drawn[cursor.0]
              && (shown <= |visual| ==> windowTop + shown <= |visual|)
              && (old(windowTop) <= row < old(windowTop) + shown && old(windowTop) + shown <= |visual| ==>
                 windowTop == old(windowTop))
    {
      hide Wrapped, CellWidth, Upto, LastRow;
      var visual := WrapRows(glyphs, PROMPT + disp, cols);
      var row, col := CursorRowCol(glyphs, PROMPT + disp, |PROMPT| + pos, cols);
      CursorIsARow(glyphs, PROMPT + disp, |PROMPT| + pos, cols);
      PlaceWindow(visual, row, col);
    }

    /** Choose the window, draw its rows, place the cursor. */
    method PlaceWindow(visual: seq<string>, row: nat, col: nat)
      requires footerRows >= 2 && cols >= 1 && row < |visual|
      modifies this`windowTop, this`cursor, this`drawn
      ensures var shown := footerRows - 1;
              && windowTop <= row < windowTop + shown
              && cursor == (row - windowTop, ClampCol(col, cols))
              && |drawn| == shown && (forall i :: 0 <= i < shown ==>
                   drawn[i] == if windowTop + i < |visual| then visual[windowTop + i] else "")
              && (shown <= |visual| ==> windowTop + shown <= |visual|)
              && (old(windowTop) <= row < old(windowTop) + shown && old(windowTop) + shown <= |visual| ==>
                 windowTop == old(windowTop))
    {
      var inputRows := footerRows - 1;
      var limit := if |visual| >= inputRows then |visual| - inputRows else 0;
      var top := if windowTop <= limit then windowTop else limit;
      if row < top {
        top := row;
      } else if row >= top + inputRows {
        top := row - inputRows + 1;
      }
      var rows := [];
      for i := 0 to inputRows
        invariant |rows| == i
        invariant forall j :: 0 <= j < i ==> rows[j] == if top + j < |visual| then visual[top + j] else ""
      {
        rows := rows + [if top + i < |visual| then visual[top + i] else ""];
      }
      windowTop, drawn, cursor := top, rows, (row - top, ClampCol(col, cols));
    }

    /** The footer grows and shrinks with the input, up to its limit; what is drawn is a
        contiguous stretch of the wrapped input with the cursor at the end of the wrapped
        part before it. */
    method RedrawFooter(buf: string, pos: nat)
      requires cols >= 1
      modifies this`footerRows, this`windowTop, this`cursor, this`drawn
      ensures var visual := Wrapped(glyphs, PROMPT + Display(buf), cols);
              var before := Wrapped(glyphs, PROMPT + Display(Upto(buf, pos)), cols);
              && footerRows == 1 + (if |visual| < MAX_INPUT_ROWS then |visual| else MAX_INPUT_ROWS)
              && windowTop + (footerRows - 1) <= |visual|
              && drawn == visual[windowTop..windowTop + (footerRows - 1)]
              && windowTop <= |before| - 1 < windowTop + (footerRows - 1)
              && cursor.0 == |before| - 1 - windowTop
              && LastRow(before) <= drawn[cursor.0]
              && cursor.1 == ClampCol(CellWidth(glyphs, LastRow(before)), cols)
    {
      hide Wrapped, CellWidth, Display, LastRow;
      var disp := DisplayForm(buf);
      var visual := WrapRows(glyphs, PROMPT + disp, cols);
      var needed := 1 + (if |visual| < MAX_INPUT_ROWS then |visual| else MAX_INPUT_ROWS);
      footerRows := needed;
      var k := DisplayPos(buf, pos);
      UptoAfter(PROMPT, disp, k);
      DrawFooter(disp, k);
      assert drawn == visual[windowTop..windowTop + (footerRows - 1)];
    }
  }

  lemma UptoAfter(a: string, b: string, k: nat)
    requires k <= |b|
    ensures Upto(a + b, |a| + k) == a + b[..k]
  {
  }

  /** The cursor stands on a row of the wrapped text, after the part before it. */
  lemma CursorIsARow(g: Glyphs, text: string, pos: nat, width: nat)
    ensures var before, rows := Wrapped(g, Upto(text, pos), width), Wrapped(g, text, width);
            |before| <= |rows| && LastRow(before) <= rows[|before| - 1]
  {
    PrefixRows(g, text, |Upto(text, pos)|, width);
    assert text[..|Upto(text, pos)|] == Upto(text, pos);
  }
}
