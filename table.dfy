/**
 * The instrument table printers of src/instruments/get_assets.rs and src/bot.rs
 * (the two files carry the same three helpers), as string builders: a
 * separator line, a header line and a data row, each ending in a newline.
 *
 * A data cell is compared against its column by the value's length in UTF-8
 * bytes, but padded and truncated by characters; `ByteLen` models the byte count.
 */
module Table {
  import opened Models

  /** Bytes of one character in UTF-8. */
  function Utf8Len(c: char): (n: nat)
    ensures 1 <= n <= 4
    ensures (c as int < 128) <==> n == 1
  {
    if c as int < 0x80 then 1
    else if c as int < 0x800 then 2
    else if c as int < 0x10000 then 3
    else 4
  }

  /** `str::len()`: the length of a string in UTF-8 bytes. */
  function ByteLen(s: string): (n: nat)
    ensures n >= |s|
  {
    if s == [] then 0 else ByteLen(s[..|s| - 1]) + Utf8Len(s[|s| - 1])
  }

  predicate IsAscii(s: string)
  {
    forall k :: 0 <= k < |s| ==> s[k] as int < 128
  }

  lemma {:induction false} AsciiByteLen(s: string)
    requires IsAscii(s)
    ensures ByteLen(s) == |s|
  {
    if s != [] {
      AsciiByteLen(s[..|s| - 1]);
    }
  }

  function Repeat(c: char, n: nat): (r: string)
    ensures |r| == n && forall k :: 0 <= k < n ==> r[k] == c
  {
    if n == 0 then [] else Repeat(c, n - 1) + [c]
  }

  /** `{:<width$}`: left-aligned, padded with spaces to `width` characters. */
  function PadRight(s: string, width: nat): (r: string)
    ensures |r| == if |s| < width then width else |s|
    ensures r[..|s|] == s && forall k :: |s| <= k < |r| ==> r[k] == ' '
  {
    if |s| < width then s + Repeat(' ', width - |s|) else s
  }

  /** `{:.width$}`: at most the first `n` characters. */
  function Prefix(s: string, n: nat): (r: string)
    ensures |r| == Min(n, |s|) && r == s[..|r|]
  {
    s[..Min(n, |s|)]
  }

  /** A column width and value the row printer accepts without an unsigned underflow. */
  predicate CellOk(value: string, width: nat)
  {
    width >= 2 && (ByteLen(value) > width - 2 ==> width >= 5)
  }

  /** One data cell with its closing bar. */
  function Cell(value: string, width: nat): string
    requires CellOk(value, width)
  {
    " " + CellText(value, width) + " |"
  }

  /** What a data cell shows: the value truncated with "..." when too long, else padded. */
  function CellText(value: string, width: nat): string
    requires CellOk(value, width)
  {
    if ByteLen(value) > width - 2 then Prefix(value, width - 5) + "..."
    else PadRight(value, width - 2)
  }

  /** One header cell: the title padded to the column. */
  function HeaderCell(title: string, width: nat): string
    requires width >= 2
  {
    " " + PadRight(title, width - 2) + " |"
  }

  function SeparatorCell(width: nat): string
  {
    Repeat('-', width) + "+"
  }

  /** The width a line spends on the first `n` columns: each is `width` characters and a bar. */
  function Span(cols: seq<(string, nat)>, n: nat): nat
    requires n <= |cols|
  {
    if n == 0 then 0 else Span(cols, n - 1) + cols[n - 1].1 + 1
  }

  predicate RowOk(data: seq<string>, cols: seq<(string, nat)>)
  {
    forall k :: 0 <= k < |data| && k < |cols| ==> CellOk(data[k], cols[k].1)
  }

  predicate HeaderOk(cols: seq<(string, nat)>)
  {
    forall k :: 0 <= k < |cols| ==> cols[k].1 >= 2
  }

  /** The first `n` strings of `parts`, one after the other. */
  function Join(parts: seq<string>, n: nat): string
    requires n <= |parts|
  {
    if n == 0 then "" else Join(parts, n - 1) + parts[n - 1]
  }

  /** One data cell per (value, column) pair; `zip` stops at the shorter input. */
  function CellList(data: seq<string>, cols: seq<(string, nat)>): (parts: seq<string>)
    requires RowOk(data, cols)
    ensures |parts| == Min(|data|, |cols|)
    decreases |data|
  {
    if |data| == 0 || |cols| == 0 then []
    else [Cell(data[0], cols[0].1)] + CellList(data[1..], cols[1..])
  }

  /** The `k`-th cell of the list is the cell of the `k`-th pair. */
  lemma {:induction false} CellListAt(data: seq<string>, cols: seq<(string, nat)>, k: nat)
    requires RowOk(data, cols) && k < |data| && k < |cols|
    ensures CellList(data, cols)[k] == Cell(data[k], cols[k].1)
    decreases k
  {
    if k > 0 {
      CellListAt(data[1..], cols[1..], k - 1);
    }
  }

  function HeaderCells(cols: seq<(string, nat)>, n: nat): string
    requires n <= |cols| && HeaderOk(cols)
  {
    if n == 0 then "" else HeaderCells(cols, n - 1) + HeaderCell(cols[n - 1].0, cols[n - 1].1)
  }

  function SeparatorCells(cols: seq<(string, nat)>, n: nat): string
    requires n <= |cols|
  {
    if n == 0 then "" else SeparatorCells(cols, n - 1) + SeparatorCell(cols[n - 1].1)
  }

  function Row(data: seq<string>, cols: seq<(string, nat)>): string
    requires RowOk(data, cols)
  {
    "|" + Join(CellList(data, cols), Min(|data|, |cols|)) + "\n"
  }

  function Header(cols: seq<(string, nat)>): string
    requires HeaderOk(cols)
  {
    "|" + HeaderCells(cols, |cols|) + "\n"
  }

  function Separator(cols: seq<(string, nat)>): string
  {
    "+" + SeparatorCells(cols, |cols|) + "\n"
  }

  // ---------------------------------------------------------------------------
  // The printers

  /** `print_table_row`: one cell per (value, column) pair, up to the shorter of the two. */
  method RenderRow(data: seq<string>, cols: seq<(string, nat)>) returns (line: string)
    requires RowOk(data, cols)
    ensures line == Row(data, cols)
  {
    var cells := RenderCells(data, cols);
    line := "|" + cells + "\n";
  }

  /** The loop of `print_table_row`: the cells in order, each after the ones before it. */
  method RenderCells(data: seq<string>, cols: seq<(string, nat)>) returns (cells: string)
    requires RowOk(data, cols)
    ensures cells == Join(CellList(data, cols), Min(|data|, |cols|))
  {
    ghost var parts := CellList(data, cols);
    cells := "";
    for i := 0 to Min(|data|, |cols|)
      invariant cells == Join(parts, i)
    {
      cells := AppendCell(data, cols, parts, i, cells);
    }
  }

  /** One pass of the row loop: the cell of the `i`-th pair follows the cells before it. */
  method AppendCell(data: seq<string>, cols: seq<(string, nat)>, ghost parts: seq<string>, i: nat, cells: string)
    returns (r: string)
    requires i < |data| && i < |cols| && RowOk(data, cols) && parts == CellList(data, cols)
    requires cells == Join(parts, i)
    ensures r == Join(parts, i + 1)
  {
    var cell := FormatCell(data[i], cols[i].1);
    CellListAt(data, cols, i);
    r := cells + cell;
  }

  /** One `print!` of the row loop: the "..." form when the value's bytes exceed the space, else padding. */
  method FormatCell(value: string, width: nat) returns (cell: string)
    requires CellOk(value, width)
    ensures cell == Cell(value, width)
  {
    var spaceWidth := width - 2;
    if ByteLen(value) > spaceWidth {
      cell := " " + Prefix(value, spaceWidth - 3) + "... |";
    } else {
      cell := " " + PadRight(value, spaceWidth) + " |";
    }
  }

  /** `print_table_header`: every title padded to its column. */
  method RenderHeader(cols: seq<(string, nat)>) returns (line: string)
    requires HeaderOk(cols)
    ensures line == Header(cols)
  {
    line := "|";
    for i := 0 to |cols|
      invariant line == "|" + HeaderCells(cols, i)
    {
      line := line + " " + PadRight(cols[i].0, cols[i].1 - 2) + " |";
    }
    line := line + "\n";
  }

  /** `print_table_separator`: a run of dashes per column, each closed by a plus. */
  method RenderSeparator(cols: seq<(string, nat)>) returns (line: string)
    ensures line == Separator(cols)
  {
    line := "+";
    for i := 0 to |cols|
      invariant line == "+" + SeparatorCells(cols, i)
    {
      line := line + Repeat('-', cols[i].1) + "+";
    }
    line := line + "\n";
  }

  // ---------------------------------------------------------------------------
  // Shapes

  /**
   * A value that fits is shown whole, then spaces, in a cell one character
   * wider than its column; a longer one shows its first `width - 5`
   * characters and "...". The too-long cell has the column's width whenever
   * the value has at least `width - 5` characters, as every ASCII value does.
   */
  lemma CellShape(value: string, width: nat)
    requires CellOk(value, width)
    ensures var c := Cell(value, width);
      c[0] == ' ' && c[|c| - 2..] == " |"
      && (ByteLen(value) <= width - 2 ==>
            |c| == width + 1 && c[1..|value| + 1] == value
            && forall k :: |value| + 1 <= k < width ==> c[k] == ' ')
      && (ByteLen(value) > width - 2 ==>
            c[1..|c| - 5] == value[..Min(width - 5, |value|)] && c[|c| - 5..|c| - 2] == "..."
            && (|value| >= width - 5 ==> |c| == width + 1))
  {
    if ByteLen(value) <= width - 2 {
      PaddedShape(value, width);
    } else {
      TruncatedShape(value, width);
    }
  }

  lemma PaddedShape(value: string, width: nat)
    requires CellOk(value, width) && ByteLen(value) <= width - 2
    ensures var c := Cell(value, width);
      c[0] == ' ' && c[|c| - 2..] == " |"
      && |c| == width + 1 && c[1..|value| + 1] == value
      && forall k :: |value| + 1 <= k < width ==> c[k] == ' '
  {
    var t := CellText(value, width);
    assert t == PadRight(value, width - 2);
    assert |value| <= ByteLen(value) <= width - 2;
    assert |t| == width - 2;
    Framed(t);
    var c := Cell(value, width);
    assert c[1..|value| + 1] == t[..|value|];
    forall k | |value| + 1 <= k < width
      ensures c[k] == ' '
    {
      if k < width - 1 {
        assert c[k] == t[k - 1];
      } else {
        assert c[k] == c[|c| - 2..][0];
      }
    }
  }

  lemma TruncatedShape(value: string, width: nat)
    requires CellOk(value, width) && ByteLen(value) > width - 2
    ensures var c := Cell(value, width);
      c[0] == ' ' && c[|c| - 2..] == " |"
      && c[1..|c| - 5] == value[..Min(width - 5, |value|)] && c[|c| - 5..|c| - 2] == "..."
      && (|value| >= width - 5 ==> |c| == width + 1)
  {
    var p := Prefix(value, width - 5);
    var t := CellText(value, width);
    assert t == p + "...";
    Framed(t);
    var c := Cell(value, width);
    assert c[1..|c| - 5] == t[..|p|] == p;
    assert c[|c| - 5..|c| - 2] == t[|p|..] == "...";
  }

  /** A cell is its text between a leading space and a closing " |". */
  lemma Framed(t: string)
    ensures var c := " " + t + " |";
      |c| == |t| + 3 && c[0] == ' ' && c[1..|c| - 2] == t && c[|c| - 2..] == " |"
      && forall k :: 1 <= k < |c| - 2 ==> c[k] == t[k - 1]
  {
  }

  /** An ASCII value longer than its column always triggers the "..." form at full width. */
  lemma AsciiCellWidth(value: string, width: nat)
    requires CellOk(value, width) && IsAscii(value)
    ensures |Cell(value, width)| == width + 1
  {
    AsciiByteLen(value);
    CellShape(value, width);
  }

  /**
   * A value of six two-byte characters in a 12-wide column is judged too long
   * by its 12 bytes, yet has fewer than 7 characters: the cell is whole value
   * plus "...", one character narrower than the column.
   */
  lemma MultibyteCellIsNarrow()
    ensures var v := "ЖЖЖЖЖЖ";
      CellOk(v, 12) && ByteLen(v) == 12 && Cell(v, 12) == " " + v + "... |" && |Cell(v, 12)| == 12
  {
    var v := "ЖЖЖЖЖЖ";
    assert Utf8Len('Ж') == 2;
    assert ByteLen("Ж") == 2 by { assert "Ж"[..0] == ""; }
    assert ByteLen("ЖЖ") == 4 by { assert "ЖЖ"[..1] == "Ж"; }
    assert ByteLen("ЖЖЖ") == 6 by { assert "ЖЖЖ"[..2] == "ЖЖ"; }
    assert ByteLen("ЖЖЖЖ") == 8 by { assert "ЖЖЖЖ"[..3] == "ЖЖЖ"; }
    assert ByteLen("ЖЖЖЖЖ") == 10 by { assert "ЖЖЖЖЖ"[..4] == "ЖЖЖЖ"; }
    assert ByteLen(v) == 12 by { assert v[..5] == "ЖЖЖЖЖ"; }
  }

  /** The cells of the first `n` ASCII values span those columns and their bars. */
  lemma RowCellsLength(data: seq<string>, cols: seq<(string, nat)>, n: nat)
    requires n <= |data| && n <= |cols| && RowOk(data, cols)
    requires forall k :: 0 <= k < n ==> IsAscii(data[k])
    ensures |Join(CellList(data, cols), n)| == Span(cols, n)
  {
    var parts := CellList(data, cols);
    forall k | 0 <= k < n
      ensures |parts[k]| == cols[k].1 + 1
    {
      AsciiCellWidth(data[k], cols[k].1);
      CellListAt(data, cols, k);
    }
    JoinLength(parts, cols, n);
  }

  /** Parts as wide as their columns (plus the bar) add up to the span. */
  lemma {:induction false} JoinLength(parts: seq<string>, cols: seq<(string, nat)>, n: nat)
    requires n <= |parts| && n <= |cols|
    requires forall k :: 0 <= k < n ==> |parts[k]| == cols[k].1 + 1
    ensures |Join(parts, n)| == Span(cols, n)
  {
    if n > 0 {
      JoinLength(parts, cols, n - 1);
    }
  }

  lemma {:induction false} SeparatorCellsLength(cols: seq<(string, nat)>, n: nat)
    requires n <= |cols|
    ensures |SeparatorCells(cols, n)| == Span(cols, n)
  {
    if n > 0 {
      SeparatorCellsLength(cols, n - 1);
    }
  }

  lemma {:induction false} HeaderCellsLength(cols: seq<(string, nat)>, n: nat)
    requires n <= |cols| && HeaderOk(cols)
    requires forall k :: 0 <= k < n ==> |cols[k].0| <= cols[k].1 - 2
    ensures |HeaderCells(cols, n)| == Span(cols, n)
  {
    if n > 0 {
      HeaderCellsLength(cols, n - 1);
    }
  }

  /** With ASCII data for every column, a row is exactly as long as the separator line. */
  lemma RowMatchesSeparator(data: seq<string>, cols: seq<(string, nat)>)
    requires RowOk(data, cols) && |data| >= |cols|
    requires forall k :: 0 <= k < |cols| ==> IsAscii(data[k])
    ensures |Row(data, cols)| == |Separator(cols)| == Span(cols, |cols|) + 2
  {
    RowCellsLength(data, cols, |cols|);
    SeparatorCellsLength(cols, |cols|);
  }

  /** The separator is a plus, then per column `width` dashes and a plus, then the newline. */
  lemma {:induction false} SeparatorShape(cols: seq<(string, nat)>, n: nat)
    requires n <= |cols|
    ensures var s := SeparatorCells(cols, n);
      forall k :: 0 <= k < |s| ==> s[k] == '-' || s[k] == '+'
    ensures n > 0 ==> SeparatorCells(cols, n)[|SeparatorCells(cols, n)| - 1] == '+'
  {
    if n > 0 {
      SeparatorShape(cols, n - 1);
      var prev := SeparatorCells(cols, n - 1);
      var cell := SeparatorCell(cols[n - 1].1);
      var s := prev + cell;
      forall k | 0 <= k < |s| ensures s[k] == '-' || s[k] == '+' {
        if k >= |prev| {
          assert s[k] == cell[k - |prev|];
        }
      }
    }
  }

  /** The column layout both printers use. */
  const StandardColumns: seq<(string, nat)> := [
    ("UID", 38), ("TICKER", 12), ("CLASS_CODE", 14), ("FIGI", 14),
    ("POSITION_UID", 38), ("INSTRUMENT_TYPE", 17)]

  /** Every standard title fits its column, so the header lines up with the separator. */
  lemma StandardHeaderAligned()
    ensures HeaderOk(StandardColumns)
    ensures |Header(StandardColumns)| == |Separator(StandardColumns)| == 141
  {
    var cols := StandardColumns;
    assert Span(cols, 6) == 139;
    HeaderCellsLength(cols, 6);
    SeparatorCellsLength(cols, 6);
  }
}
