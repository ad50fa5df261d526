/**
 * Grid coordinates of the board: a row letter and a column number, the
 * direction a ship is laid out in, the cells a ship of a given size covers,
 * and the textual labels ("A2", "Z50") the game uses for cells.
 */
module Coords {
  import opened Results

  /** A cell of the grid: `row` 0 is the letter 'A', `col` is the number of the label. */
  datatype Coord = Coord(row: nat, col: nat)

  /**
   * The layout direction of a ship: the name of the symbol passed in
   * (`:horizontal` is "horizontal"). Only the horizontal token is
   * recognised; every other token (`:vertical`, `:vertically`,
   * `:spaghetti`, ...) falls through to the row-advancing layout.
   */
  type Direction = string

  const HORIZONTAL: Direction := "horizontal"

  /** The cell `k` steps away from `c` along `dir`: the column rises when horizontal, the row otherwise. */
  function Shift(c: Coord, dir: Direction, k: nat): Coord
  {
    if dir == HORIZONTAL then Coord(c.row, c.col + k) else Coord(c.row + k, c.col)
  }

  /**
   * The `n` cells a ship of size `n` occupies when laid out from `start`
   * along `dir`: the start cell, then each next cell one step further.
   * No bounds are checked here.
   */
  function CoordinatesFor(n: nat, start: Coord, dir: Direction): (cells: seq<Coord>)
    ensures |cells| == n
    ensures forall i :: 0 <= i < n ==> cells[i] == Shift(start, dir, i)
    decreases n
  {
    if n == 0 then [] else [start] + CoordinatesFor(n - 1, Shift(start, dir, 1), dir)
  }

  /** The horizontal layout keeps the row letter and raises the number by one per cell. */
  lemma HorizontalLayout(n: nat, start: Coord)
    ensures var cells := CoordinatesFor(n, start, HORIZONTAL);
      forall i :: 0 <= i < n ==> cells[i].row == start.row && cells[i].col == start.col + i
  {
  }

  /** Every other direction keeps the number and advances the row letter by one per cell. */
  lemma OtherLayout(n: nat, start: Coord, token: Direction)
    requires token != HORIZONTAL
    ensures var cells := CoordinatesFor(n, start, token);
      forall i :: 0 <= i < n ==> cells[i].row == start.row + i && cells[i].col == start.col
  {
  }

  /** A ship never covers the same cell twice. */
  lemma CellsDistinct(n: nat, start: Coord, dir: Direction, i: nat, j: nat)
    requires i < j < n
    ensures CoordinatesFor(n, start, dir)[i] != CoordinatesFor(n, start, dir)[j]
  {
  }

  /**
   * A cell lies on a `size` by `size` grid: row letter below `size`, number
   * from 1 to `size`. No number 0 is on any grid, and every cell of a grid of
   * at most 26 rows has a single-letter label.
   */
  predicate InBounds(c: Coord, size: nat)
    ensures InBounds(c, size) ==> size > 0 && c.col != 0
    ensures InBounds(c, size) && size <= 26 ==> c.row < 26
  {
    c.row < size && 1 <= c.col <= size
  }

  /** Every cell of `cells` lies on the grid. */
  predicate AllInBounds(cells: seq<Coord>, size: nat)
  {
    forall i :: 0 <= i < |cells| ==> InBounds(cells[i], size)
  }

  /** A laid-out ship is on the grid exactly when its first and its last cell are. */
  lemma OnGridIffEnds(n: nat, start: Coord, dir: Direction, size: nat)
    requires n > 0
    ensures var cells := CoordinatesFor(n, start, dir);
      AllInBounds(cells, size) <==> InBounds(cells[0], size) && InBounds(cells[n - 1], size)
  {
  }

  // ---------------------------------------------------------------------------
  // Labels: one upper-case letter for the row, then the number in decimal.

  predicate IsDigit(ch: char)
  {
    '0' <= ch <= '9'
  }

  predicate IsLetter(ch: char)
  {
    'A' <= ch <= 'Z'
  }

  predicate AllDigits(s: string)
  {
    forall i :: 0 <= i < |s| ==> IsDigit(s[i])
  }

  /** A run of decimal digits as `Decimal` writes it: at least one digit, and no leading zero unless it is "0". */
  predicate Canonical(s: string)
  {
    |s| >= 1 && AllDigits(s) && (|s| == 1 || s[0] != '0')
  }

  /** The decimal digits of `n`, most significant first, without leading zeros. */
  function Decimal(n: nat): (s: string)
    ensures Canonical(s)
    decreases n
  {
    var last := ('0' as int + n % 10) as char;
    if n < 10 then [last] else Decimal(n / 10) + [last]
  }

  /** The number a run of decimal digits denotes (0 for the empty run). */
  function DigitsValue(s: string): nat
    requires AllDigits(s)
    decreases |s|
  {
    if s == [] then 0
    else DigitsValue(s[..|s| - 1]) * 10 + (s[|s| - 1] as int - '0' as int)
  }

  /** Reading back the decimal digits of `n` gives `n`. */
  lemma {:induction false} DecimalRoundTrip(n: nat)
    ensures DigitsValue(Decimal(n)) == n
  {
    var s := Decimal(n);
    if n >= 10 {
      assert s[..|s| - 1] == Decimal(n / 10);
      DecimalRoundTrip(n / 10);
    }
  }

  /** A run of digits that does not start with '0' denotes a positive number. */
  lemma {:induction false} LeadingDigitPositive(s: string)
    requires |s| >= 1 && AllDigits(s) && s[0] != '0'
    ensures DigitsValue(s) > 0
    decreases |s|
  {
    if |s| > 1 {
      LeadingDigitPositive(s[..|s| - 1]);
    }
  }

  /** Writing out the number a canonical run of digits denotes gives the run back. */
  lemma {:induction false} CanonicalRoundTrip(s: string)
    requires Canonical(s)
    ensures Decimal(DigitsValue(s)) == s
    decreases |s|
  {
    if |s| > 1 {
      var init := s[..|s| - 1];
      LeadingDigitPositive(init);
      CanonicalRoundTrip(init);
      var n := DigitsValue(s);
      assert n / 10 == DigitsValue(init) && n % 10 == s[|s| - 1] as int - '0' as int;
      assert s == init + [s[|s| - 1]];
    }
  }

  /** The label of a cell, such as "A2" for `Coord(0, 2)`. Rows past 'Z' have no single-letter label. */
  function Label(c: Coord): (s: string)
    requires c.row < 26
    ensures |s| >= 2 && IsLetter(s[0]) && Canonical(s[1..])
  {
    [('A' as int + c.row) as char] + Decimal(c.col)
  }

  /**
   * The cell a label names: one upper-case letter, then the number in
   * decimal without leading zeros. `None` for any string that is not the
   * label of a cell; otherwise the label of the result is the string itself.
   */
  function ParseLabel(s: string): (r: Option<Coord>)
    ensures r.Some? <==> exists c: Coord :: c.row < 26 && Label(c) == s
    ensures r.Some? ==> r.value.row < 26 && Label(r.value) == s
  {
    if |s| >= 2 && IsLetter(s[0]) && Canonical(s[1..])
    then
      CanonicalRoundTrip(s[1..]);
      var c := Coord(s[0] as int - 'A' as int, DigitsValue(s[1..]));
      assert Label(c) == s;
      Some(c)
    else None
  }

  /** Parsing a cell's label gives the cell back. */
  lemma LabelRoundTrip(c: Coord)
    requires c.row < 26
    ensures ParseLabel(Label(c)) == Some(c)
  {
    var s := Label(c);
    assert s[1..] == Decimal(c.col);
    DecimalRoundTrip(c.col);
  }

  /**
   * Distinct cells have distinct labels; with `ParseLabel` naming only
   * canonical labels, cells and labels correspond one to one, so keying the
   * board by cells is keying it by labels.
   */
  lemma LabelInjective(a: Coord, b: Coord)
    requires a.row < 26 && b.row < 26
    requires Label(a) == Label(b)
    ensures a == b
  {
    LabelRoundTrip(a);
    LabelRoundTrip(b);
  }

  /** The labels of a run of cells, in order. */
  function Labels(cells: seq<Coord>): (ls: seq<string>)
    requires forall i :: 0 <= i < |cells| ==> cells[i].row < 26
    ensures |ls| == |cells|
    ensures forall i :: 0 <= i < |cells| ==> ls[i] == Label(cells[i])
  {
    if cells == [] then [] else [Label(cells[0])] + Labels(cells[1..])
  }

  /** `coordinates_for(2, 'A1', :horizontal)` is `['A1', 'A2']`. */
  lemma HorizontalExample()
    ensures ParseLabel("A1") == Some(Coord(0, 1))
    ensures Labels(CoordinatesFor(2, Coord(0, 1), HORIZONTAL)) == ["A1", "A2"]
  {
    var cells := CoordinatesFor(2, Coord(0, 1), HORIZONTAL);
    assert cells == [Coord(0, 1), Coord(0, 2)];
    assert Label(Coord(0, 1)) == "A1";
    assert Label(Coord(0, 2)) == "A2";
    assert DigitsValue("1") == 1;
  }

  /** `coordinates_for(2, 'A1', :vertically)` is `['A1', 'B1']`: any token but horizontal advances the row. */
  lemma OtherExample()
    ensures Labels(CoordinatesFor(2, Coord(0, 1), "vertically")) == ["A1", "B1"]
  {
    var cells := CoordinatesFor(2, Coord(0, 1), "vertically");
    assert cells == [Coord(0, 1), Coord(1, 1)];
    assert Label(Coord(0, 1)) == "A1";
    assert Label(Coord(1, 1)) == "B1";
  }
}
