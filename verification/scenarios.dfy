/**
 * The unit tests of src/board.rs and src/lib.rs, stated as lemmas about the
 * model: the boards they build, the matches `get_matches` finds on them,
 * the moves `drop` records and the outcome of the swaps they request.
 */
module Scenarios {
  import opened Wrappers
  import opened Grid
  import opened Mat
  import opened Matcher
  import opened Gravity
  import opened Boards
  import opened Systems

  /** Column `x` of a list of rows, top to bottom. */
  function ColumnOf(rows: seq<seq<Gem>>, x: nat): (c: seq<Gem>)
    requires forall y :: 0 <= y < |rows| ==> x < |rows[y]|
    ensures |c| == |rows|
  {
    seq(|rows|, y requires 0 <= y < |rows| => rows[y][x])
  }

  /** A board built from `h` rows of `w` gems is full; its rows and columns are the lines the scans read. */
  lemma GridLines(rows: seq<seq<Gem>>, w: nat, h: nat)
    requires |rows| == h && forall y :: 0 <= y < h ==> |rows[y]| == w
    ensures Full(GridOf(rows), w, h)
    ensures forall y: nat :: y < h ==> LineGems(GridOf(rows), w, h, Vertical, y) == rows[y]
    ensures forall x: nat :: x < w ==> LineGems(GridOf(rows), w, h, Horizontal, x) == ColumnOf(rows, x)
  {
  }

  // ----- get_matches -----
  //
  // Each line of a test board gets a lemma of its own: one lemma that
  // unfolds the scan of several literal lines at once costs the solver far
  // more than the same lines taken one by one. A line without a run is
  // proved once and shared by every board that has it.

  /** The board of `check_horizontal_matches` (src/board.rs:233-241): its runs lie in columns. */
  function ColumnRunsRows(): seq<seq<Gem>>
  {
    [[ 0,  1,  2,  3,  4],
     [ 5,  6,  7,  3,  9],
     [10, 11, 12,  3, 14],
     [15, 16, 12, 18, 19],
     [20, 26, 12, 23, 24],
     [25, 26, 27, 28, 24],
     [30, 26, 32, 33, 24]]
  }

  /** The columns of the rows `ColumnRunsRows`. */
  lemma ColumnRunsColumnsOf()
    ensures ColumnOf(ColumnRunsRows(), 0) == [0, 5, 10, 15, 20, 25, 30]
    ensures ColumnOf(ColumnRunsRows(), 1) == [1, 6, 11, 16, 26, 26, 26]
    ensures ColumnOf(ColumnRunsRows(), 2) == [2, 7, 12, 12, 12, 27, 32]
    ensures ColumnOf(ColumnRunsRows(), 3) == [3, 3, 3, 18, 23, 28, 33]
    ensures ColumnOf(ColumnRunsRows(), 4) == [4, 9, 14, 19, 24, 24, 24]
  {
  }

  /** The columns of the board `ColumnRunsRows`, as the column scan reads them. */
  lemma ColumnRunsColumns(m: map<Pos, Gem>)
    requires m == GridOf(ColumnRunsRows())
    ensures Full(m, 5, 7)
    ensures LineGems(m, 5, 7, Horizontal, 0) == [0, 5, 10, 15, 20, 25, 30]
    ensures LineGems(m, 5, 7, Horizontal, 1) == [1, 6, 11, 16, 26, 26, 26]
    ensures LineGems(m, 5, 7, Horizontal, 2) == [2, 7, 12, 12, 12, 27, 32]
    ensures LineGems(m, 5, 7, Horizontal, 3) == [3, 3, 3, 18, 23, 28, 33]
    ensures LineGems(m, 5, 7, Horizontal, 4) == [4, 9, 14, 19, 24, 24, 24]
  {
    GridLines(ColumnRunsRows(), 5, 7);
    ColumnRunsColumnsOf();
  }

  /** The rows of the board `ColumnRunsRows`, as the row scan reads them. */
  lemma ColumnRunsRowLines(m: map<Pos, Gem>)
    requires m == GridOf(ColumnRunsRows())
    ensures Full(m, 5, 7)
    ensures LineGems(m, 5, 7, Vertical, 0) == [0, 1, 2, 3, 4]
    ensures LineGems(m, 5, 7, Vertical, 1) == [5, 6, 7, 3, 9]
    ensures LineGems(m, 5, 7, Vertical, 2) == [10, 11, 12, 3, 14]
    ensures LineGems(m, 5, 7, Vertical, 3) == [15, 16, 12, 18, 19]
    ensures LineGems(m, 5, 7, Vertical, 4) == [20, 26, 12, 23, 24]
    ensures LineGems(m, 5, 7, Vertical, 5) == [25, 26, 27, 28, 24]
    ensures LineGems(m, 5, 7, Vertical, 6) == [30, 26, 32, 33, 24]
  {
    GridLines(ColumnRunsRows(), 5, 7);
  }

  lemma ColumnRunsColumn1(s: seq<Gem>)
    requires s == [1, 6, 11, 16, 26, 26, 26]
    ensures ScanDefined(s)
    ensures LineMatches(Line(Horizontal, 1, 7), s) == [Straight({Pos(1, 4), Pos(1, 5), Pos(1, 6)})]
  {
    var line := Line(Horizontal, 1, 7);
    LineOneRunUpTo(line, s, 4, 7, 7);
    assert line[4..7] == [Pos(1, 4), Pos(1, 5), Pos(1, 6)];
    assert ToSet(line[4..7]) == {Pos(1, 4), Pos(1, 5), Pos(1, 6)};
  }

  lemma ColumnRunsColumn2(s: seq<Gem>)
    requires s == [2, 7, 12, 12, 12, 27, 32]
    ensures ScanDefined(s)
    ensures LineMatches(Line(Horizontal, 2, 7), s) == [Straight({Pos(2, 2), Pos(2, 3), Pos(2, 4)})]
  {
    var line := Line(Horizontal, 2, 7);
    LineOneRunUpTo(line, s, 2, 5, 7);
    assert line[2..5] == [Pos(2, 2), Pos(2, 3), Pos(2, 4)];
    assert ToSet(line[2..5]) == {Pos(2, 2), Pos(2, 3), Pos(2, 4)};
  }

  lemma ColumnRunsColumn3(s: seq<Gem>)
    requires s == [3, 3, 3, 18, 23, 28, 33]
    ensures ScanDefined(s)
    ensures LineMatches(Line(Horizontal, 3, 7), s) == [Straight({Pos(3, 0), Pos(3, 1), Pos(3, 2)})]
  {
    var line := Line(Horizontal, 3, 7);
    LineOneRunUpTo(line, s, 0, 3, 7);
    assert line[0..3] == [Pos(3, 0), Pos(3, 1), Pos(3, 2)];
    assert ToSet(line[0..3]) == {Pos(3, 0), Pos(3, 1), Pos(3, 2)};
  }

  lemma ColumnRunsColumn4(s: seq<Gem>)
    requires s == [4, 9, 14, 19, 24, 24, 24]
    ensures ScanDefined(s)
    ensures LineMatches(Line(Horizontal, 4, 7), s) == [Straight({Pos(4, 4), Pos(4, 5), Pos(4, 6)})]
  {
    var line := Line(Horizontal, 4, 7);
    LineOneRunUpTo(line, s, 4, 7, 7);
    assert line[4..7] == [Pos(4, 4), Pos(4, 5), Pos(4, 6)];
    assert ToSet(line[4..7]) == {Pos(4, 4), Pos(4, 5), Pos(4, 6)};
  }

  /** Column 0 of `ColumnRunsRows`, `SwappedRows`: no three equal gems in a row. */
  lemma ColumnRunsQuietColumn0(s: seq<Gem>)
    requires s == [0, 5, 10, 15, 20, 25, 30]
    ensures ScanDefined(s)
    ensures LineMatches(Line(Horizontal, 0, 7), s) == []
  {
    NoTripleScanDefined(s);
    NoTripleNoLineMatches(Line(Horizontal, 0, 7), s, 7);
  }

  /** The column scan of `ColumnRunsRows` runs to completion and finds 4 matches. */
  lemma ColumnRunsColumnScan(m: map<Pos, Gem>)
    requires Full(m, 5, 7)
    requires LineGems(m, 5, 7, Horizontal, 0) == [0, 5, 10, 15, 20, 25, 30]
    requires LineGems(m, 5, 7, Horizontal, 1) == [1, 6, 11, 16, 26, 26, 26]
    requires LineGems(m, 5, 7, Horizontal, 2) == [2, 7, 12, 12, 12, 27, 32]
    requires LineGems(m, 5, 7, Horizontal, 3) == [3, 3, 3, 18, 23, 28, 33]
    requires LineGems(m, 5, 7, Horizontal, 4) == [4, 9, 14, 19, 24, 24, 24]
    ensures ScanDefinedAll(m, 5, 7, Horizontal)
    ensures ScanMatches(m, 5, 7, Horizontal) == [Straight({Pos(1, 4), Pos(1, 5), Pos(1, 6)}), Straight({Pos(2, 2), Pos(2, 3), Pos(2, 4)}), Straight({Pos(3, 0), Pos(3, 1), Pos(3, 2)}), Straight({Pos(4, 4), Pos(4, 5), Pos(4, 6)})]
  {
    ColumnRunsColumn1(LineGems(m, 5, 7, Horizontal, 1));
    ColumnRunsColumn2(LineGems(m, 5, 7, Horizontal, 2));
    ColumnRunsColumn3(LineGems(m, 5, 7, Horizontal, 3));
    ColumnRunsColumn4(LineGems(m, 5, 7, Horizontal, 4));
    ColumnRunsQuietColumn0(LineGems(m, 5, 7, Horizontal, 0));
    forall one | 0 <= one < 5
      ensures ScanDefined(LineTypes(m, Line(Horizontal, one, 7)))
    {
      assert one == 0 || one == 1 || one == 2 || one == 3 || one == 4;
    }
    assert ScanUpTo(m, 5, 7, Horizontal, 1) == [];
    assert ScanUpTo(m, 5, 7, Horizontal, 2) == [Straight({Pos(1, 4), Pos(1, 5), Pos(1, 6)})];
    assert ScanUpTo(m, 5, 7, Horizontal, 3) == [Straight({Pos(1, 4), Pos(1, 5), Pos(1, 6)}), Straight({Pos(2, 2), Pos(2, 3), Pos(2, 4)})];
    assert ScanUpTo(m, 5, 7, Horizontal, 4) == [Straight({Pos(1, 4), Pos(1, 5), Pos(1, 6)}), Straight({Pos(2, 2), Pos(2, 3), Pos(2, 4)}), Straight({Pos(3, 0), Pos(3, 1), Pos(3, 2)})];
  }

  /** Row 0 of `ColumnRunsRows`, `MixedRows`, `SwappedRows`: no three equal gems in a row. */
  lemma ColumnRunsQuietRow0(s: seq<Gem>)
    requires s == [0, 1, 2, 3, 4]
    ensures ScanDefined(s)
    ensures LineMatches(Line(Vertical, 0, 5), s) == []
  {
    NoTripleScanDefined(s);
    NoTripleNoLineMatches(Line(Vertical, 0, 5), s, 5);
  }

  /** Row 1 of `ColumnRunsRows`: no three equal gems in a row. */
  lemma ColumnRunsQuietRow1(s: seq<Gem>)
    requires s == [5, 6, 7, 3, 9]
    ensures ScanDefined(s)
    ensures LineMatches(Line(Vertical, 1, 5), s) == []
  {
    NoTripleScanDefined(s);
    NoTripleNoLineMatches(Line(Vertical, 1, 5), s, 5);
  }

  /** Row 2 of `ColumnRunsRows`: no three equal gems in a row. */
  lemma ColumnRunsQuietRow2(s: seq<Gem>)
    requires s == [10, 11, 12, 3, 14]
    ensures ScanDefined(s)
    ensures LineMatches(Line(Vertical, 2, 5), s) == []
  {
    NoTripleScanDefined(s);
    NoTripleNoLineMatches(Line(Vertical, 2, 5), s, 5);
  }

  /** Row 3 of `ColumnRunsRows`: no three equal gems in a row. */
  lemma ColumnRunsQuietRow3(s: seq<Gem>)
    requires s == [15, 16, 12, 18, 19]
    ensures ScanDefined(s)
    ensures LineMatches(Line(Vertical, 3, 5), s) == []
  {
    NoTripleScanDefined(s);
    NoTripleNoLineMatches(Line(Vertical, 3, 5), s, 5);
  }

  /** Row 4 of `ColumnRunsRows`: no three equal gems in a row. */
  lemma ColumnRunsQuietRow4(s: seq<Gem>)
    requires s == [20, 26, 12, 23, 24]
    ensures ScanDefined(s)
    ensures LineMatches(Line(Vertical, 4, 5), s) == []
  {
    NoTripleScanDefined(s);
    NoTripleNoLineMatches(Line(Vertical, 4, 5), s, 5);
  }

  /** Row 5 of `ColumnRunsRows`: no three equal gems in a row. */
  lemma ColumnRunsQuietRow5(s: seq<Gem>)
    requires s == [25, 26, 27, 28, 24]
    ensures ScanDefined(s)
    ensures LineMatches(Line(Vertical, 5, 5), s) == []
  {
    NoTripleScanDefined(s);
    NoTripleNoLineMatches(Line(Vertical, 5, 5), s, 5);
  }

  /** Row 6 of `ColumnRunsRows`: no three equal gems in a row. */
  lemma ColumnRunsQuietRow6(s: seq<Gem>)
    requires s == [30, 26, 32, 33, 24]
    ensures ScanDefined(s)
    ensures LineMatches(Line(Vertical, 6, 5), s) == []
  {
    NoTripleScanDefined(s);
    NoTripleNoLineMatches(Line(Vertical, 6, 5), s, 5);
  }

  /** The row scan of `ColumnRunsRows` runs to completion and finds 0 matches. */
  lemma ColumnRunsRowScan(m: map<Pos, Gem>)
    requires Full(m, 5, 7)
    requires LineGems(m, 5, 7, Vertical, 0) == [0, 1, 2, 3, 4]
    requires LineGems(m, 5, 7, Vertical, 1) == [5, 6, 7, 3, 9]
    requires LineGems(m, 5, 7, Vertical, 2) == [10, 11, 12, 3, 14]
    requires LineGems(m, 5, 7, Vertical, 3) == [15, 16, 12, 18, 19]
    requires LineGems(m, 5, 7, Vertical, 4) == [20, 26, 12, 23, 24]
    requires LineGems(m, 5, 7, Vertical, 5) == [25, 26, 27, 28, 24]
    requires LineGems(m, 5, 7, Vertical, 6) == [30, 26, 32, 33, 24]
    ensures ScanDefinedAll(m, 5, 7, Vertical)
    ensures ScanMatches(m, 5, 7, Vertical) == []
  {
    ColumnRunsQuietRow0(LineGems(m, 5, 7, Vertical, 0));
    ColumnRunsQuietRow1(LineGems(m, 5, 7, Vertical, 1));
    ColumnRunsQuietRow2(LineGems(m, 5, 7, Vertical, 2));
    ColumnRunsQuietRow3(LineGems(m, 5, 7, Vertical, 3));
    ColumnRunsQuietRow4(LineGems(m, 5, 7, Vertical, 4));
    ColumnRunsQuietRow5(LineGems(m, 5, 7, Vertical, 5));
    ColumnRunsQuietRow6(LineGems(m, 5, 7, Vertical, 6));
    forall one | 0 <= one < 7
      ensures ScanDefined(LineTypes(m, Line(Vertical, one, 5)))
    {
      assert one == 0 || one == 1 || one == 2 || one == 3 || one == 4 || one == 5 || one == 6;
    }
    assert ScanUpTo(m, 5, 7, Vertical, 1) == [];
    assert ScanUpTo(m, 5, 7, Vertical, 2) == [];
    assert ScanUpTo(m, 5, 7, Vertical, 3) == [];
    assert ScanUpTo(m, 5, 7, Vertical, 4) == [];
    assert ScanUpTo(m, 5, 7, Vertical, 5) == [];
    assert ScanUpTo(m, 5, 7, Vertical, 6) == [];
  }

  /** The matches `get_matches` returns for the board `ColumnRunsRows`: the column runs, then the row runs. */
  lemma ColumnRunsMatches(m: map<Pos, Gem>)
    requires m == GridOf(ColumnRunsRows())
    ensures Scannable(m, 5, 7)
    ensures MatchesOf(m, 5, 7) == [Straight({Pos(1, 4), Pos(1, 5), Pos(1, 6)}), Straight({Pos(2, 2), Pos(2, 3), Pos(2, 4)}), Straight({Pos(3, 0), Pos(3, 1), Pos(3, 2)}), Straight({Pos(4, 4), Pos(4, 5), Pos(4, 6)})]
  {
    ColumnRunsColumns(m);
    ColumnRunsRowLines(m);
    ColumnRunsColumnScan(m);
    ColumnRunsRowScan(m);
  }

  /** The board of `check_vertical_matches` (src/board.rs:266-274): its runs lie in rows. */
  function RowRunsRows(): seq<seq<Gem>>
  {
    [[ 0,  3,  3,  3,  4],
     [ 5,  6,  7,  8,  9],
     [11, 11, 11, 13, 14],
     [15, 16, 17, 18, 19],
     [20, 21, 22, 23, 24],
     [25, 26, 29, 29, 29],
     [30, 30, 30, 33, 34]]
  }

  /** The columns of the rows `RowRunsRows`. */
  lemma RowRunsColumnsOf()
    ensures ColumnOf(RowRunsRows(), 0) == [0, 5, 11, 15, 20, 25, 30]
    ensures ColumnOf(RowRunsRows(), 1) == [3, 6, 11, 16, 21, 26, 30]
    ensures ColumnOf(RowRunsRows(), 2) == [3, 7, 11, 17, 22, 29, 30]
    ensures ColumnOf(RowRunsRows(), 3) == [3, 8, 13, 18, 23, 29, 33]
    ensures ColumnOf(RowRunsRows(), 4) == [4, 9, 14, 19, 24, 29, 34]
  {
  }

  /** The columns of the board `RowRunsRows`, as the column scan reads them. */
  lemma RowRunsColumns(m: map<Pos, Gem>)
    requires m == GridOf(RowRunsRows())
    ensures Full(m, 5, 7)
    ensures LineGems(m, 5, 7, Horizontal, 0) == [0, 5, 11, 15, 20, 25, 30]
    ensures LineGems(m, 5, 7, Horizontal, 1) == [3, 6, 11, 16, 21, 26, 30]
    ensures LineGems(m, 5, 7, Horizontal, 2) == [3, 7, 11, 17, 22, 29, 30]
    ensures LineGems(m, 5, 7, Horizontal, 3) == [3, 8, 13, 18, 23, 29, 33]
    ensures LineGems(m, 5, 7, Horizontal, 4) == [4, 9, 14, 19, 24, 29, 34]
  {
    GridLines(RowRunsRows(), 5, 7);
    RowRunsColumnsOf();
  }

  /** The rows of the board `RowRunsRows`, as the row scan reads them. */
  lemma RowRunsRowLines(m: map<Pos, Gem>)
    requires m == GridOf(RowRunsRows())
    ensures Full(m, 5, 7)
    ensures LineGems(m, 5, 7, Vertical, 0) == [0, 3, 3, 3, 4]
    ensures LineGems(m, 5, 7, Vertical, 1) == [5, 6, 7, 8, 9]
    ensures LineGems(m, 5, 7, Vertical, 2) == [11, 11, 11, 13, 14]
    ensures LineGems(m, 5, 7, Vertical, 3) == [15, 16, 17, 18, 19]
    ensures LineGems(m, 5, 7, Vertical, 4) == [20, 21, 22, 23, 24]
    ensures LineGems(m, 5, 7, Vertical, 5) == [25, 26, 29, 29, 29]
    ensures LineGems(m, 5, 7, Vertical, 6) == [30, 30, 30, 33, 34]
  {
    GridLines(RowRunsRows(), 5, 7);
  }

  /** Column 0 of `RowRunsRows`: no three equal gems in a row. */
  lemma RowRunsQuietColumn0(s: seq<Gem>)
    requires s == [0, 5, 11, 15, 20, 25, 30]
    ensures ScanDefined(s)
    ensures LineMatches(Line(Horizontal, 0, 7), s) == []
  {
    NoTripleScanDefined(s);
    NoTripleNoLineMatches(Line(Horizontal, 0, 7), s, 7);
  }

  /** Column 1 of `RowRunsRows`: no three equal gems in a row. */
  lemma RowRunsQuietColumn1(s: seq<Gem>)
    requires s == [3, 6, 11, 16, 21, 26, 30]
    ensures ScanDefined(s)
    ensures LineMatches(Line(Horizontal, 1, 7), s) == []
  {
    NoTripleScanDefined(s);
    NoTripleNoLineMatches(Line(Horizontal, 1, 7), s, 7);
  }

  /** Column 2 of `RowRunsRows`: no three equal gems in a row. */
  lemma RowRunsQuietColumn2(s: seq<Gem>)
    requires s == [3, 7, 11, 17, 22, 29, 30]
    ensures ScanDefined(s)
    ensures LineMatches(Line(Horizontal, 2, 7), s) == []
  {
    NoTripleScanDefined(s);
    NoTripleNoLineMatches(Line(Horizontal, 2, 7), s, 7);
  }

  /** Column 3 of `RowRunsRows`: no three equal gems in a row. */
  lemma RowRunsQuietColumn3(s: seq<Gem>)
    requires s == [3, 8, 13, 18, 23, 29, 33]
    ensures ScanDefined(s)
    ensures LineMatches(Line(Horizontal, 3, 7), s) == []
  {
    NoTripleScanDefined(s);
    NoTripleNoLineMatches(Line(Horizontal, 3, 7), s, 7);
  }

  /** Column 4 of `RowRunsRows`, `MixedRows`, `SwappedRows`: no three equal gems in a row. */
  lemma RowRunsQuietColumn4(s: seq<Gem>)
    requires s == [4, 9, 14, 19, 24, 29, 34]
    ensures ScanDefined(s)
    ensures LineMatches(Line(Horizontal, 4, 7), s) == []
  {
    NoTripleScanDefined(s);
    NoTripleNoLineMatches(Line(Horizontal, 4, 7), s, 7);
  }

  /** The column scan of `RowRunsRows` runs to completion and finds 0 matches. */
  lemma RowRunsColumnScan(m: map<Pos, Gem>)
    requires Full(m, 5, 7)
    requires LineGems(m, 5, 7, Horizontal, 0) == [0, 5, 11, 15, 20, 25, 30]
    requires LineGems(m, 5, 7, Horizontal, 1) == [3, 6, 11, 16, 21, 26, 30]
    requires LineGems(m, 5, 7, Horizontal, 2) == [3, 7, 11, 17, 22, 29, 30]
    requires LineGems(m, 5, 7, Horizontal, 3) == [3, 8, 13, 18, 23, 29, 33]
    requires LineGems(m, 5, 7, Horizontal, 4) == [4, 9, 14, 19, 24, 29, 34]
    ensures ScanDefinedAll(m, 5, 7, Horizontal)
    ensures ScanMatches(m, 5, 7, Horizontal) == []
  {
    RowRunsQuietColumn0(LineGems(m, 5, 7, Horizontal, 0));
    RowRunsQuietColumn1(LineGems(m, 5, 7, Horizontal, 1));
    RowRunsQuietColumn2(LineGems(m, 5, 7, Horizontal, 2));
    RowRunsQuietColumn3(LineGems(m, 5, 7, Horizontal, 3));
    RowRunsQuietColumn4(LineGems(m, 5, 7, Horizontal, 4));
    forall one | 0 <= one < 5
      ensures ScanDefined(LineTypes(m, Line(Horizontal, one, 7)))
    {
      assert one == 0 || one == 1 || one == 2 || one == 3 || one == 4;
    }
    assert ScanUpTo(m, 5, 7, Horizontal, 1) == [];
    assert ScanUpTo(m, 5, 7, Horizontal, 2) == [];
    assert ScanUpTo(m, 5, 7, Horizontal, 3) == [];
    assert ScanUpTo(m, 5, 7, Horizontal, 4) == [];
  }

  lemma RowRunsRow0(s: seq<Gem>)
    requires s == [0, 3, 3, 3, 4]
    ensures ScanDefined(s)
    ensures LineMatches(Line(Vertical, 0, 5), s) == [Straight({Pos(1, 0), Pos(2, 0), Pos(3, 0)})]
  {
    var line := Line(Vertical, 0, 5);
    LineOneRunUpTo(line, s, 1, 4, 5);
    assert line[1..4] == [Pos(1, 0), Pos(2, 0), Pos(3, 0)];
    assert ToSet(line[1..4]) == {Pos(1, 0), Pos(2, 0), Pos(3, 0)};
  }

  lemma RowRunsRow2(s: seq<Gem>)
    requires s == [11, 11, 11, 13, 14]
    ensures ScanDefined(s)
    ensures LineMatches(Line(Vertical, 2, 5), s) == [Straight({Pos(0, 2), Pos(1, 2), Pos(2, 2)})]
  {
    var line := Line(Vertical, 2, 5);
    LineOneRunUpTo(line, s, 0, 3, 5);
    assert line[0..3] == [Pos(0, 2), Pos(1, 2), Pos(2, 2)];
    assert ToSet(line[0..3]) == {Pos(0, 2), Pos(1, 2), Pos(2, 2)};
  }

  lemma RowRunsRow5(s: seq<Gem>)
    requires s == [25, 26, 29, 29, 29]
    ensures ScanDefined(s)
    ensures LineMatches(Line(Vertical, 5, 5), s) == [Straight({Pos(2, 5), Pos(3, 5), Pos(4, 5)})]
  {
    var line := Line(Vertical, 5, 5);
    LineOneRunUpTo(line, s, 2, 5, 5);
    assert line[2..5] == [Pos(2, 5), Pos(3, 5), Pos(4, 5)];
    assert ToSet(line[2..5]) == {Pos(2, 5), Pos(3, 5), Pos(4, 5)};
  }

  lemma RowRunsRow6(s: seq<Gem>)
    requires s == [30, 30, 30, 33, 34]
    ensures ScanDefined(s)
    ensures LineMatches(Line(Vertical, 6, 5), s) == [Straight({Pos(0, 6), Pos(1, 6), Pos(2, 6)})]
  {
    var line := Line(Vertical, 6, 5);
    LineOneRunUpTo(line, s, 0, 3, 5);
    assert line[0..3] == [Pos(0, 6), Pos(1, 6), Pos(2, 6)];
    assert ToSet(line[0..3]) == {Pos(0, 6), Pos(1, 6), Pos(2, 6)};
  }

  /** Row 1 of `RowRunsRows`, `MixedRows`, `SwappedRows`: no three equal gems in a row. */
  lemma RowRunsQuietRow1(s: seq<Gem>)
    requires s == [5, 6, 7, 8, 9]
    ensures ScanDefined(s)
    ensures LineMatches(Line(Vertical, 1, 5), s) == []
  {
    NoTripleScanDefined(s);
    NoTripleNoLineMatches(Line(Vertical, 1, 5), s, 5);
  }

  /** Row 3 of `RowRunsRows`: no three equal gems in a row. */
  lemma RowRunsQuietRow3(s: seq<Gem>)
    requires s == [15, 16, 17, 18, 19]
    ensures ScanDefined(s)
    ensures LineMatches(Line(Vertical, 3, 5), s) == []
  {
    NoTripleScanDefined(s);
    NoTripleNoLineMatches(Line(Vertical, 3, 5), s, 5);
  }

  /** Row 4 of `RowRunsRows`, `MixedRows`: no three equal gems in a row. */
  lemma RowRunsQuietRow4(s: seq<Gem>)
    requires s == [20, 21, 22, 23, 24]
    ensures ScanDefined(s)
    ensures LineMatches(Line(Vertical, 4, 5), s) == []
  {
    NoTripleScanDefined(s);
    NoTripleNoLineMatches(Line(Vertical, 4, 5), s, 5);
  }

  /** The row scan of `RowRunsRows` runs to completion and finds 4 matches. */
  lemma RowRunsRowScan(m: map<Pos, Gem>)
    requires Full(m, 5, 7)
    requires LineGems(m, 5, 7, Vertical, 0) == [0, 3, 3, 3, 4]
    requires LineGems(m, 5, 7, Vertical, 1) == [5, 6, 7, 8, 9]
    requires LineGems(m, 5, 7, Vertical, 2) == [11, 11, 11, 13, 14]
    requires LineGems(m, 5, 7, Vertical, 3) == [15, 16, 17, 18, 19]
    requires LineGems(m, 5, 7, Vertical, 4) == [20, 21, 22, 23, 24]
    requires LineGems(m, 5, 7, Vertical, 5) == [25, 26, 29, 29, 29]
    requires LineGems(m, 5, 7, Vertical, 6) == [30, 30, 30, 33, 34]
    ensures ScanDefinedAll(m, 5, 7, Vertical)
    ensures ScanMatches(m, 5, 7, Vertical) == [Straight({Pos(1, 0), Pos(2, 0), Pos(3, 0)}), Straight({Pos(0, 2), Pos(1, 2), Pos(2, 2)}), Straight({Pos(2, 5), Pos(3, 5), Pos(4, 5)}), Straight({Pos(0, 6), Pos(1, 6), Pos(2, 6)})]
  {
    RowRunsRow0(LineGems(m, 5, 7, Vertical, 0));
    RowRunsRow2(LineGems(m, 5, 7, Vertical, 2));
    RowRunsRow5(LineGems(m, 5, 7, Vertical, 5));
    RowRunsRow6(LineGems(m, 5, 7, Vertical, 6));
    RowRunsQuietRow1(LineGems(m, 5, 7, Vertical, 1));
    RowRunsQuietRow3(LineGems(m, 5, 7, Vertical, 3));
    RowRunsQuietRow4(LineGems(m, 5, 7, Vertical, 4));
    forall one | 0 <= one < 7
      ensures ScanDefined(LineTypes(m, Line(Vertical, one, 5)))
    {
      assert one == 0 || one == 1 || one == 2 || one == 3 || one == 4 || one == 5 || one == 6;
    }
    assert ScanUpTo(m, 5, 7, Vertical, 1) == [Straight({Pos(1, 0), Pos(2, 0), Pos(3, 0)})];
    assert ScanUpTo(m, 5, 7, Vertical, 2) == [Straight({Pos(1, 0), Pos(2, 0), Pos(3, 0)})];
    assert ScanUpTo(m, 5, 7, Vertical, 3) == [Straight({Pos(1, 0), Pos(2, 0), Pos(3, 0)}), Straight({Pos(0, 2), Pos(1, 2), Pos(2, 2)})];
    assert ScanUpTo(m, 5, 7, Vertical, 4) == [Straight({Pos(1, 0), Pos(2, 0), Pos(3, 0)}), Straight({Pos(0, 2), Pos(1, 2), Pos(2, 2)})];
    assert ScanUpTo(m, 5, 7, Vertical, 5) == [Straight({Pos(1, 0), Pos(2, 0), Pos(3, 0)}), Straight({Pos(0, 2), Pos(1, 2), Pos(2, 2)})];
    assert ScanUpTo(m, 5, 7, Vertical, 6) == [Straight({Pos(1, 0), Pos(2, 0), Pos(3, 0)}), Straight({Pos(0, 2), Pos(1, 2), Pos(2, 2)}), Straight({Pos(2, 5), Pos(3, 5), Pos(4, 5)})];
  }

  /** The matches `get_matches` returns for the board `RowRunsRows`: the column runs, then the row runs. */
  lemma RowRunsMatches(m: map<Pos, Gem>)
    requires m == GridOf(RowRunsRows())
    ensures Scannable(m, 5, 7)
    ensures MatchesOf(m, 5, 7) == [Straight({Pos(1, 0), Pos(2, 0), Pos(3, 0)}), Straight({Pos(0, 2), Pos(1, 2), Pos(2, 2)}), Straight({Pos(2, 5), Pos(3, 5), Pos(4, 5)}), Straight({Pos(0, 6), Pos(1, 6), Pos(2, 6)})]
  {
    RowRunsColumns(m);
    RowRunsRowLines(m);
    RowRunsColumnScan(m);
    RowRunsRowScan(m);
  }

  /** The board of `check_both_directions_matches` and of the removal tests (src/board.rs:299-307, 332-340). */
  function MixedRows(): seq<seq<Gem>>
  {
    [[ 0,  1,  2,  3,  4],
     [ 5,  6,  7,  8,  9],
     [11, 11, 11,  8, 14],
     [15, 16, 17,  8, 19],
     [20, 21, 22, 23, 24],
     [20, 26, 29, 29, 29],
     [20, 31, 32, 33, 34]]
  }

  /** The columns of the rows `MixedRows`. */
  lemma MixedColumnsOf()
    ensures ColumnOf(MixedRows(), 0) == [0, 5, 11, 15, 20, 20, 20]
    ensures ColumnOf(MixedRows(), 1) == [1, 6, 11, 16, 21, 26, 31]
    ensures ColumnOf(MixedRows(), 2) == [2, 7, 11, 17, 22, 29, 32]
    ensures ColumnOf(MixedRows(), 3) == [3, 8, 8, 8, 23, 29, 33]
    ensures ColumnOf(MixedRows(), 4) == [4, 9, 14, 19, 24, 29, 34]
  {
  }

  /** The columns of the board `MixedRows`, as the column scan reads them. */
  lemma MixedColumns(m: map<Pos, Gem>)
    requires m == GridOf(MixedRows())
    ensures Full(m, 5, 7)
    ensures LineGems(m, 5, 7, Horizontal, 0) == [0, 5, 11, 15, 20, 20, 20]
    ensures LineGems(m, 5, 7, Horizontal, 1) == [1, 6, 11, 16, 21, 26, 31]
    ensures LineGems(m, 5, 7, Horizontal, 2) == [2, 7, 11, 17, 22, 29, 32]
    ensures LineGems(m, 5, 7, Horizontal, 3) == [3, 8, 8, 8, 23, 29, 33]
    ensures LineGems(m, 5, 7, Horizontal, 4) == [4, 9, 14, 19, 24, 29, 34]
  {
    GridLines(MixedRows(), 5, 7);
    MixedColumnsOf();
  }

  /** The rows of the board `MixedRows`, as the row scan reads them. */
  lemma MixedRowLines(m: map<Pos, Gem>)
    requires m == GridOf(MixedRows())
    ensures Full(m, 5, 7)
    ensures LineGems(m, 5, 7, Vertical, 0) == [0, 1, 2, 3, 4]
    ensures LineGems(m, 5, 7, Vertical, 1) == [5, 6, 7, 8, 9]
    ensures LineGems(m, 5, 7, Vertical, 2) == [11, 11, 11, 8, 14]
    ensures LineGems(m, 5, 7, Vertical, 3) == [15, 16, 17, 8, 19]
    ensures LineGems(m, 5, 7, Vertical, 4) == [20, 21, 22, 23, 24]
    ensures LineGems(m, 5, 7, Vertical, 5) == [20, 26, 29, 29, 29]
    ensures LineGems(m, 5, 7, Vertical, 6) == [20, 31, 32, 33, 34]
  {
    GridLines(MixedRows(), 5, 7);
  }

  lemma MixedColumn0(s: seq<Gem>)
    requires s == [0, 5, 11, 15, 20, 20, 20]
    ensures ScanDefined(s)
    ensures LineMatches(Line(Horizontal, 0, 7), s) == [Straight({Pos(0, 4), Pos(0, 5), Pos(0, 6)})]
  {
    var line := Line(Horizontal, 0, 7);
    LineOneRunUpTo(line, s, 4, 7, 7);
    assert line[4..7] == [Pos(0, 4), Pos(0, 5), Pos(0, 6)];
    assert ToSet(line[4..7]) == {Pos(0, 4), Pos(0, 5), Pos(0, 6)};
  }

  lemma MixedColumn3(s: seq<Gem>)
    requires s == [3, 8, 8, 8, 23, 29, 33]
    ensures ScanDefined(s)
    ensures LineMatches(Line(Horizontal, 3, 7), s) == [Straight({Pos(3, 1), Pos(3, 2), Pos(3, 3)})]
  {
    var line := Line(Horizontal, 3, 7);
    LineOneRunUpTo(line, s, 1, 4, 7);
    assert line[1..4] == [Pos(3, 1), Pos(3, 2), Pos(3, 3)];
    assert ToSet(line[1..4]) == {Pos(3, 1), Pos(3, 2), Pos(3, 3)};
  }

  /** Column 1 of `MixedRows`: no three equal gems in a row. */
  lemma MixedQuietColumn1(s: seq<Gem>)
    requires s == [1, 6, 11, 16, 21, 26, 31]
    ensures ScanDefined(s)
    ensures LineMatches(Line(Horizontal, 1, 7), s) == []
  {
    NoTripleScanDefined(s);
    NoTripleNoLineMatches(Line(Horizontal, 1, 7), s, 7);
  }

  /** Column 2 of `MixedRows`: no three equal gems in a row. */
  lemma MixedQuietColumn2(s: seq<Gem>)
    requires s == [2, 7, 11, 17, 22, 29, 32]
    ensures ScanDefined(s)
    ensures LineMatches(Line(Horizontal, 2, 7), s) == []
  {
    NoTripleScanDefined(s);
    NoTripleNoLineMatches(Line(Horizontal, 2, 7), s, 7);
  }

  /** The column scan of `MixedRows` runs to completion and finds 2 matches. */
  lemma MixedColumnScan(m: map<Pos, Gem>)
    requires Full(m, 5, 7)
    requires LineGems(m, 5, 7, Horizontal, 0) == [0, 5, 11, 15, 20, 20, 20]
    requires LineGems(m, 5, 7, Horizontal, 1) == [1, 6, 11, 16, 21, 26, 31]
    requires LineGems(m, 5, 7, Horizontal, 2) == [2, 7, 11, 17, 22, 29, 32]
    requires LineGems(m, 5, 7, Horizontal, 3) == [3, 8, 8, 8, 23, 29, 33]
    requires LineGems(m, 5, 7, Horizontal, 4) == [4, 9, 14, 19, 24, 29, 34]
    ensures ScanDefinedAll(m, 5, 7, Horizontal)
    ensures ScanMatches(m, 5, 7, Horizontal) == [Straight({Pos(0, 4), Pos(0, 5), Pos(0, 6)}), Straight({Pos(3, 1), Pos(3, 2), Pos(3, 3)})]
  {
    MixedColumn0(LineGems(m, 5, 7, Horizontal, 0));
    MixedColumn3(LineGems(m, 5, 7, Horizontal, 3));
    MixedQuietColumn1(LineGems(m, 5, 7, Horizontal, 1));
    MixedQuietColumn2(LineGems(m, 5, 7, Horizontal, 2));
    RowRunsQuietColumn4(LineGems(m, 5, 7, Horizontal, 4));
    forall one | 0 <= one < 5
      ensures ScanDefined(LineTypes(m, Line(Horizontal, one, 7)))
    {
      assert one == 0 || one == 1 || one == 2 || one == 3 || one == 4;
    }
    assert ScanUpTo(m, 5, 7, Horizontal, 1) == [Straight({Pos(0, 4), Pos(0, 5), Pos(0, 6)})];
    assert ScanUpTo(m, 5, 7, Horizontal, 2) == [Straight({Pos(0, 4), Pos(0, 5), Pos(0, 6)})];
    assert ScanUpTo(m, 5, 7, Horizontal, 3) == [Straight({Pos(0, 4), Pos(0, 5), Pos(0, 6)})];
    assert ScanUpTo(m, 5, 7, Horizontal, 4) == [Straight({Pos(0, 4), Pos(0, 5), Pos(0, 6)}), Straight({Pos(3, 1), Pos(3, 2), Pos(3, 3)})];
  }

  lemma MixedRow2(s: seq<Gem>)
    requires s == [11, 11, 11, 8, 14]
    ensures ScanDefined(s)
    ensures LineMatches(Line(Vertical, 2, 5), s) == [Straight({Pos(0, 2), Pos(1, 2), Pos(2, 2)})]
  {
    var line := Line(Vertical, 2, 5);
    LineOneRunUpTo(line, s, 0, 3, 5);
    assert line[0..3] == [Pos(0, 2), Pos(1, 2), Pos(2, 2)];
    assert ToSet(line[0..3]) == {Pos(0, 2), Pos(1, 2), Pos(2, 2)};
  }

  lemma MixedRow5(s: seq<Gem>)
    requires s == [20, 26, 29, 29, 29]
    ensures ScanDefined(s)
    ensures LineMatches(Line(Vertical, 5, 5), s) == [Straight({Pos(2, 5), Pos(3, 5), Pos(4, 5)})]
  {
    var line := Line(Vertical, 5, 5);
    LineOneRunUpTo(line, s, 2, 5, 5);
    assert line[2..5] == [Pos(2, 5), Pos(3, 5), Pos(4, 5)];
    assert ToSet(line[2..5]) == {Pos(2, 5), Pos(3, 5), Pos(4, 5)};
  }

  /** Row 3 of `MixedRows`: no three equal gems in a row. */
  lemma MixedQuietRow3(s: seq<Gem>)
    requires s == [15, 16, 17, 8, 19]
    ensures ScanDefined(s)
    ensures LineMatches(Line(Vertical, 3, 5), s) == []
  {
    NoTripleScanDefined(s);
    NoTripleNoLineMatches(Line(Vertical, 3, 5), s, 5);
  }

  /** Row 6 of `MixedRows`: no three equal gems in a row. */
  lemma MixedQuietRow6(s: seq<Gem>)
    requires s == [20, 31, 32, 33, 34]
    ensures ScanDefined(s)
    ensures LineMatches(Line(Vertical, 6, 5), s) == []
  {
    NoTripleScanDefined(s);
    NoTripleNoLineMatches(Line(Vertical, 6, 5), s, 5);
  }

  /** The row scan of `MixedRows` runs to completion and finds 2 matches. */
  lemma MixedRowScan(m: map<Pos, Gem>)
    requires Full(m, 5, 7)
    requires LineGems(m, 5, 7, Vertical, 0) == [0, 1, 2, 3, 4]
    requires LineGems(m, 5, 7, Vertical, 1) == [5, 6, 7, 8, 9]
    requires LineGems(m, 5, 7, Vertical, 2) == [11, 11, 11, 8, 14]
    requires LineGems(m, 5, 7, Vertical, 3) == [15, 16, 17, 8, 19]
    requires LineGems(m, 5, 7, Vertical, 4) == [20, 21, 22, 23, 24]
    requires LineGems(m, 5, 7, Vertical, 5) == [20, 26, 29, 29, 29]
    requires LineGems(m, 5, 7, Vertical, 6) == [20, 31, 32, 33, 34]
    ensures ScanDefinedAll(m, 5, 7, Vertical)
    ensures ScanMatches(m, 5, 7, Vertical) == [Straight({Pos(0, 2), Pos(1, 2), Pos(2, 2)}), Straight({Pos(2, 5), Pos(3, 5), Pos(4, 5)})]
  {
    MixedRow2(LineGems(m, 5, 7, Vertical, 2));
    MixedRow5(LineGems(m, 5, 7, Vertical, 5));
    ColumnRunsQuietRow0(LineGems(m, 5, 7, Vertical, 0));
    RowRunsQuietRow1(LineGems(m, 5, 7, Vertical, 1));
    MixedQuietRow3(LineGems(m, 5, 7, Vertical, 3));
    RowRunsQuietRow4(LineGems(m, 5, 7, Vertical, 4));
    MixedQuietRow6(LineGems(m, 5, 7, Vertical, 6));
    forall one | 0 <= one < 7
      ensures ScanDefined(LineTypes(m, Line(Vertical, one, 5)))
    {
      assert one == 0 || one == 1 || one == 2 || one == 3 || one == 4 || one == 5 || one == 6;
    }
    assert ScanUpTo(m, 5, 7, Vertical, 1) == [];
    assert ScanUpTo(m, 5, 7, Vertical, 2) == [];
    assert ScanUpTo(m, 5, 7, Vertical, 3) == [Straight({Pos(0, 2), Pos(1, 2), Pos(2, 2)})];
    assert ScanUpTo(m, 5, 7, Vertical, 4) == [Straight({Pos(0, 2), Pos(1, 2), Pos(2, 2)})];
    assert ScanUpTo(m, 5, 7, Vertical, 5) == [Straight({Pos(0, 2), Pos(1, 2), Pos(2, 2)})];
    assert ScanUpTo(m, 5, 7, Vertical, 6) == [Straight({Pos(0, 2), Pos(1, 2), Pos(2, 2)}), Straight({Pos(2, 5), Pos(3, 5), Pos(4, 5)})];
  }

  /** The matches `get_matches` returns for the board `MixedRows`: the column runs, then the row runs. */
  lemma MixedMatches(m: map<Pos, Gem>)
    requires m == GridOf(MixedRows())
    ensures Scannable(m, 5, 7)
    ensures MatchesOf(m, 5, 7) == [Straight({Pos(0, 4), Pos(0, 5), Pos(0, 6)}), Straight({Pos(3, 1), Pos(3, 2), Pos(3, 3)}), Straight({Pos(0, 2), Pos(1, 2), Pos(2, 2)}), Straight({Pos(2, 5), Pos(3, 5), Pos(4, 5)})]
  {
    MixedColumns(m);
    MixedRowLines(m);
    MixedColumnScan(m);
    MixedRowScan(m);
  }

  /** The board of `swap_gems` (src/lib.rs:107-115) after its swap of (1, 2) and (2, 2). */
  function SwappedRows(): seq<seq<Gem>>
  {
    [[ 0,  1,  2,  3,  4],
     [ 5,  6,  7,  8,  9],
     [10, 12, 11, 13, 14],
     [15, 16, 11, 18, 19],
     [20, 21, 11, 23, 24],
     [25, 26, 27, 28, 29],
     [30, 31, 32, 33, 34]]
  }

  /** The columns of the rows `SwappedRows`. */
  lemma SwappedColumnsOf()
    ensures ColumnOf(SwappedRows(), 0) == [0, 5, 10, 15, 20, 25, 30]
    ensures ColumnOf(SwappedRows(), 1) == [1, 6, 12, 16, 21, 26, 31]
    ensures ColumnOf(SwappedRows(), 2) == [2, 7, 11, 11, 11, 27, 32]
    ensures ColumnOf(SwappedRows(), 3) == [3, 8, 13, 18, 23, 28, 33]
    ensures ColumnOf(SwappedRows(), 4) == [4, 9, 14, 19, 24, 29, 34]
  {
  }

  /** The columns of the board `SwappedRows`, as the column scan reads them. */
  lemma SwappedColumns(m: map<Pos, Gem>)
    requires m == GridOf(SwappedRows())
    ensures Full(m, 5, 7)
    ensures LineGems(m, 5, 7, Horizontal, 0) == [0, 5, 10, 15, 20, 25, 30]
    ensures LineGems(m, 5, 7, Horizontal, 1) == [1, 6, 12, 16, 21, 26, 31]
    ensures LineGems(m, 5, 7, Horizontal, 2) == [2, 7, 11, 11, 11, 27, 32]
    ensures LineGems(m, 5, 7, Horizontal, 3) == [3, 8, 13, 18, 23, 28, 33]
    ensures LineGems(m, 5, 7, Horizontal, 4) == [4, 9, 14, 19, 24, 29, 34]
  {
    GridLines(SwappedRows(), 5, 7);
    SwappedColumnsOf();
  }

  /** The rows of the board `SwappedRows`, as the row scan reads them. */
  lemma SwappedRowLines(m: map<Pos, Gem>)
    requires m == GridOf(SwappedRows())
    ensures Full(m, 5, 7)
    ensures LineGems(m, 5, 7, Vertical, 0) == [0, 1, 2, 3, 4]
    ensures LineGems(m, 5, 7, Vertical, 1) == [5, 6, 7, 8, 9]
    ensures LineGems(m, 5, 7, Vertical, 2) == [10, 12, 11, 13, 14]
    ensures LineGems(m, 5, 7, Vertical, 3) == [15, 16, 11, 18, 19]
    ensures LineGems(m, 5, 7, Vertical, 4) == [20, 21, 11, 23, 24]
    ensures LineGems(m, 5, 7, Vertical, 5) == [25, 26, 27, 28, 29]
    ensures LineGems(m, 5, 7, Vertical, 6) == [30, 31, 32, 33, 34]
  {
    GridLines(SwappedRows(), 5, 7);
  }

  lemma SwappedColumn2(s: seq<Gem>)
    requires s == [2, 7, 11, 11, 11, 27, 32]
    ensures ScanDefined(s)
    ensures LineMatches(Line(Horizontal, 2, 7), s) == [Straight({Pos(2, 2), Pos(2, 3), Pos(2, 4)})]
  {
    var line := Line(Horizontal, 2, 7);
    LineOneRunUpTo(line, s, 2, 5, 7);
    assert line[2..5] == [Pos(2, 2), Pos(2, 3), Pos(2, 4)];
    assert ToSet(line[2..5]) == {Pos(2, 2), Pos(2, 3), Pos(2, 4)};
  }

  /** Column 1 of `SwappedRows`: no three equal gems in a row. */
  lemma SwappedQuietColumn1(s: seq<Gem>)
    requires s == [1, 6, 12, 16, 21, 26, 31]
    ensures ScanDefined(s)
    ensures LineMatches(Line(Horizontal, 1, 7), s) == []
  {
    NoTripleScanDefined(s);
    NoTripleNoLineMatches(Line(Horizontal, 1, 7), s, 7);
  }

  /** Column 3 of `SwappedRows`: no three equal gems in a row. */
  lemma SwappedQuietColumn3(s: seq<Gem>)
    requires s == [3, 8, 13, 18, 23, 28, 33]
    ensures ScanDefined(s)
    ensures LineMatches(Line(Horizontal, 3, 7), s) == []
  {
    NoTripleScanDefined(s);
    NoTripleNoLineMatches(Line(Horizontal, 3, 7), s, 7);
  }

  /** The column scan of `SwappedRows` runs to completion and finds 1 match. */
  lemma SwappedColumnScan(m: map<Pos, Gem>)
    requires Full(m, 5, 7)
    requires LineGems(m, 5, 7, Horizontal, 0) == [0, 5, 10, 15, 20, 25, 30]
    requires LineGems(m, 5, 7, Horizontal, 1) == [1, 6, 12, 16, 21, 26, 31]
    requires LineGems(m, 5, 7, Horizontal, 2) == [2, 7, 11, 11, 11, 27, 32]
    requires LineGems(m, 5, 7, Horizontal, 3) == [3, 8, 13, 18, 23, 28, 33]
    requires LineGems(m, 5, 7, Horizontal, 4) == [4, 9, 14, 19, 24, 29, 34]
    ensures ScanDefinedAll(m, 5, 7, Horizontal)
    ensures ScanMatches(m, 5, 7, Horizontal) == [Straight({Pos(2, 2), Pos(2, 3), Pos(2, 4)})]
  {
    SwappedColumn2(LineGems(m, 5, 7, Horizontal, 2));
    ColumnRunsQuietColumn0(LineGems(m, 5, 7, Horizontal, 0));
    SwappedQuietColumn1(LineGems(m, 5, 7, Horizontal, 1));
    SwappedQuietColumn3(LineGems(m, 5, 7, Horizontal, 3));
    RowRunsQuietColumn4(LineGems(m, 5, 7, Horizontal, 4));
    forall one | 0 <= one < 5
      ensures ScanDefined(LineTypes(m, Line(Horizontal, one, 7)))
    {
      assert one == 0 || one == 1 || one == 2 || one == 3 || one == 4;
    }
    assert ScanUpTo(m, 5, 7, Horizontal, 1) == [];
    assert ScanUpTo(m, 5, 7, Horizontal, 2) == [];
    assert ScanUpTo(m, 5, 7, Horizontal, 3) == [Straight({Pos(2, 2), Pos(2, 3), Pos(2, 4)})];
    assert ScanUpTo(m, 5, 7, Horizontal, 4) == [Straight({Pos(2, 2), Pos(2, 3), Pos(2, 4)})];
  }

  /** Row 2 of `SwappedRows`: no three equal gems in a row. */
  lemma SwappedQuietRow2(s: seq<Gem>)
    requires s == [10, 12, 11, 13, 14]
    ensures ScanDefined(s)
    ensures LineMatches(Line(Vertical, 2, 5), s) == []
  {
    NoTripleScanDefined(s);
    NoTripleNoLineMatches(Line(Vertical, 2, 5), s, 5);
  }

  /** Row 3 of `SwappedRows`: no three equal gems in a row. */
  lemma SwappedQuietRow3(s: seq<Gem>)
    requires s == [15, 16, 11, 18, 19]
    ensures ScanDefined(s)
    ensures LineMatches(Line(Vertical, 3, 5), s) == []
  {
    NoTripleScanDefined(s);
    NoTripleNoLineMatches(Line(Vertical, 3, 5), s, 5);
  }

  /** Row 4 of `SwappedRows`: no three equal gems in a row. */
  lemma SwappedQuietRow4(s: seq<Gem>)
    requires s == [20, 21, 11, 23, 24]
    ensures ScanDefined(s)
    ensures LineMatches(Line(Vertical, 4, 5), s) == []
  {
    NoTripleScanDefined(s);
    NoTripleNoLineMatches(Line(Vertical, 4, 5), s, 5);
  }

  /** Row 5 of `SwappedRows`: no three equal gems in a row. */
  lemma SwappedQuietRow5(s: seq<Gem>)
    requires s == [25, 26, 27, 28, 29]
    ensures ScanDefined(s)
    ensures LineMatches(Line(Vertical, 5, 5), s) == []
  {
    NoTripleScanDefined(s);
    NoTripleNoLineMatches(Line(Vertical, 5, 5), s, 5);
  }

  /** Row 6 of `SwappedRows`: no three equal gems in a row. */
  lemma SwappedQuietRow6(s: seq<Gem>)
    requires s == [30, 31, 32, 33, 34]
    ensures ScanDefined(s)
    ensures LineMatches(Line(Vertical, 6, 5), s) == []
  {
    NoTripleScanDefined(s);
    NoTripleNoLineMatches(Line(Vertical, 6, 5), s, 5);
  }

  /** The row scan of `SwappedRows` runs to completion and finds 0 matches. */
  lemma SwappedRowScan(m: map<Pos, Gem>)
    requires Full(m, 5, 7)
    requires LineGems(m, 5, 7, Vertical, 0) == [0, 1, 2, 3, 4]
    requires LineGems(m, 5, 7, Vertical, 1) == [5, 6, 7, 8, 9]
    requires LineGems(m, 5, 7, Vertical, 2) == [10, 12, 11, 13, 14]
    requires LineGems(m, 5, 7, Vertical, 3) == [15, 16, 11, 18, 19]
    requires LineGems(m, 5, 7, Vertical, 4) == [20, 21, 11, 23, 24]
    requires LineGems(m, 5, 7, Vertical, 5) == [25, 26, 27, 28, 29]
    requires LineGems(m, 5, 7, Vertical, 6) == [30, 31, 32, 33, 34]
    ensures ScanDefinedAll(m, 5, 7, Vertical)
    ensures ScanMatches(m, 5, 7, Vertical) == []
  {
    ColumnRunsQuietRow0(LineGems(m, 5, 7, Vertical, 0));
    RowRunsQuietRow1(LineGems(m, 5, 7, Vertical, 1));
    SwappedQuietRow2(LineGems(m, 5, 7, Vertical, 2));
    SwappedQuietRow3(LineGems(m, 5, 7, Vertical, 3));
    SwappedQuietRow4(LineGems(m, 5, 7, Vertical, 4));
    SwappedQuietRow5(LineGems(m, 5, 7, Vertical, 5));
    SwappedQuietRow6(LineGems(m, 5, 7, Vertical, 6));
    forall one | 0 <= one < 7
      ensures ScanDefined(LineTypes(m, Line(Vertical, one, 5)))
    {
      assert one == 0 || one == 1 || one == 2 || one == 3 || one == 4 || one == 5 || one == 6;
    }
    assert ScanUpTo(m, 5, 7, Vertical, 1) == [];
    assert ScanUpTo(m, 5, 7, Vertical, 2) == [];
    assert ScanUpTo(m, 5, 7, Vertical, 3) == [];
    assert ScanUpTo(m, 5, 7, Vertical, 4) == [];
    assert ScanUpTo(m, 5, 7, Vertical, 5) == [];
    assert ScanUpTo(m, 5, 7, Vertical, 6) == [];
  }

  /** The matches `get_matches` returns for the board `SwappedRows`: the column runs, then the row runs. */
  lemma SwappedMatches(m: map<Pos, Gem>)
    requires m == GridOf(SwappedRows())
    ensures Scannable(m, 5, 7)
    ensures MatchesOf(m, 5, 7) == [Straight({Pos(2, 2), Pos(2, 3), Pos(2, 4)})]
  {
    SwappedColumns(m);
    SwappedRowLines(m);
    SwappedColumnScan(m);
    SwappedRowScan(m);
  }
  // ----- remove and drop -----

  /** After removing the gems `r` from a full board, the columns they were not taken from record no move. */
  lemma UntouchedColumns(m: map<Pos, Gem>, w: nat, h: nat, r: set<Pos>)
    requires Full(m, w, h)
    ensures forall x: nat :: x < w && (forall p :: p in r ==> p.x != x) ==> ColumnMoves(Column(m - r, x, h), x) == {}
  {
    forall x: nat | x < w && (forall p :: p in r ==> p.x != x)
      ensures ColumnMoves(Column(m - r, x, h), x) == {}
    {
      FullColumnNoMoves(Column(m - r, x, h), x);
    }
  }

  /** On a board five columns wide, when only columns `x1` and `x2` record moves, `drop` records theirs. */
  lemma MovesOfTwoColumns(m: map<Pos, Gem>, h: nat, x1: nat, x2: nat)
    requires x1 <= x2 < 5
    requires forall x: nat :: x < 5 && x != x1 && x != x2 ==> ColumnMoves(Column(m, x, h), x) == {}
    ensures MovesUpTo(m, h, 5) == ColumnMoves(Column(m, x1, h), x1) + ColumnMoves(Column(m, x2, h), x2)
  {
    forall mv
      ensures mv in MovesUpTo(m, h, 5) <==> mv in ColumnMoves(Column(m, x1, h), x1) + ColumnMoves(Column(m, x2, h), x2)
    {
      MovesUpToMember(m, h, 5, mv);
      if mv in ColumnMoves(Column(m, x1, h), x1) {
        ColumnMoveShape(Column(m, x1, h), x1, mv);
      }
      if mv in ColumnMoves(Column(m, x2, h), x2) {
        ColumnMoveShape(Column(m, x2, h), x2, mv);
      }
    }
  }

  /** `pop_gem`: after removing (1, 4) the cell is empty. */
  lemma PopGem(m: map<Pos, Gem>)
    requires m == GridOf(MixedRows())
    ensures Cell(m - {Pos(1, 4)}, Pos(1, 4)) == None
    ensures Column(m - {Pos(1, 4)}, 1, 7) == [Some(1), Some(6), Some(11), Some(16), None, Some(26), Some(31)]
  {
  }

  /** The moves of the column holding a hole at row 4. */
  lemma PopOneMoves()
    ensures ColumnMoves([Some(1), Some(6), Some(11), Some(16), None, Some(26), Some(31)], 1)
      == {Move(Pos(1, 3), Pos(1, 4)), Move(Pos(1, 2), Pos(1, 3)), Move(Pos(1, 1), Pos(1, 2)), Move(Pos(1, 0), Pos(1, 1))}
  {
    var c: seq<Option<Gem>> := [Some(1), Some(6), Some(11), Some(16), None, Some(26), Some(31)];
    assert Target(c, 0) == 1;
    assert Target(c, 1) == 2;
    assert Target(c, 2) == 3;
    assert Target(c, 3) == 4;
    assert Target(c, 5) == 5;
    assert Target(c, 6) == 6;
  }

  /** `pop_gem_and_drop`: removing the gem at (1, 4) and dropping moves the four gems above it down by one. */
  lemma PopGemAndDrop(m: map<Pos, Gem>)
    requires m == GridOf(MixedRows())
    ensures MovesUpTo(m - {Pos(1, 4)}, 7, 5)
      == {Move(Pos(1, 3), Pos(1, 4)), Move(Pos(1, 2), Pos(1, 3)), Move(Pos(1, 1), Pos(1, 2)), Move(Pos(1, 0), Pos(1, 1))}
  {
    MixedColumns(m);
    UntouchedColumns(m, 5, 7, {Pos(1, 4)});
    MovesOfTwoColumns(m - {Pos(1, 4)}, 7, 1, 1);
    PopGem(m);
    PopOneMoves();
  }

  /** The two columns the gems of `pop_multiple_gems_and_drop` are removed from. */
  lemma PopManyColumns(m: map<Pos, Gem>)
    requires m == GridOf(MixedRows())
    ensures Column(m - {Pos(0, 2), Pos(0, 4), Pos(0, 6), Pos(4, 1)}, 0, 7) == [Some(0), Some(5), None, Some(15), None, Some(20), None]
    ensures Column(m - {Pos(0, 2), Pos(0, 4), Pos(0, 6), Pos(4, 1)}, 4, 7) == [Some(4), None, Some(14), Some(19), Some(24), Some(29), Some(34)]
  {
  }

  /** The moves of column 0 with holes at rows 2, 4 and 6. */
  lemma PopManyMovesLeft()
    ensures ColumnMoves([Some(0), Some(5), None, Some(15), None, Some(20), None], 0)
      == {Move(Pos(0, 5), Pos(0, 6)), Move(Pos(0, 3), Pos(0, 5)), Move(Pos(0, 1), Pos(0, 4)), Move(Pos(0, 0), Pos(0, 3))}
  {
    var c: seq<Option<Gem>> := [Some(0), Some(5), None, Some(15), None, Some(20), None];
    assert Target(c, 0) == 3;
    assert Target(c, 1) == 4;
    assert Target(c, 3) == 5;
    assert Target(c, 5) == 6;
  }

  /** The moves of column 4 with a hole at row 1. */
  lemma PopManyMovesRight()
    ensures ColumnMoves([Some(4), None, Some(14), Some(19), Some(24), Some(29), Some(34)], 4) == {Move(Pos(4, 0), Pos(4, 1))}
  {
    var c: seq<Option<Gem>> := [Some(4), None, Some(14), Some(19), Some(24), Some(29), Some(34)];
    assert Target(c, 0) == 1;
    assert Target(c, 2) == 2;
    assert Target(c, 3) == 3;
    assert Target(c, 4) == 4;
    assert Target(c, 5) == 5;
    assert Target(c, 6) == 6;
  }

  /** `pop_multiple_gems_and_drop`: removing four gems from two columns and dropping records exactly five moves. */
  lemma PopMultipleGemsAndDrop(m: map<Pos, Gem>)
    requires m == GridOf(MixedRows())
    ensures MovesUpTo(m - {Pos(0, 2), Pos(0, 4), Pos(0, 6), Pos(4, 1)}, 7, 5)
      == {Move(Pos(0, 5), Pos(0, 6)), Move(Pos(0, 3), Pos(0, 5)), Move(Pos(0, 1), Pos(0, 4)),
          Move(Pos(0, 0), Pos(0, 3)), Move(Pos(4, 0), Pos(4, 1))}
  {
    var r := {Pos(0, 2), Pos(0, 4), Pos(0, 6), Pos(4, 1)};
    MixedColumns(m);
    UntouchedColumns(m, 5, 7, r);
    MovesOfTwoColumns(m - r, 7, 0, 4);
    PopManyColumns(m);
    PopManyMovesLeft();
    PopManyMovesRight();
  }

  // ----- read_commands -----

  /** The board of `swap_gems` (src/lib.rs:107-115). */
  function SwapRows(): seq<seq<Gem>>
  {
    [[ 0,  1,  2,  3,  4],
     [ 5,  6,  7,  8,  9],
     [10, 11, 12, 13, 14],
     [15, 16, 11, 18, 19],
     [20, 21, 11, 23, 24],
     [25, 26, 27, 28, 29],
     [30, 31, 32, 33, 34]]
  }

  /** Exchanging the gems of (1, 2) and (2, 2) on the board of `swap_gems` gives the board `SwappedRows`. */
  lemma SwapExchange(m: map<Pos, Gem>, e: map<Pos, Gem>)
    requires m == GridOf(SwapRows()) && e == GridOf(SwappedRows())
    ensures Pos(1, 2) in m && Pos(2, 2) in m
    ensures Exchange(m, Pos(1, 2), Pos(2, 2)) == e
  {
    var a := SwapRows();
    var b := SwappedRows();
    assert forall y :: 0 <= y < 7 && y != 2 ==> a[y] == b[y];
    assert forall x :: 0 <= x < 5 && x != 1 && x != 2 ==> a[2][x] == b[2][x];
  }

  /** `swap_gems`: the queued swap makes a match, so it is performed and reported as `Swapped`. */
  lemma SwapGems(m: map<Pos, Gem>, e: map<Pos, Gem>)
    requires m == GridOf(SwapRows()) && e == GridOf(SwappedRows())
    ensures Processable(m, 5, 7, [Swap(Pos(1, 2), Pos(2, 2))])
    ensures Process(m, 5, 7, [Swap(Pos(1, 2), Pos(2, 2))]) == Processed(e, [Swapped(Pos(1, 2), Pos(2, 2))])
    ensures e != m
    ensures Cell(e, Pos(1, 2)) == Some(12) && Cell(e, Pos(2, 2)) == Some(11)
  {
    SwapExchange(m, e);
    SwappedMatches(e);
    assert e[Pos(1, 2)] != m[Pos(1, 2)];
  }

  /** The board of `fail_to_swap_gems` (src/lib.rs:159-167): the gems 0 to 34, row by row. */
  function DistinctRows(): (rows: seq<seq<Gem>>)
    ensures |rows| == 7 && forall y :: 0 <= y < 7 ==> |rows[y]| == 5
  {
    seq(7, y requires 0 <= y < 7 => seq(5, x requires 0 <= x < 5 => 5 * y + x))
  }

  /** The board of `fail_to_swap_gems` is full and holds 35 different gems. */
  lemma DistinctGems(m: map<Pos, Gem>)
    requires m == GridOf(DistinctRows())
    ensures Full(m, 5, 7)
    ensures forall p :: p in m ==> m[p] == 5 * p.y + p.x
    ensures forall p, q :: p in m && q in m && p != q && p.x < 5 && p.y < 7 && q.x < 5 && q.y < 7 ==> m[p] != m[q]
  {
    GridLines(DistinctRows(), 5, 7);
  }

  /** `board_creation` (src/board.rs:209-228): building a board from the rows of 0 to 34. */
  lemma BoardCreation(m: map<Pos, Gem>)
    requires m == GridOf(DistinctRows())
    ensures |DistinctRows()| == 7 && |DistinctRows()[0]| == 5
    ensures Cell(m, Pos(0, 0)) == Some(0) && Cell(m, Pos(1, 1)) == Some(6) && Cell(m, Pos(4, 2)) == Some(14)
    ensures Cell(m, Pos(2, 3)) == Some(17) && Cell(m, Pos(0, 4)) == Some(20) && Cell(m, Pos(4, 6)) == Some(34)
  {
    DistinctGems(m);
  }

  /** `fail_to_swap_gems`: no two gems are equal, so the swap is refused, reported as `FailedSwap`, and the board is unchanged. */
  lemma FailToSwapGems(m: map<Pos, Gem>)
    requires m == GridOf(DistinctRows())
    ensures Processable(m, 5, 7, [Swap(Pos(1, 2), Pos(2, 2))])
    ensures Process(m, 5, 7, [Swap(Pos(1, 2), Pos(2, 2))]) == Processed(m, [FailedSwap(Pos(1, 2), Pos(2, 2))])
    ensures Cell(m, Pos(1, 2)) == Some(11) && Cell(m, Pos(2, 2)) == Some(12)
  {
    DistinctGems(m);
    DistinctRefusesSwap(m, 5, 7, Pos(1, 2), Pos(2, 2));
  }
}
