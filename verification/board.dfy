/** The board of src/board.rs: a grid of gems and the operations that change it. */
module Boards {
  import opened Wrappers
  import opened Grid
  import opened Mat
  import opened Matcher
  import opened Gravity

  /** Why `swap` refused (the error strings of board.rs:95-107): an empty cell, or an exchange that makes no match. */
  datatype SwapError = NoGem(pos: Pos) | NoMatches

  /** The board's commands (`BoardCommand`, board.rs:179-183); `Pop` is not handled yet by the processor. */
  datatype BoardCommand = Swap(pos1: Pos, pos2: Pos) | Pop(positions: seq<Pos>)

  /** The board's events (`BoardEvent`, board.rs:198-202). */
  datatype BoardEvent = Swapped(pos1: Pos, pos2: Pos) | FailedSwap(pos1: Pos, pos2: Pos)

  /** The cells built from a list of rows: row `y`, column `x` holds `rows[y][x]`. */
  function GridOf(rows: seq<seq<Gem>>): (m: map<Pos, Gem>)
    ensures forall p :: p in m <==> p.y < |rows| && p.x < |rows[p.y]|
    ensures forall p :: p in m ==> m[p] == rows[p.y][p.x]
  {
    var cells := set y: nat, x: nat | y < |rows| && x < |rows[y]| :: Pos(x, y);
    map p | p in cells :: rows[p.y][p.x]
  }

  /** `m` with the gems of `p1` and `p2` exchanged, as `swap` writes them. */
  function Exchange(m: map<Pos, Gem>, p1: Pos, p2: Pos): (e: map<Pos, Gem>)
    requires p1 in m && p2 in m
    ensures e.Keys == m.Keys
    ensures e[p1] == m[p2] && e[p2] == m[p1]
    ensures forall q :: q in m && q != p1 && q != p2 ==> e[q] == m[q]
  {
    m[p1 := m[p2]][p2 := m[p1]]
  }

  /** Writing the two original gems back undoes an exchange. */
  lemma ExchangeUndone(m: map<Pos, Gem>, p1: Pos, p2: Pos)
    requires p1 in m && p2 in m
    ensures Exchange(m, p1, p2)[p1 := m[p1]][p2 := m[p2]] == m
  {
  }

  /** `swap(p1, p2)` does not panic: when both cells hold gems, the exchanged board can be scanned. */
  predicate SwapDefined(m: map<Pos, Gem>, w: nat, h: nat, p1: Pos, p2: Pos)
  {
    p1 in m && p2 in m ==> Scannable(Exchange(m, p1, p2), w, h)
  }

  /** The gems after a call of `swap` and what it returned. */
  datatype SwapStep = SwapStep(gems: map<Pos, Gem>, result: Result<(), SwapError>)

  /**
   * What `swap(p1, p2)` does to the gems of a `w` by `h` board: a refused
   * swap leaves them as they were; an accepted one exchanges the gems of
   * the two cells and leaves every other cell alone.
   */
  function SwapOutcome(m: map<Pos, Gem>, w: nat, h: nat, p1: Pos, p2: Pos): (r: SwapStep)
    requires SwapDefined(m, w, h, p1, p2)
    ensures r.result == Failure(NoGem(p1)) <==> p1 !in m
    ensures r.result == Failure(NoGem(p2)) && p1 != p2 ==> p1 in m && p2 !in m
    ensures p1 in m && p2 !in m ==> r.result == Failure(NoGem(p2))
    ensures p1 in m && p2 in m && r.result.Failure? ==> r.result == Failure(NoMatches)
    ensures r.result.Failure? ==> r.gems == m
    ensures r.result.Success? ==> p1 in m && p2 in m
    ensures r.result.Success? ==> Cell(r.gems, p1) == Cell(m, p2) && Cell(r.gems, p2) == Cell(m, p1)
    ensures r.result.Success? ==> forall q :: q != p1 && q != p2 ==> Cell(r.gems, q) == Cell(m, q)
  {
    if p1 !in m then SwapStep(m, Failure(NoGem(p1)))
    else if p2 !in m then SwapStep(m, Failure(NoGem(p2)))
    else if MatchesOf(Exchange(m, p1, p2), w, h) == [] then SwapStep(m, Failure(NoMatches))
    else SwapStep(Exchange(m, p1, p2), Success(()))
  }

  /**
   * A swap of two gems is accepted exactly when, after the exchange, some
   * line of the board holds three equal gems in a row.
   */
  lemma SwapAcceptedIffTriple(m: map<Pos, Gem>, w: nat, h: nat, p1: Pos, p2: Pos)
    requires SwapDefined(m, w, h, p1, p2)
    ensures SwapOutcome(m, w, h, p1, p2).result.Success? <==>
      (p1 in m && p2 in m &&
       exists dir: MatchDirection, one: nat, i: nat ::
         one < LineCount(dir, w, h) && 2 <= i < LineLength(dir, w, h) &&
         Triple(LineGems(Exchange(m, p1, p2), w, h, dir, one), i))
  {
    if p1 in m && p2 in m {
      MatchesIffTriple(Exchange(m, p1, p2), w, h);
    }
  }

  /**
   * On a full board whose gems are all different no swap of two cells of
   * the board is accepted: the exchanged board has all different gems too,
   * so it holds no match.
   */
  lemma DistinctRefusesSwap(m: map<Pos, Gem>, w: nat, h: nat, p1: Pos, p2: Pos)
    requires Full(m, w, h)
    requires forall p, q :: p in m && q in m && p != q && p.x < w && p.y < h && q.x < w && q.y < h ==> m[p] != m[q]
    requires p1.x < w && p1.y < h && p2.x < w && p2.y < h
    ensures SwapDefined(m, w, h, p1, p2)
    ensures SwapOutcome(m, w, h, p1, p2) == SwapStep(m, Failure(NoMatches))
  {
    var e := Exchange(m, p1, p2);
    forall p, q | p in e && q in e && p != q && p.x < w && p.y < h && q.x < w && q.y < h
      ensures e[p] != e[q]
    {
      var sp := if p == p1 then p2 else if p == p2 then p1 else p;
      var sq := if q == p1 then p2 else if q == p2 then p1 else q;
      assert e[p] == m[sp] && e[q] == m[sq];
    }
    DistinctNoMatches(e, w, h);
  }

  class Board {
    /** `dimensions`: set once, when the board is built. */
    const width: nat
    const height: nat
    /** `gems`: the gem of every occupied position. */
    var gems: map<Pos, Gem>

    /** `From<Vec<Vec<u32>>>`: the width is the length of the first row, the height the number of rows. */
    constructor FromRows(rows: seq<seq<Gem>>)
      ensures width == (if rows == [] then 0 else |rows[0]|)
      ensures height == |rows|
      ensures gems == GridOf(rows)
    {
      var m: map<Pos, Gem> := map[];
      var w: nat := 0;
      var h: nat := 0;
      var y := 0;
      while y < |rows|
        invariant y <= |rows| && h == y
        invariant w == (if y == 0 then 0 else |rows[0]|)
        invariant forall p :: p in m <==> p.y < y && p.x < |rows[p.y]|
        invariant forall p :: p in m ==> m[p] == rows[p.y][p.x]
      {
        h := h + 1;
        var x := 0;
        while x < |rows[y]|
          invariant x <= |rows[y]|
          invariant w == (if h == 1 then x else |rows[0]|)
          invariant forall p :: p in m <==> (p.y < y && p.x < |rows[p.y]|) || (p.y == y && p.x < x)
          invariant forall p :: p in m ==> m[p] == rows[p.y][p.x]
        {
          m := m[Pos(x, y) := rows[y][x]];
          if h == 1 {
            w := w + 1;
          }
          x := x + 1;
        }
        y := y + 1;
      }
      width, height, gems := w, h, m;
    }

    /** `get`: the gem at `p`, if any. */
    function Get(p: Pos): (r: Option<Gem>)
      reads this
      ensures r.Some? <==> p in gems
      ensures r.Some? ==> r.value == gems[p]
    {
      Cell(gems, p)
    }

    /** `remove`: empties cell `p`. */
    method Remove(p: Pos)
      modifies this
      ensures gems == old(gems) - {p}
    {
      gems := gems - {p};
    }

    /** `insert`: puts gem `typ` in cell `p`, replacing what was there. */
    method Insert(p: Pos, typ: Gem)
      modifies this
      ensures gems == old(gems)[p := typ]
    {
      gems := gems[p := typ];
    }

    /**
     * The innermost loop of `drop`: with `(x, y)` empty, walks up from row
     * `y - 1` to row 0 and moves each gem it meets to the lowest free row,
     * `y - offset`, recording the move.
     */
    method PullDown(x: nat, y: nat) returns (moved: set<Move>)
      requires x < width && y < height && Pos(x, y) !in gems
      modifies this
      ensures Column(gems, x, height)
        == Compact(Column(old(gems), x, height)[..y + 1]) + Column(old(gems), x, height)[y + 1..]
      ensures forall p: Pos :: p.x != x || p.y >= height ==> Cell(gems, p) == Cell(old(gems), p)
      ensures moved == MovesIn(Column(old(gems), x, height)[..y + 1], x, 0, y + 1)
    {
      ghost var hole := Column(gems, x, height)[..y + 1];
      ghost var tail := Column(gems, x, height)[y + 1..];
      PullStart(gems, x, height, y);
      moved := {};
      var offset: nat := 0;
      var above: nat := y;
      while above > 0
        invariant above <= y && |hole| == y + 1 && hole[y] == None
        invariant PullInvariant(gems, old(gems), x, height, hole, tail, above, offset, moved)
      {
        above := above - 1;
        PullPeek(gems, old(gems), x, height, hole, tail, above, offset, moved);
        var typ := Get(Pos(x, above));
        if typ.Some? {
          PullGem(gems, old(gems), x, height, hole, tail, above, y, offset, moved, typ.value);
          var newPos := Pos(x, y - offset);
          moved := moved + {Move(Pos(x, above), newPos)};
          Remove(Pos(x, above));
          Insert(newPos, typ.value);
          offset := offset + 1;
        } else {
          PullSkip(gems, old(gems), x, height, hole, tail, above, offset, moved);
        }
      }
      PullEnd(gems, old(gems), x, height, hole, tail, offset, moved);
    }

    /** The middle loop of `drop`: walks column `x` bottom to top and pulls gems into each empty cell. */
    method DropColumn(x: nat) returns (moved: set<Move>)
      requires x < width
      modifies this
      ensures Column(gems, x, height) == Compact(Column(old(gems), x, height))
      ensures forall p: Pos :: p.x != x || p.y >= height ==> Cell(gems, p) == Cell(old(gems), p)
      ensures moved == ColumnMoves(Column(old(gems), x, height), x)
    {
      ghost var col0 := Column(gems, x, height);
      ghost var pulled := false;
      moved := {};
      var y := height;
      while y > 0
        invariant y <= height && |col0| == height
        invariant forall p: Pos :: p.x != x || p.y >= height ==> Cell(gems, p) == Cell(old(gems), p)
        invariant !pulled ==> Column(gems, x, height) == col0 && moved == {}
        invariant !pulled ==> forall r: nat :: y <= r < height ==> Cell(old(gems), Pos(x, r)).Some?
        invariant pulled ==> Column(gems, x, height) == Compact(col0) && moved == ColumnMoves(col0, x)
      {
        y := y - 1;
        if Get(Pos(x, y)).None? {
          HoleStep(col0, Column(gems, x, height), x, y, pulled, moved);
          var more := PullDown(x, y);
          moved := moved + more;
          pulled := true;
        }
      }
      if !pulled {
        CompactIdentity(col0);
        FullColumnNoMoves(col0, x);
      }
    }

    /**
     * `drop`: gravity. In every column each gem falls onto the gems below it;
     * returns the set of (from, to) relocations.
     */
    method Drop() returns (moves: set<Move>)
      modifies this
      ensures forall p :: Get(p) == AfterDrop(old(gems), width, height, p)
      ensures moves == MovesUpTo(old(gems), height, width)
    {
      moves := {};
      var x := 0;
      while x < width
        invariant x <= width
        invariant forall p :: (Cell(gems, p) ==
          if p.x < x && p.y < height then AfterDrop(old(gems), width, height, p) else Cell(old(gems), p))
        invariant moves == MovesUpTo(old(gems), height, x)
      {
        assert Column(gems, x, height) == Column(old(gems), x, height);
        ghost var before := gems;
        var more := DropColumn(x);
        forall p: Pos | p.x == x && p.y < height
          ensures Cell(gems, p) == AfterDrop(old(gems), width, height, p)
        {
          assert Column(gems, x, height)[p.y] == Cell(gems, p);
        }
        moves := moves + more;
        x := x + 1;
      }
    }

    /**
     * `straight_matches`: scans every line of direction `dir` and adds a
     * match for each run of three or more equal gems that ends.
     */
    method StraightMatches(dir: MatchDirection) returns (matches: Matches)
      requires Full(gems, width, height) && ScanDefinedAll(gems, width, height, dir)
      ensures fresh(matches)
      ensures matches.matches == ScanMatches(gems, width, height, dir)
    {
      matches := new Matches();
      var count := if dir == Horizontal then width else height;
      var one := 0;
      while one < count
        invariant one <= count
        invariant fresh(matches)
        invariant matches.matches == ScanUpTo(gems, width, height, dir, one)
      {
        ScanLine(dir, one, matches);
        one := one + 1;
      }
    }

    /**
     * The body of the outer loop of `straight_matches`: walks line `one`
     * cell by cell, keeping the current run and the previous gem type; when
     * the type changes a run of exactly three is added, and when the line
     * ends a run of three or more is added.
     */
    method ScanLine(dir: MatchDirection, one: nat, matches: Matches)
      requires Full(gems, width, height) && ScanDefinedAll(gems, width, height, dir)
      requires one < LineCount(dir, width, height)
      modifies matches
      ensures matches.matches == old(matches.matches)
        + LineMatches(Line(dir, one, LineLength(dir, width, height)), LineGems(gems, width, height, dir, one))
    {
      var n := LineLength(dir, width, height);
      ghost var line := Line(dir, one, n);
      ghost var s := LineGems(gems, width, height, dir, one);
      var currentMatch: seq<Pos> := [];
      var previousType: Option<Gem> := None;
      var two := 0;
      while two < n
        invariant two <= n
        invariant currentMatch == ScanCells(line, s, two).current
        invariant previousType == ScanCells(line, s, two).previous
        invariant matches.matches == old(matches.matches) + ScanCells(line, s, two).found
      {
        var pos := LinePos(dir, one, two);
        assert pos == line[two];
        var currentType := Get(pos).value;
        ScanCellsNext(line, s, two);
        if currentMatch == [] || previousType.value == currentType {
          previousType := Some(currentType);
          currentMatch := currentMatch + [pos];
        } else if previousType.value != currentType {
          // a run longer than three ending here is `unimplemented!` in the source
          ScanRunAtMostThree(line, s, two);
          if |currentMatch| == 3 {
            matches.Add(Straight(ToSet(currentMatch)));
          }
          currentMatch := [pos];
          previousType := Some(currentType);
        }
        two := two + 1;
      }
      if |currentMatch| >= 3 {
        matches.Add(Straight(ToSet(currentMatch)));
      }
      LineMatchesByScan(line, s);
    }

    /** `get_matches`: the matches of the column scan, then those of the row scan. */
    method GetMatches() returns (matches: Matches)
      requires Scannable(gems, width, height)
      ensures fresh(matches)
      ensures matches.matches == MatchesOf(gems, width, height)
    {
      matches := StraightMatches(Horizontal);
      var other := StraightMatches(Vertical);
      matches.Append(other);
    }

    /**
     * `swap`: fails if either cell is empty; otherwise exchanges the two gems
     * and keeps the exchange only if the board then has a match.
     */
    method Swap(pos1: Pos, pos2: Pos) returns (r: Result<(), SwapError>)
      requires SwapDefined(gems, width, height, pos1, pos2)
      modifies this
      ensures SwapStep(gems, r) == SwapOutcome(old(gems), width, height, pos1, pos2)
    {
      var gem1 := Get(pos1);
      if gem1.None? {
        return Failure(NoGem(pos1));
      }
      var gem2 := Get(pos2);
      if gem2.None? {
        return Failure(NoGem(pos2));
      }
      gems := gems[pos1 := gem2.value];
      gems := gems[pos2 := gem1.value];
      assert gems == Exchange(old(gems), pos1, pos2);
      var matches := GetMatches();
      if matches.IsEmpty() {
        gems := gems[pos1 := gem1.value];
        gems := gems[pos2 := gem2.value];
        ExchangeUndone(old(gems), pos1, pos2);
        r := Failure(NoMatches);
      } else {
        r := Success(());
      }
    }
  }
}
