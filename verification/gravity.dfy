/**
 * What `Board::drop` (src/board.rs) does to one column, as functions over the
 * column's cells read top to bottom (index = row `y`, row 0 at the top).
 */
module Gravity {
  import opened Wrappers
  import opened Grid

  /** The cells of column `x`, rows `0` to `h - 1`. */
  function Column(m: map<Pos, Gem>, x: nat, h: nat): (col: seq<Option<Gem>>)
    ensures |col| == h
    ensures forall y :: 0 <= y < h ==> col[y] == Cell(m, Pos(x, y))
  {
    seq(h, y requires 0 <= y < h => Cell(m, Pos(x, y)))
  }

  /** The gems of a column from top to bottom, empty cells skipped. */
  function Gems(col: seq<Option<Gem>>): (g: seq<Gem>)
    ensures |g| <= |col|
  {
    if col == [] then []
    else (if col[0].Some? then [col[0].value] else []) + Gems(col[1..])
  }

  /** `n` empty cells. */
  function Empties(n: nat): (col: seq<Option<Gem>>)
    ensures |col| == n && forall i :: 0 <= i < n ==> col[i] == None
  {
    seq(n, _ => None)
  }

  /** The cells holding the gems `g`, in order. */
  function Filled(g: seq<Gem>): (col: seq<Option<Gem>>)
    ensures |col| == |g| && forall i :: 0 <= i < |g| ==> col[i] == Some(g[i])
  {
    seq(|g|, i requires 0 <= i < |g| => Some(g[i]))
  }

  /** The column after gravity: its gems, in their order, resting on the bottom. */
  function Compact(col: seq<Option<Gem>>): (r: seq<Option<Gem>>)
    ensures |r| == |col|
    ensures forall i :: 0 <= i < |r| ==> (r[i].Some? <==> i >= |col| - |Gems(col)|)
  {
    Empties(|col| - |Gems(col)|) + Filled(Gems(col))
  }

  /** No empty cell lies below an occupied one. */
  predicate Settled(col: seq<Option<Gem>>)
  {
    forall i, j :: 0 <= i < j < |col| && col[i].Some? ==> col[j].Some?
  }

  /** The row the gem at row `r` rests on after gravity: one above the gems below it. */
  function Target(col: seq<Option<Gem>>, r: nat): (t: nat)
    requires r < |col|
    ensures r <= t < |col|
  {
    |col| - 1 - |Gems(col[r + 1..])|
  }

  /** The relocations of one gem. */
  datatype Move = Move(from: Pos, to: Pos)

  /** The moves `drop` records for the gems of rows `lo` to `hi - 1` of column `x`. */
  function MovesIn(col: seq<Option<Gem>>, x: nat, lo: nat, hi: nat): (ms: set<Move>)
    requires hi <= |col|
    ensures forall mv :: mv in ms ==>
      mv.from.x == x && mv.to.x == x && lo <= mv.from.y < hi && mv.from.y < mv.to.y < |col|
  {
    set r: nat | lo <= r < hi && col[r].Some? && Target(col, r) != r
      :: Move(Pos(x, r), Pos(x, Target(col, r)))
  }

  /** The moves `drop` records for column `x`. */
  function ColumnMoves(col: seq<Option<Gem>>, x: nat): set<Move>
  {
    MovesIn(col, x, 0, |col|)
  }

  /** The moves `drop` records for the first `k` columns of a board `h` high. */
  function MovesUpTo(m: map<Pos, Gem>, h: nat, k: nat): (ms: set<Move>)
    ensures forall mv :: mv in ms ==> mv.from.x == mv.to.x < k && mv.from.y < mv.to.y < h
  {
    if k == 0 then {} else MovesUpTo(m, h, k - 1) + ColumnMoves(Column(m, k - 1, h), k - 1)
  }

  /** What `drop` leaves in cell `p` of a `w` by `h` board. */
  function AfterDrop(m: map<Pos, Gem>, w: nat, h: nat, p: Pos): (r: Option<Gem>)
    ensures p.x < w && p.y < h ==> (r.Some? <==> p.y >= h - |Gems(Column(m, p.x, h))|)
    ensures !(p.x < w && p.y < h) ==> r == Cell(m, p)
  {
    if p.x < w && p.y < h then Compact(Column(m, p.x, h))[p.y] else Cell(m, p)
  }

  // ----- facts about one column -----

  lemma {:induction false} GemsAppend(a: seq<Option<Gem>>, b: seq<Option<Gem>>)
    ensures Gems(a + b) == Gems(a) + Gems(b)
  {
    if a != [] {
      assert (a + b)[1..] == a[1..] + b;
      GemsAppend(a[1..], b);
    } else {
      assert a + b == b;
    }
  }

  lemma GemsEmpties(n: nat)
    ensures Gems(Empties(n)) == []
  {
    if n > 0 {
      assert Empties(n)[1..] == Empties(n - 1);
      GemsEmpties(n - 1);
    }
  }

  lemma {:induction false} GemsFilled(g: seq<Gem>)
    ensures Gems(Filled(g)) == g
  {
    if g != [] {
      assert Filled(g)[1..] == Filled(g[1..]);
      GemsFilled(g[1..]);
    }
  }

  /** A column with no empty cell keeps all its gems. */
  lemma {:induction false} GemsFull(col: seq<Option<Gem>>)
    requires forall i :: 0 <= i < |col| ==> col[i].Some?
    ensures |Gems(col)| == |col|
  {
    if col != [] {
      GemsFull(col[1..]);
    }
  }

  /** A column with no gem. */
  lemma {:induction false} GemsNone(col: seq<Option<Gem>>)
    requires forall i :: 0 <= i < |col| ==> col[i] == None
    ensures Gems(col) == []
  {
    if col != [] {
      GemsNone(col[1..]);
    }
  }

  /** An empty last cell holds no gem: a prefix ending in an empty cell has a free cell. */
  lemma GemsEndingEmpty(col: seq<Option<Gem>>)
    requires col != [] && col[|col| - 1] == None
    ensures |Gems(col)| < |col|
    ensures Gems(col) == Gems(col[..|col| - 1])
  {
    GemsAppend(col[..|col| - 1], [None]);
    assert col == col[..|col| - 1] + [None];
    assert Gems([None]) == [];
  }

  /**
   * Gravity keeps the gems of a column, in their top-to-bottom order and
   * number, and leaves the column settled.
   */
  lemma CompactProperties(col: seq<Option<Gem>>)
    ensures Gems(Compact(col)) == Gems(col)
    ensures Settled(Compact(col))
  {
    GemsAppend(Empties(|col| - |Gems(col)|), Filled(Gems(col)));
    GemsEmpties(|col| - |Gems(col)|);
    GemsFilled(Gems(col));
  }

  /** A settled column has all its gems in one block at the bottom. */
  lemma {:induction false} SettledShape(col: seq<Option<Gem>>)
    requires Settled(col)
    ensures forall i :: 0 <= i < |col| ==> (col[i].Some? <==> i >= |col| - |Gems(col)|)
  {
    if col != [] {
      SettledShape(col[1..]);
      if col[0].Some? {
        assert forall i :: 0 <= i < |col| ==> col[i].Some?;
        GemsFull(col);
      }
    }
  }

  /** Gravity changes a column exactly when some empty cell lies below a gem. */
  lemma CompactIdentity(col: seq<Option<Gem>>)
    ensures Compact(col) == col <==> Settled(col)
  {
    CompactProperties(col);
    if Settled(col) {
      SettledShape(col);
      SettledGemsOrder(col);
    }
  }

  /** In a settled column the gems read from the top are `Gems(col)`. */
  lemma {:induction false} SettledGemsOrder(col: seq<Option<Gem>>)
    requires Settled(col)
    ensures forall i :: |col| - |Gems(col)| <= i < |col| ==>
      col[i] == Some(Gems(col)[i - (|col| - |Gems(col)|)])
    ensures forall i :: 0 <= i < |col| - |Gems(col)| ==> col[i] == None
  {
    SettledShape(col);
    if col != [] {
      SettledGemsOrder(col[1..]);
    }
  }

  /** The gem at row `r` lands on row `Target(col, r)`, never above where it was. */
  lemma GemLands(col: seq<Option<Gem>>, r: nat)
    requires r < |col| && col[r].Some?
    ensures r <= Target(col, r)
    ensures Compact(col)[Target(col, r)] == col[r]
  {
    var g := Gems(col);
    assert col == col[..r] + col[r..];
    GemsAppend(col[..r], col[r..]);
    assert col[r..][1..] == col[r + 1..];
    assert Gems(col[r..]) == [col[r].value] + Gems(col[r + 1..]);
    var j := |Gems(col[..r])|;
    assert g[j] == col[r].value;
  }

  /** In a column without empty cells no gem moves. */
  lemma FullTarget(col: seq<Option<Gem>>, r: nat)
    requires r < |col| && forall i :: 0 <= i < |col| ==> col[i].Some?
    ensures Target(col, r) == r
  {
    GemsFull(col[r + 1..]);
  }

  /**
   * Every move of a column goes strictly down inside the column, and carries
   * the gem it starts from to the cell that holds it after gravity.
   */
  lemma ColumnMoveShape(col: seq<Option<Gem>>, x: nat, mv: Move)
    requires mv in ColumnMoves(col, x)
    ensures mv.from.x == x && mv.to.x == x
    ensures mv.from.y < mv.to.y < |col| && mv.to.y == Target(col, mv.from.y)
    ensures col[mv.from.y].Some? && Compact(col)[mv.to.y] == col[mv.from.y]
  {
    var r: nat :| r < |col| && col[r].Some? && Target(col, r) != r
      && mv == Move(Pos(x, r), Pos(x, Target(col, r)));
    GemLands(col, r);
  }

  /** A column without empty cells records no move. */
  lemma FullColumnNoMoves(col: seq<Option<Gem>>, x: nat)
    requires forall i :: 0 <= i < |col| ==> col[i].Some?
    ensures ColumnMoves(col, x) == {}
  {
    forall r: nat | r < |col|
      ensures Target(col, r) == r
    {
      FullTarget(col, r);
    }
  }

  // ----- the steps `drop` takes -----

  lemma CompactConsNone(s: seq<Option<Gem>>)
    ensures Compact([None] + s) == [None] + Compact(s)
  {
    assert ([None] + s)[1..] == s;
  }

  lemma CompactConsSome(g: Gem, s: seq<Option<Gem>>)
    ensures |Gems(s)| <= |s|
    ensures Compact([Some(g)] + s) == ([None] + Compact(s))[|s| - |Gems(s)| := Some(g)]
  {
    assert ([Some(g)] + s)[1..] == s;
  }

  /** Gravity on a column whose lower part is already full only works on the upper part. */
  lemma CompactAppendFull(a: seq<Option<Gem>>, t: seq<Option<Gem>>)
    requires forall i :: 0 <= i < |t| ==> t[i].Some?
    ensures Compact(a + t) == Compact(a) + t
  {
    GemsAppend(a, t);
    GemsFull(t);
    var ga, gt := Gems(a), Gems(t);
    assert forall i :: 0 <= i < |t| ==> t[i] == Some(gt[i]) by {
      SettledGemsOrder(t);
    }
  }

  /** A column part without gems is left alone. */
  lemma CompactNone(col: seq<Option<Gem>>, x: nat, hi: nat)
    requires forall i :: 0 <= i < |col| ==> col[i] == None
    requires hi <= |col|
    ensures Compact(col) == col
    ensures MovesIn(col, x, 0, hi) == {}
  {
    GemsNone(col);
  }

  /**
   * One empty cell met by the middle loop of `drop`, walking a column up
   * from the bottom: pulling the rows above it down to it, then keeping the
   * rows below it, compacts the whole column. Before the first empty cell
   * the column is untouched and full below `y`; after it, already compacted.
   */
  lemma HoleStep(col0: seq<Option<Gem>>, col: seq<Option<Gem>>, x: nat, y: nat, pulled: bool, moved: set<Move>)
    requires |col| == |col0| && y < |col| && col[y] == None
    requires !pulled ==> col == col0 && moved == {} && forall r :: y < r < |col| ==> col0[r].Some?
    requires pulled ==> col == Compact(col0) && moved == ColumnMoves(col0, x)
    ensures Compact(col[..y + 1]) + col[y + 1..] == Compact(col0)
    ensures moved + MovesIn(col[..y + 1], x, 0, y + 1) == ColumnMoves(col0, x)
  {
    if !pulled {
      ColumnMovesAboveHole(col0, x, y);
      assert col0 == col0[..y + 1] + col0[y + 1..];
      CompactAppendFull(col0[..y + 1], col0[y + 1..]);
    } else {
      CompactNone(col[..y + 1], x, y + 1);
      assert col == col[..y + 1] + col[y + 1..];
    }
  }

  /** Peeling one row off the top of the rows whose moves are collected. */
  lemma MovesInStep(col: seq<Option<Gem>>, x: nat, a: nat, hi: nat)
    requires a < hi <= |col|
    ensures MovesIn(col, x, a, hi) == MovesIn(col, x, a + 1, hi)
      + (if col[a].Some? && Target(col, a) != a then {Move(Pos(x, a), Pos(x, Target(col, a)))} else {})
  {
  }

  /**
   * When the lowest empty cell of a column is at row `y`, every gem that moves
   * lies above it, and it moves as if the column ended at row `y`.
   */
  lemma ColumnMovesAboveHole(col: seq<Option<Gem>>, x: nat, y: nat)
    requires y < |col| && col[y] == None
    requires forall r :: y < r < |col| ==> col[r].Some?
    ensures ColumnMoves(col, x) == MovesIn(col[..y + 1], x, 0, y + 1)
  {
    var p := col[..y + 1];
    forall r: nat | r < |col|
      ensures r <= y ==> Target(col, r) == Target(p, r)
      ensures r > y ==> Target(col, r) == r
    {
      if r <= y {
        assert col[r + 1..] == p[r + 1..] + col[y + 1..];
        GemsAppend(p[r + 1..], col[y + 1..]);
        GemsFull(col[y + 1..]);
      } else {
        GemsFull(col[r + 1..]);
      }
    }
  }

  /** Column `hole` with its rows from `a` on pulled down, the rows above `a` not yet touched. */
  function Pulled(hole: seq<Option<Gem>>, a: nat): (r: seq<Option<Gem>>)
    requires a <= |hole|
    ensures |r| == |hole|
    ensures forall i :: 0 <= i < a ==> r[i] == hole[i]
  {
    hole[..a] + Compact(hole[a..])
  }

  /** Before any row is pulled down nothing has moved; after all of them the column is compacted. */
  lemma PulledEnds(hole: seq<Option<Gem>>)
    ensures Pulled(hole, 0) == Compact(hole)
    ensures |hole| > 0 && hole[|hole| - 1] == None ==> Pulled(hole, |hole| - 1) == hole
  {
    assert hole[..0] + Compact(hole[0..]) == Compact(hole) by {
      assert hole[0..] == hole;
    }
    if |hole| > 0 && hole[|hole| - 1] == None {
      var a := |hole| - 1;
      assert hole[a..] == [None];
      assert Gems([None]) == [];
      assert hole[..a] + [None] == hole;
    }
  }

  /**
   * One step of the innermost loop of `drop` when the cell at row `a` holds
   * `g`: with the rows below `a` already pulled down onto the hole at row
   * `y`, the gem goes to row `y - offset`, its `Target`, and the rows from
   * `a` down are then pulled down as well.
   */
  lemma PullStep(hole: seq<Option<Gem>>, tail: seq<Option<Gem>>, a: nat, y: nat, offset: nat, g: Gem)
    requires |hole| == y + 1 && a < y && hole[y] == None && hole[a] == Some(g)
    requires offset == |Gems(hole[a + 1..])|
    ensures a < y - offset && y - offset == Target(hole, a)
    ensures offset + 1 == |Gems(hole[a..])|
    ensures (Pulled(hole, a + 1) + tail)[a := None][y - offset := Some(g)] == Pulled(hole, a) + tail
  {
    var rest := hole[a + 1..];
    assert hole[a..] == [Some(g)] + rest;
    GemsEndingEmpty(rest);
    CompactConsSome(g, rest);
    assert Gems(hole[a..]) == [g] + Gems(rest);
    var c := (Pulled(hole, a + 1) + tail)[a := None][y - offset := Some(g)];
    var d := Pulled(hole, a) + tail;
    forall i | 0 <= i < |d|
      ensures c[i] == d[i]
    {
      if i > a && i != y - offset && i <= y {
        assert c[i] == Compact(rest)[i - a - 1];
      }
    }
  }

  /** One step of the innermost loop of `drop` when the cell at row `a` is empty. */
  lemma SkipStep(hole: seq<Option<Gem>>, x: nat, a: nat)
    requires a < |hole| && hole[a] == None
    ensures |Gems(hole[a..])| == |Gems(hole[a + 1..])|
    ensures Pulled(hole, a + 1) == Pulled(hole, a)
    ensures MovesIn(hole, x, a, |hole|) == MovesIn(hole, x, a + 1, |hole|)
  {
    MovesInStep(hole, x, a, |hole|);
    var rest := hole[a + 1..];
    assert hole[a..] == [None] + rest;
    CompactConsNone(rest);
    calc {
      Pulled(hole, a + 1);
      hole[..a + 1] + Compact(rest);
      { assert hole[..a + 1] == hole[..a] + [None]; }
      (hole[..a] + [None]) + Compact(rest);
      hole[..a] + ([None] + Compact(rest));
      Pulled(hole, a);
    }
    assert Gems(hole[a..]) == Gems(rest);
  }

  /**
   * The state of the innermost loop of `drop` on column `x`, which started
   * from the gems `m0` with an empty cell at the bottom of `hole` and the
   * rows `tail` below it: the rows from `a` on have been pulled down,
   * `offset` gems have been moved, those moves are recorded in `moved`, and
   * nothing outside the column has changed.
   */
  ghost predicate PullInvariant(m: map<Pos, Gem>, m0: map<Pos, Gem>, x: nat, h: nat,
                                hole: seq<Option<Gem>>, tail: seq<Option<Gem>>,
                                a: nat, offset: nat, moved: set<Move>)
  {
    a <= |hole|
    && offset == |Gems(hole[a..])|
    && Column(m, x, h) == Pulled(hole, a) + tail
    && (forall p: Pos :: p.x != x || p.y >= h ==> Cell(m, p) == Cell(m0, p))
    && moved == MovesIn(hole, x, a, |hole|)
  }

  /** The loop state before the first step: nothing pulled, nothing moved. */
  lemma PullStart(m: map<Pos, Gem>, x: nat, h: nat, y: nat)
    requires y < h && Pos(x, y) !in m
    ensures var col := Column(m, x, h);
      col[y] == None && PullInvariant(m, m, x, h, col[..y + 1], col[y + 1..], y, 0, {})
  {
    var col := Column(m, x, h);
    var hole := col[..y + 1];
    PulledEnds(hole);
    assert col == hole + col[y + 1..];
    assert hole[y..] == [None];
    assert Gems([None]) == [];
  }

  /** The loop state after the last step: the rows down to the hole are compacted. */
  lemma PullEnd(m: map<Pos, Gem>, m0: map<Pos, Gem>, x: nat, h: nat,
                hole: seq<Option<Gem>>, tail: seq<Option<Gem>>, offset: nat, moved: set<Move>)
    requires PullInvariant(m, m0, x, h, hole, tail, 0, offset, moved)
    ensures Column(m, x, h) == Compact(hole) + tail
    ensures forall p: Pos :: p.x != x || p.y >= h ==> Cell(m, p) == Cell(m0, p)
    ensures moved == MovesIn(hole, x, 0, |hole|)
  {
    PulledEnds(hole);
  }

  /** The cell the loop looks at next, row `a`, still holds its original content. */
  lemma PullPeek(m: map<Pos, Gem>, m0: map<Pos, Gem>, x: nat, h: nat,
                 hole: seq<Option<Gem>>, tail: seq<Option<Gem>>, a: nat, offset: nat, moved: set<Move>)
    requires PullInvariant(m, m0, x, h, hole, tail, a + 1, offset, moved)
    ensures Cell(m, Pos(x, a)) == hole[a]
  {
    assert Column(m, x, h)[a] == Pulled(hole, a + 1)[a];
  }

  /**
   * One move of the innermost loop of `drop`: the gem of row `a` of column
   * `x` is removed and inserted at row `y - offset`, its `Target`, which
   * pulls row `a` down and records the move.
   */
  lemma PullGem(m: map<Pos, Gem>, m0: map<Pos, Gem>, x: nat, h: nat,
                hole: seq<Option<Gem>>, tail: seq<Option<Gem>>, a: nat, y: nat, offset: nat, moved: set<Move>, g: Gem)
    requires |hole| == y + 1 && a < y && y < h && hole[y] == None && hole[a] == Some(g)
    requires PullInvariant(m, m0, x, h, hole, tail, a + 1, offset, moved)
    ensures a < y - offset == Target(hole, a)
    ensures PullInvariant((m - {Pos(x, a)})[Pos(x, y - offset) := g], m0, x, h, hole, tail, a, offset + 1,
                          moved + {Move(Pos(x, a), Pos(x, y - offset))})
  {
    PullStep(hole, tail, a, y, offset, g);
    MovesInStep(hole, x, a, y + 1);
    var m' := (m - {Pos(x, a)})[Pos(x, y - offset) := g];
    assert Column(m', x, h) == Column(m, x, h)[a := None][y - offset := Some(g)];
  }

  /** A step of the innermost loop of `drop` over an empty cell changes nothing. */
  lemma PullSkip(m: map<Pos, Gem>, m0: map<Pos, Gem>, x: nat, h: nat,
                 hole: seq<Option<Gem>>, tail: seq<Option<Gem>>, a: nat, offset: nat, moved: set<Move>)
    requires a < |hole| && hole[a] == None
    requires PullInvariant(m, m0, x, h, hole, tail, a + 1, offset, moved)
    ensures PullInvariant(m, m0, x, h, hole, tail, a, offset, moved)
  {
    SkipStep(hole, x, a);
  }

  // ----- what `drop` does to the whole board -----

  /** Lower gems land lower: two gems of a column never land on the same row. */
  lemma TargetOrder(col: seq<Option<Gem>>, r1: nat, r2: nat)
    requires r1 < r2 < |col| && col[r2].Some?
    ensures Target(col, r1) < Target(col, r2)
  {
    assert col[r1 + 1..] == col[r1 + 1..r2] + col[r2..];
    GemsAppend(col[r1 + 1..r2], col[r2..]);
    assert col[r2..] == [col[r2]] + col[r2 + 1..];
    GemsAppend([col[r2]], col[r2 + 1..]);
  }

  /** A move is recorded for the first `k` columns exactly when it is one of its own column's moves. */
  lemma {:induction false} MovesUpToMember(m: map<Pos, Gem>, h: nat, k: nat, mv: Move)
    ensures mv in MovesUpTo(m, h, k)
      <==> mv.from.x < k && mv in ColumnMoves(Column(m, mv.from.x, h), mv.from.x)
  {
    if k > 0 {
      MovesUpToMember(m, h, k - 1, mv);
      if mv in ColumnMoves(Column(m, k - 1, h), k - 1) {
        ColumnMoveShape(Column(m, k - 1, h), k - 1, mv);
      }
    }
  }

  /**
   * Every move `drop` reports on a `w` by `h` board takes a gem straight
   * down its column, inside the board, to the cell that holds it afterwards.
   */
  lemma DropMoveShape(m: map<Pos, Gem>, w: nat, h: nat, mv: Move)
    requires mv in MovesUpTo(m, h, w)
    ensures mv.from.x == mv.to.x < w
    ensures mv.from.y < mv.to.y < h
    ensures mv.from in m && AfterDrop(m, w, h, mv.to) == Some(m[mv.from])
  {
    MovesUpToMember(m, h, w, mv);
    ColumnMoveShape(Column(m, mv.from.x, h), mv.from.x, mv);
  }

  /** No gem is reported moving twice, and no two gems are reported landing on the same cell. */
  lemma DropMovesUnique(m: map<Pos, Gem>, w: nat, h: nat, mv1: Move, mv2: Move)
    requires mv1 in MovesUpTo(m, h, w) && mv2 in MovesUpTo(m, h, w)
    requires mv1.from == mv2.from || mv1.to == mv2.to
    ensures mv1 == mv2
  {
    MovesUpToMember(m, h, w, mv1);
    MovesUpToMember(m, h, w, mv2);
    ColumnMoveShape(Column(m, mv1.from.x, h), mv1.from.x, mv1);
    ColumnMoveShape(Column(m, mv2.from.x, h), mv2.from.x, mv2);
    var col := Column(m, mv1.from.x, h);
    if mv1.from.y < mv2.from.y {
      TargetOrder(col, mv1.from.y, mv2.from.y);
    } else if mv2.from.y < mv1.from.y {
      TargetOrder(col, mv2.from.y, mv1.from.y);
    }
  }

  /**
   * Every gem of the board either is reported moving or stays where it
   * was; nothing else is reported.
   */
  lemma DropMovesComplete(m: map<Pos, Gem>, w: nat, h: nat, p: Pos)
    requires p in m && p.x < w && p.y < h
    ensures (exists mv :: mv in MovesUpTo(m, h, w) && mv.from == p) || AfterDrop(m, w, h, p) == Some(m[p])
  {
    var col := Column(m, p.x, h);
    GemLands(col, p.y);
    if Target(col, p.y) != p.y {
      var mv := Move(p, Pos(p.x, Target(col, p.y)));
      assert mv in ColumnMoves(col, p.x);
      MovesUpToMember(m, h, w, mv);
    }
  }

  /**
   * After `drop` each column of the board holds the same gems in the same
   * order, resting on the bottom with no empty cell below a gem.
   */
  lemma DroppedColumn(m: map<Pos, Gem>, w: nat, h: nat, x: nat)
    requires x < w
    ensures var c := seq(h, y requires 0 <= y < h => AfterDrop(m, w, h, Pos(x, y)));
      c == Compact(Column(m, x, h)) && Settled(c) && Gems(c) == Gems(Column(m, x, h))
  {
    CompactProperties(Column(m, x, h));
  }

  /** On a board with no empty cell `drop` moves nothing and reports nothing. */
  lemma DropFull(m: map<Pos, Gem>, w: nat, h: nat)
    requires Full(m, w, h)
    ensures MovesUpTo(m, h, w) == {}
    ensures forall p :: AfterDrop(m, w, h, p) == Cell(m, p)
  {
    forall x: nat | x < w
      ensures ColumnMoves(Column(m, x, h), x) == {}
      ensures Compact(Column(m, x, h)) == Column(m, x, h)
    {
      var col := Column(m, x, h);
      assert forall i :: 0 <= i < h ==> col[i].Some? by {
        assert forall i :: 0 <= i < h ==> col[i] == Cell(m, Pos(x, i));
      }
      FullColumnNoMoves(col, x);
      CompactIdentity(col);
    }
    forall mv | mv in MovesUpTo(m, h, w)
      ensures false
    {
      MovesUpToMember(m, h, w, mv);
    }
  }
}
