/**
 * What the match finder of src/board.rs computes, as functions over a gem map.
 *
 * A line is scanned cell by cell; a run of equal consecutive gems is reported
 * as one `Straight` match when it ends (the next gem differs, or the line
 * ends) and is at least three long. The source panics (`unimplemented!`) when
 * a run longer than three ends before the end of its line, and when a cell of
 * the board is empty (`unwrap`); `Scannable` excludes both.
 */
module Matcher {
  import opened Wrappers
  import opened Grid
  import opened Mat

  /** Number of lines a scan visits: columns for `Horizontal`, rows for `Vertical`. */
  function LineCount(dir: MatchDirection, w: nat, h: nat): nat
  {
    if dir == Horizontal then w else h
  }

  /** Number of cells of each line of a scan. */
  function LineLength(dir: MatchDirection, w: nat, h: nat): nat
  {
    if dir == Horizontal then h else w
  }

  /** The positions of line `one` in scan order; `two` is the index along the line. */
  function LinePos(dir: MatchDirection, one: nat, two: nat): Pos
  {
    if dir == Horizontal then Pos(one, two) else Pos(two, one)
  }

  /** All positions of line `one`, `n` cells long, in scan order. */
  function Line(dir: MatchDirection, one: nat, n: nat): (line: seq<Pos>)
    ensures |line| == n
  {
    seq(n, i requires 0 <= i < n => LinePos(dir, one, i))
  }

  /** The gems along `line`. */
  function LineTypes(m: map<Pos, Gem>, line: seq<Pos>): (s: seq<Gem>)
    requires forall i :: 0 <= i < |line| ==> line[i] in m
    ensures |s| == |line|
  {
    seq(|line|, i requires 0 <= i < |line| => m[line[i]])
  }

  /**
   * The scan of `s` never reaches `unimplemented!`: no run of four or more
   * equal gems is cut off by a different gem.
   */
  predicate ScanDefined(s: seq<Gem>): (r: bool)
    ensures r <==> forall st: nat, e: nat :: IsRun(s, st, e) && e < |s| ==> e - st <= 3
  {
    LongRunsCut(s);
    forall i :: 4 <= i < |s| ==> !CutsLongRun(s, i)
  }

  /**
   * The gem at `i` differs from the four equal gems just before it: it ends
   * a maximal run of four or more.
   */
  predicate CutsLongRun(s: seq<Gem>, i: nat): (r: bool)
    requires 4 <= i < |s|
    ensures r ==> IsRun(s, RunStart(s, i - 4), i) && RunStart(s, i - 4) + 4 <= i
    ensures forall st: nat :: IsRun(s, st, i) && st + 4 <= i ==> r
  {
    s[i] != s[i - 1] && s[i - 4] == s[i - 1] && s[i - 3] == s[i - 1] && s[i - 2] == s[i - 1]
  }

  /** Every maximal run of four or more that ends before the end of its line is cut by a different gem. */
  lemma LongRunsCut(s: seq<Gem>)
    ensures forall st: nat, e: nat :: IsRun(s, st, e) && e < |s| && st + 4 <= e ==> CutsLongRun(s, e)
  {
  }

  /** Lines of direction `dir` never make the scan panic. */
  predicate ScanDefinedAll(m: map<Pos, Gem>, w: nat, h: nat, dir: MatchDirection)
    requires Full(m, w, h)
  {
    forall one: nat :: one < LineCount(dir, w, h) ==> ScanDefined(LineGems(m, w, h, dir, one))
  }

  /**
   * `get_matches` runs to completion on this board: every cell it reads holds
   * a gem (the `unwrap`), and no column or row reaches `unimplemented!`.
   */
  predicate Scannable(m: map<Pos, Gem>, w: nat, h: nat): (r: bool)
    ensures r <==> (Full(m, w, h)
      && (forall x: nat :: x < w ==> ScanDefined(LineGems(m, w, h, Horizontal, x)))
      && (forall y: nat :: y < h ==> ScanDefined(LineGems(m, w, h, Vertical, y))))
  {
    Full(m, w, h) && ScanDefinedAll(m, w, h, Horizontal) && ScanDefinedAll(m, w, h, Vertical)
  }

  /**
   * A board can be scanned exactly when it is full and no maximal run longer
   * than three ends inside a column or a row.
   */
  lemma ScannableRuns(m: map<Pos, Gem>, w: nat, h: nat)
    ensures Scannable(m, w, h) <==> (Full(m, w, h) && forall dir: MatchDirection, one: nat, st: nat, e: nat ::
      one < LineCount(dir, w, h) && IsRun(LineGems(m, w, h, dir, one), st, e) && e < LineLength(dir, w, h)
      ==> e - st <= 3)
  {
    if Full(m, w, h) {
      forall dir: MatchDirection, one: nat | one < LineCount(dir, w, h)
        ensures ScanDefined(LineGems(m, w, h, dir, one)) <==> forall st: nat, e: nat ::
          IsRun(LineGems(m, w, h, dir, one), st, e) && e < LineLength(dir, w, h) ==> e - st <= 3
      {
      }
    }
  }

  /** Every line of a full board lies inside the board, so its gems are defined. */
  lemma LineInBoard(m: map<Pos, Gem>, w: nat, h: nat, dir: MatchDirection, one: nat)
    requires Full(m, w, h) && one < LineCount(dir, w, h)
    ensures forall i :: 0 <= i < LineLength(dir, w, h) ==> Line(dir, one, LineLength(dir, w, h))[i] in m
  {
  }

  /** Index where the run of equal gems containing index `i` starts. */
  function RunStart(s: seq<Gem>, i: nat): (r: nat)
    requires i < |s|
    ensures r <= i
    ensures forall k :: r <= k <= i ==> s[k] == s[i]
    ensures r == 0 || s[r - 1] != s[r]
  {
    if i == 0 || s[i - 1] != s[i] then i else RunStart(s, i - 1)
  }

  /** Index `e` is the last one of its run. */
  predicate IsRunEnd(s: seq<Gem>, e: nat)
    requires e < |s|
  {
    e + 1 == |s| || s[e + 1] != s[e]
  }

  /** Matches of the runs of `s` that end before index `k`, left to right. */
  function LineMatchesUpTo(line: seq<Pos>, s: seq<Gem>, k: nat): (r: seq<Match>)
    requires |line| == |s| && k <= |s|
    ensures |r| <= k
    ensures k < 3 ==> r == []
  {
    if k == 0 then []
    else
      var e := k - 1;
      var start := RunStart(s, e);
      LineMatchesUpTo(line, s, e)
      + (if IsRunEnd(s, e) && k - start >= 3 then [Straight(ToSet(line[start..k]))] else [])
  }

  /** The matches of one line: one for each maximal run of three or more equal gems. */
  function LineMatches(line: seq<Pos>, s: seq<Gem>): (r: seq<Match>)
    requires |line| == |s|
    ensures forall mt :: mt in r <==>
      exists st: nat, e: nat :: IsRun(s, st, e) && e - st >= 3 && mt == Straight(ToSet(line[st..e]))
  {
    forall mt {
      LineMatchesUpToRuns(line, s, |s|, mt);
    }
    LineMatchesUpTo(line, s, |s|)
  }

  /** Matches of the first `k` lines of a scan, in scan order. */
  function ScanUpTo(m: map<Pos, Gem>, w: nat, h: nat, dir: MatchDirection, k: nat): seq<Match>
    requires Full(m, w, h) && k <= LineCount(dir, w, h)
  {
    if k == 0 then []
    else
      var line := Line(dir, k - 1, LineLength(dir, w, h));
      LineInBoard(m, w, h, dir, k - 1);
      ScanUpTo(m, w, h, dir, k - 1) + LineMatches(line, LineTypes(m, line))
  }

  /**
   * `straight_matches(dir)`: the matches of all lines of one scan, one for
   * each maximal run of three or more equal gems in a line.
   */
  function ScanMatches(m: map<Pos, Gem>, w: nat, h: nat, dir: MatchDirection): (r: seq<Match>)
    requires Full(m, w, h)
    ensures forall mt :: mt in r <==> exists one: nat, st: nat, e: nat :: ReportedRun(m, w, h, dir, one, st, e, mt)
  {
    forall mt {
      ScanUpToRuns(m, w, h, dir, LineCount(dir, w, h), mt);
    }
    ScanUpTo(m, w, h, dir, LineCount(dir, w, h))
  }

  /** `get_matches`: the column scan followed by the row scan. */
  function MatchesOf(m: map<Pos, Gem>, w: nat, h: nat): (r: seq<Match>)
    requires Full(m, w, h)
    ensures |r| == |ScanMatches(m, w, h, Horizontal)| + |ScanMatches(m, w, h, Vertical)|
    ensures r[..|ScanMatches(m, w, h, Horizontal)|] == ScanMatches(m, w, h, Horizontal)
    ensures forall mt :: mt in r <==> mt in ScanMatches(m, w, h, Horizontal) || mt in ScanMatches(m, w, h, Vertical)
  {
    ScanMatches(m, w, h, Horizontal) + ScanMatches(m, w, h, Vertical)
  }

  /** `[st, e)` is a maximal run of equal gems of `s`. */
  predicate IsRun(s: seq<Gem>, st: nat, e: nat)
  {
    st < e <= |s|
    && (forall k :: st <= k < e ==> s[k] == s[st])
    && (st == 0 || s[st - 1] != s[st])
    && (e == |s| || s[e] != s[st])
  }

  /** A maximal run is found again by `RunStart` from its last index. */
  lemma {:induction false} RunStartOfRun(s: seq<Gem>, st: nat, e: nat, i: nat)
    requires IsRun(s, st, e) && st <= i < e
    ensures RunStart(s, i) == st
  {
    if i > st {
      RunStartOfRun(s, st, e, i - 1);
    }
  }

  /** Every match of a line is the set of positions of a maximal run of length three or more. */
  lemma {:induction false} LineMatchesUpToSound(line: seq<Pos>, s: seq<Gem>, k: nat, mt: Match)
    requires |line| == |s| && k <= |s| && mt in LineMatchesUpTo(line, s, k)
    ensures exists st: nat, e: nat :: IsRun(s, st, e) && e <= k && e - st >= 3 && mt == Straight(ToSet(line[st..e]))
  {
    var start := RunStart(s, k - 1);
    if mt in LineMatchesUpTo(line, s, k - 1) {
      LineMatchesUpToSound(line, s, k - 1, mt);
    } else {
      assert IsRun(s, start, k);
    }
  }

  /** Every maximal run of length three or more of a line is reported. */
  lemma {:induction false} LineMatchesUpToComplete(line: seq<Pos>, s: seq<Gem>, k: nat, st: nat, e: nat)
    requires |line| == |s| && k <= |s| && IsRun(s, st, e) && e <= k && e - st >= 3
    ensures Straight(ToSet(line[st..e])) in LineMatchesUpTo(line, s, k)
  {
    if e == k {
      RunStartOfRun(s, st, e, k - 1);
    } else {
      LineMatchesUpToComplete(line, s, k - 1, st, e);
    }
  }

  /**
   * The matches of a line are exactly its maximal runs of length three or
   * more, each as the set of its positions.
   */
  lemma LineMatchesUpToRuns(line: seq<Pos>, s: seq<Gem>, k: nat, mt: Match)
    requires |line| == |s| && k <= |s|
    ensures mt in LineMatchesUpTo(line, s, k) <==>
      exists st: nat, e: nat :: IsRun(s, st, e) && e <= k && e - st >= 3 && mt == Straight(ToSet(line[st..e]))
  {
    if mt in LineMatchesUpTo(line, s, k) {
      LineMatchesUpToSound(line, s, k, mt);
    }
    if exists st: nat, e: nat :: IsRun(s, st, e) && e <= k && e - st >= 3 && mt == Straight(ToSet(line[st..e])) {
      var st: nat, e: nat :| IsRun(s, st, e) && e <= k && e - st >= 3 && mt == Straight(ToSet(line[st..e]));
      LineMatchesUpToComplete(line, s, k, st, e);
    }
  }

  /**
   * One cell of the scan of a line: when gem `k` equals the one before it
   * the current run grows and nothing is reported; otherwise the run before
   * it ends, is at most three long, and is reported when it is exactly three.
   */
  lemma LineStep(line: seq<Pos>, s: seq<Gem>, k: nat)
    requires |line| == |s| && 0 < k < |s| && ScanDefined(s)
    ensures s[k] == s[k - 1] ==>
      RunStart(s, k) == RunStart(s, k - 1) && LineMatchesUpTo(line, s, k) == LineMatchesUpTo(line, s, k - 1)
    ensures s[k] != s[k - 1] ==>
      RunStart(s, k) == k && k - RunStart(s, k - 1) <= 3
      && LineMatchesUpTo(line, s, k) == LineMatchesUpTo(line, s, k - 1)
        + (if k - RunStart(s, k - 1) == 3 then [Straight(ToSet(line[RunStart(s, k - 1)..k]))] else [])
  {
    if s[k] != s[k - 1] {
      assert IsRun(s, RunStart(s, k - 1), k);
    }
  }

  /**
   * The state of the cell-by-cell scan of one line: the positions of the
   * current run, the gem type of the previous cell, and the matches found.
   */
  datatype LineScan = LineScan(current: seq<Pos>, previous: Option<Gem>, found: seq<Match>)

  /**
   * The scan state after the first `k` cells of a line. An equal gem (or the
   * first cell) extends the current run; a different gem starts a new run,
   * and the run it ends is reported when it is exactly three long.
   */
  function ScanCells(line: seq<Pos>, s: seq<Gem>, k: nat): (r: LineScan)
    requires |line| == |s| && k <= |s|
    ensures k == 0 <==> r.previous == None
    ensures k > 0 ==> r.previous == Some(s[k - 1])
    ensures k > 0 ==> r.current != []
  {
    if k == 0 then LineScan([], None, [])
    else
      var st := ScanCells(line, s, k - 1);
      if st.current == [] || st.previous == Some(s[k - 1]) then
        LineScan(st.current + [line[k - 1]], Some(s[k - 1]), st.found)
      else
        LineScan([line[k - 1]], Some(s[k - 1]),
          st.found + (if |st.current| == 3 then [Straight(ToSet(st.current))] else []))
  }

  /**
   * After `k` cells the scan holds the run containing cell `k - 1` and has
   * reported exactly the runs of three or more that ended before it.
   */
  lemma {:induction false} ScanCellsRuns(line: seq<Pos>, s: seq<Gem>, k: nat)
    requires |line| == |s| && 0 < k <= |s| && ScanDefined(s)
    ensures ScanCells(line, s, k).current == line[RunStart(s, k - 1)..k]
    ensures ScanCells(line, s, k).previous == Some(s[k - 1])
    ensures ScanCells(line, s, k).found == LineMatchesUpTo(line, s, k - 1)
  {
    if k == 1 {
      assert line[0..1] == [line[0]];
    } else {
      ScanCellsRuns(line, s, k - 1);
      if s[k - 1] == s[k - 2] {
        ScanCellsSame(line, s, k);
      } else {
        ScanCellsNew(line, s, k);
      }
    }
  }

  /** The step of `ScanCellsRuns` where cell `k - 1` extends the current run. */
  lemma ScanCellsSame(line: seq<Pos>, s: seq<Gem>, k: nat)
    requires |line| == |s| && 1 < k <= |s| && ScanDefined(s) && s[k - 1] == s[k - 2]
    requires ScanCells(line, s, k - 1).current == line[RunStart(s, k - 2)..k - 1]
    requires ScanCells(line, s, k - 1).previous == Some(s[k - 2])
    requires ScanCells(line, s, k - 1).found == LineMatchesUpTo(line, s, k - 2)
    ensures ScanCells(line, s, k).current == line[RunStart(s, k - 1)..k]
    ensures ScanCells(line, s, k).previous == Some(s[k - 1])
    ensures ScanCells(line, s, k).found == LineMatchesUpTo(line, s, k - 1)
  {
    LineStep(line, s, k - 1);
    SliceGrow(line, RunStart(s, k - 2), k - 1);
  }

  /** The step of `ScanCellsRuns` where cell `k - 1` starts a new run. */
  lemma ScanCellsNew(line: seq<Pos>, s: seq<Gem>, k: nat)
    requires |line| == |s| && 1 < k <= |s| && ScanDefined(s) && s[k - 1] != s[k - 2]
    requires ScanCells(line, s, k - 1).current == line[RunStart(s, k - 2)..k - 1]
    requires ScanCells(line, s, k - 1).previous == Some(s[k - 2])
    requires ScanCells(line, s, k - 1).found == LineMatchesUpTo(line, s, k - 2)
    ensures ScanCells(line, s, k).current == line[RunStart(s, k - 1)..k]
    ensures ScanCells(line, s, k).previous == Some(s[k - 1])
    ensures ScanCells(line, s, k).found == LineMatchesUpTo(line, s, k - 1)
  {
    LineStep(line, s, k - 1);
    assert line[k - 1..k] == [line[k - 1]];
  }

  /** The scan state after one more cell, as the body of the loop over a line computes it. */
  lemma ScanCellsNext(line: seq<Pos>, s: seq<Gem>, k: nat)
    requires |line| == |s| && k < |s|
    ensures var st := ScanCells(line, s, k);
      ScanCells(line, s, k + 1)
      == if st.current == [] || st.previous.value == s[k] then
           LineScan(st.current + [line[k]], Some(s[k]), st.found)
         else
           LineScan([line[k]], Some(s[k]), st.found + (if |st.current| == 3 then [Straight(ToSet(st.current))] else []))
  {
  }

  /**
   * Where a different gem follows, the run the scan holds is at most three
   * long: the scan never reaches the source's `unimplemented!` branch.
   */
  lemma ScanRunAtMostThree(line: seq<Pos>, s: seq<Gem>, k: nat)
    requires |line| == |s| && k < |s| && ScanDefined(s)
    requires ScanCells(line, s, k).current != [] && ScanCells(line, s, k).previous != Some(s[k])
    ensures |ScanCells(line, s, k).current| <= 3
  {
    ScanCellsRuns(line, s, k);
    LineStep(line, s, k);
  }

  /** Extending a slice of positions by the next one. */
  lemma SliceGrow(line: seq<Pos>, a: nat, b: nat)
    requires a <= b < |line|
    ensures line[a..b + 1] == line[a..b] + [line[b]]
  {
  }

  /**
   * The scan of a whole line, followed by the report of the run left at its
   * end when that run is three or more long, yields `LineMatches`.
   */
  lemma LineMatchesByScan(line: seq<Pos>, s: seq<Gem>)
    requires |line| == |s| && ScanDefined(s)
    ensures var st := ScanCells(line, s, |s|);
      LineMatches(line, s) == st.found + (if |st.current| >= 3 then [Straight(ToSet(st.current))] else [])
  {
    if |s| > 0 {
      ScanCellsRuns(line, s, |s|);
    }
  }

  /** No three equal gems follow each other anywhere in `s`. */
  predicate NoTriple(s: seq<Gem>)
  {
    forall i :: 2 <= i < |s| ==> !Triple(s, i)
  }

  /** The gems at `i - 2`, `i - 1` and `i` are equal. */
  predicate Triple(s: seq<Gem>, i: nat)
    requires 2 <= i < |s|
  {
    s[i - 2] == s[i] && s[i - 1] == s[i]
  }

  /** A line without three equal consecutive gems has no match. */
  lemma {:induction false} NoTripleNoLineMatches(line: seq<Pos>, s: seq<Gem>, k: nat)
    requires |line| == |s| && k <= |s| && NoTriple(s)
    ensures LineMatchesUpTo(line, s, k) == []
  {
    if k > 0 {
      NoTripleNoLineMatches(line, s, k - 1);
      var e := k - 1;
      var start := RunStart(s, e);
      if e >= 2 {
        assert !Triple(s, e);
      }
    }
  }

  /** Without three equal consecutive gems there is no run of four to cut off. */
  lemma NoTripleScanDefined(s: seq<Gem>)
    requires NoTriple(s)
    ensures ScanDefined(s)
  {
    forall i | 4 <= i < |s|
      ensures !CutsLongRun(s, i)
    {
      assert !Triple(s, i - 1);
    }
  }

  /**
   * A line whose three-in-a-row gems all lie in one maximal run `[st, e)`
   * reports that run once, when the scan has passed its end, and nothing else.
   */
  lemma {:induction false} LineOneRunUpTo(line: seq<Pos>, s: seq<Gem>, st: nat, e: nat, k: nat)
    requires |line| == |s| && k <= |s| && IsRun(s, st, e) && e - st >= 3
    requires forall i :: 2 <= i < |s| && Triple(s, i) ==> st + 2 <= i < e
    ensures LineMatchesUpTo(line, s, k) == if e <= k then [Straight(ToSet(line[st..e]))] else []
  {
    if k > 0 {
      LineOneRunUpTo(line, s, st, e, k - 1);
      var x := k - 1;
      if k == e {
        RunStartOfRun(s, st, e, x);
      } else {
        OffRunNoMatch(s, st, e, x);
      }
    }
  }

  /** When the only three-in-a-row gems lie in the run `[st, e)`, no other index ends a run of three or more. */
  lemma OffRunNoMatch(s: seq<Gem>, st: nat, e: nat, x: nat)
    requires IsRun(s, st, e) && x < |s| && x + 1 != e
    requires forall i :: 2 <= i < |s| && Triple(s, i) ==> st + 2 <= i < e
    ensures !(IsRunEnd(s, x) && x + 1 - RunStart(s, x) >= 3)
  {
    var r := RunStart(s, x);
    if x + 1 - r >= 3 {
      assert Triple(s, x);
      assert s[x + 1] == s[x];
    }
  }

  /** The positions of one line are pairwise distinct. */
  lemma LineDistinct(dir: MatchDirection, one: nat, n: nat)
    ensures forall i, j :: 0 <= i < j < n ==> Line(dir, one, n)[i] != Line(dir, one, n)[j]
  {
  }

  /** A list of pairwise distinct positions has as many elements as its set. */
  lemma {:induction false} ToSetSize(s: seq<Pos>)
    requires forall i, j :: 0 <= i < j < |s| ==> s[i] != s[j]
    ensures |ToSet(s)| == |s|
  {
    if s != [] {
      var init := s[..|s| - 1];
      ToSetSize(init);
      assert ToSet(s) == ToSet(init) + {s[|s| - 1]};
      assert s[|s| - 1] !in ToSet(init);
    }
  }

  /** The gems of line `one` of a scan over a full board. */
  function LineGems(m: map<Pos, Gem>, w: nat, h: nat, dir: MatchDirection, one: nat): (s: seq<Gem>)
    requires Full(m, w, h) && one < LineCount(dir, w, h)
    ensures |s| == LineLength(dir, w, h)
    ensures forall i :: 0 <= i < |s| ==> LinePos(dir, one, i) in m && s[i] == m[LinePos(dir, one, i)]
  {
    LineInBoard(m, w, h, dir, one);
    LineTypes(m, Line(dir, one, LineLength(dir, w, h)))
  }

  /** One match of a scan: line `one` holds the maximal run `[st, e)`, at least three long. */
  predicate ReportedRun(m: map<Pos, Gem>, w: nat, h: nat, dir: MatchDirection, one: nat, st: nat, e: nat, mt: Match)
    requires Full(m, w, h)
  {
    one < LineCount(dir, w, h)
    && IsRun(LineGems(m, w, h, dir, one), st, e) && e - st >= 3
    && mt == Straight(ToSet(Line(dir, one, LineLength(dir, w, h))[st..e]))
  }

  /**
   * The matches of the first `k` lines of a scan are exactly the maximal runs
   * of three or more equal gems in those lines.
   */
  lemma {:induction false} ScanUpToRuns(m: map<Pos, Gem>, w: nat, h: nat, dir: MatchDirection, k: nat, mt: Match)
    requires Full(m, w, h) && k <= LineCount(dir, w, h)
    ensures mt in ScanUpTo(m, w, h, dir, k) <==>
      exists one: nat, st: nat, e: nat :: one < k && ReportedRun(m, w, h, dir, one, st, e, mt)
  {
    if k > 0 {
      ScanUpToRuns(m, w, h, dir, k - 1, mt);
      if mt in ScanUpTo(m, w, h, dir, k) {
        ScanStepSound(m, w, h, dir, k, mt);
      }
      if exists one: nat, st: nat, e: nat :: one < k && ReportedRun(m, w, h, dir, one, st, e, mt) {
        ScanStepComplete(m, w, h, dir, k, mt);
      }
    }
  }

  /** One step of `ScanUpToRuns`: a match of the first `k` lines comes from a run. */
  lemma ScanStepSound(m: map<Pos, Gem>, w: nat, h: nat, dir: MatchDirection, k: nat, mt: Match)
    requires Full(m, w, h) && 0 < k <= LineCount(dir, w, h)
    requires mt in ScanUpTo(m, w, h, dir, k)
    requires mt in ScanUpTo(m, w, h, dir, k - 1) ==>
      exists one: nat, st: nat, e: nat :: one < k - 1 && ReportedRun(m, w, h, dir, one, st, e, mt)
    ensures exists one: nat, st: nat, e: nat :: one < k && ReportedRun(m, w, h, dir, one, st, e, mt)
  {
    var n := LineLength(dir, w, h);
    var line := Line(dir, k - 1, n);
    var s := LineGems(m, w, h, dir, k - 1);
    var before := ScanUpTo(m, w, h, dir, k - 1);
    assert ScanUpTo(m, w, h, dir, k) == before + LineMatches(line, s);
    if mt in before {
      var one: nat, st: nat, e: nat :| one < k - 1 && ReportedRun(m, w, h, dir, one, st, e, mt);
      assert one < k && ReportedRun(m, w, h, dir, one, st, e, mt);
    } else {
      var st: nat, e: nat :| IsRun(s, st, e) && e - st >= 3 && mt == Straight(ToSet(line[st..e]));
      assert ReportedRun(m, w, h, dir, k - 1, st, e, mt);
    }
  }

  /** One step of `ScanUpToRuns`: a run of the first `k` lines is reported. */
  lemma ScanStepComplete(m: map<Pos, Gem>, w: nat, h: nat, dir: MatchDirection, k: nat, mt: Match)
    requires Full(m, w, h) && 0 < k <= LineCount(dir, w, h)
    requires exists one: nat, st: nat, e: nat :: one < k && ReportedRun(m, w, h, dir, one, st, e, mt)
    requires (exists one: nat, st: nat, e: nat :: one < k - 1 && ReportedRun(m, w, h, dir, one, st, e, mt))
      ==> mt in ScanUpTo(m, w, h, dir, k - 1)
    ensures mt in ScanUpTo(m, w, h, dir, k)
  {
    var one: nat, st: nat, e: nat :| one < k && ReportedRun(m, w, h, dir, one, st, e, mt);
    if one < k - 1 {
      assert one < k - 1 && ReportedRun(m, w, h, dir, one, st, e, mt);
      ScanUpToGrows(m, w, h, dir, k, mt);
    } else {
      LastLineReported(m, w, h, dir, k, st, e, mt);
    }
  }

  /** A match of the first `k - 1` lines stays a match of the first `k`. */
  lemma ScanUpToGrows(m: map<Pos, Gem>, w: nat, h: nat, dir: MatchDirection, k: nat, mt: Match)
    requires Full(m, w, h) && 0 < k <= LineCount(dir, w, h)
    requires mt in ScanUpTo(m, w, h, dir, k - 1)
    ensures mt in ScanUpTo(m, w, h, dir, k)
  {
  }

  /** A run of line `k - 1` is a match of the first `k` lines. */
  lemma LastLineReported(m: map<Pos, Gem>, w: nat, h: nat, dir: MatchDirection, k: nat, st: nat, e: nat, mt: Match)
    requires Full(m, w, h) && 0 < k <= LineCount(dir, w, h)
    requires ReportedRun(m, w, h, dir, k - 1, st, e, mt)
    ensures mt in ScanUpTo(m, w, h, dir, k)
  {
    var line := Line(dir, k - 1, LineLength(dir, w, h));
    var s := LineGems(m, w, h, dir, k - 1);
    assert IsRun(s, st, e) && e - st >= 3 && mt == Straight(ToSet(line[st..e]));
    assert mt in LineMatches(line, s);
  }

  /**
   * Soundness and completeness of `get_matches`: a match is reported exactly
   * for each maximal run of three or more equal gems in a column (the
   * `Horizontal` scan) or in a row (the `Vertical` scan).
   */
  lemma MatchesOfRuns(m: map<Pos, Gem>, w: nat, h: nat, mt: Match)
    requires Full(m, w, h)
    ensures mt in MatchesOf(m, w, h) <==>
      exists dir: MatchDirection, one: nat, st: nat, e: nat :: ReportedRun(m, w, h, dir, one, st, e, mt)
  {
    ScanUpToRuns(m, w, h, Horizontal, LineCount(Horizontal, w, h), mt);
    ScanUpToRuns(m, w, h, Vertical, LineCount(Vertical, w, h), mt);
  }

  /** The cells of a reported run lie on its line inside the board and hold the run's gem. */
  lemma ReportedRunShape(m: map<Pos, Gem>, w: nat, h: nat, dir: MatchDirection, one: nat, st: nat, e: nat, mt: Match)
    requires Full(m, w, h) && ReportedRun(m, w, h, dir, one, st, e, mt)
    ensures |mt.cells| == e - st
    ensures forall p :: p in mt.cells ==>
      p.x < w && p.y < h && p in m && m[p] == LineGems(m, w, h, dir, one)[st]
      && (if dir == Horizontal then p.x == one else p.y == one)
  {
    var n := LineLength(dir, w, h);
    var line := Line(dir, one, n);
    var s := LineGems(m, w, h, dir, one);
    LineDistinct(dir, one, n);
    ToSetSize(line[st..e]);
    forall p | p in mt.cells
      ensures p.x < w && p.y < h && p in m && m[p] == s[st]
      ensures if dir == Horizontal then p.x == one else p.y == one
    {
      assert p in line[st..e];
      var j :| 0 <= j < e - st && line[st..e][j] == p;
      var i := st + j;
      assert line[i] == p;
      assert s[i] == m[line[i]] && s[i] == s[st];
    }
  }

  /**
   * Every reported match is a straight line of at least three in-range
   * positions, all holding the same gem, sharing one column or one row.
   */
  lemma MatchShape(m: map<Pos, Gem>, w: nat, h: nat, mt: Match)
    requires Full(m, w, h) && mt in MatchesOf(m, w, h)
    ensures |mt.cells| >= 3
    ensures forall p :: p in mt.cells ==> p.x < w && p.y < h && p in m
    ensures forall p, q :: p in mt.cells && q in mt.cells ==> p in m && q in m && m[p] == m[q]
    ensures (forall p, q :: p in mt.cells && q in mt.cells ==> p.x == q.x)
         || (forall p, q :: p in mt.cells && q in mt.cells ==> p.y == q.y)
  {
    MatchesOfRuns(m, w, h, mt);
    var dir: MatchDirection, one: nat, st: nat, e: nat :| ReportedRun(m, w, h, dir, one, st, e, mt);
    ReportedRunShape(m, w, h, dir, one, st, e, mt);
  }

  /** A board whose lines contain no three equal consecutive gems has no match. */
  lemma NoTripleNoMatches(m: map<Pos, Gem>, w: nat, h: nat)
    requires Full(m, w, h)
    requires forall one :: 0 <= one < w ==> NoTriple(LineGems(m, w, h, Horizontal, one))
    requires forall one :: 0 <= one < h ==> NoTriple(LineGems(m, w, h, Vertical, one))
    ensures MatchesOf(m, w, h) == []
  {
    forall dir: MatchDirection, k: nat | k <= LineCount(dir, w, h)
      ensures ScanUpTo(m, w, h, dir, k) == []
    {
      ScanUpToEmpty(m, w, h, dir, k);
    }
  }

  lemma {:induction false} ScanUpToEmpty(m: map<Pos, Gem>, w: nat, h: nat, dir: MatchDirection, k: nat)
    requires Full(m, w, h) && k <= LineCount(dir, w, h)
    requires forall one :: 0 <= one < LineCount(dir, w, h) ==> NoTriple(LineGems(m, w, h, dir, one))
    ensures ScanUpTo(m, w, h, dir, k) == []
  {
    if k > 0 {
      ScanUpToEmpty(m, w, h, dir, k - 1);
      var n := LineLength(dir, w, h);
      NoTripleNoLineMatches(Line(dir, k - 1, n), LineGems(m, w, h, dir, k - 1), n);
    }
  }

  /** A board whose in-range cells hold pairwise different gems can be scanned and has no match. */
  lemma DistinctNoMatches(m: map<Pos, Gem>, w: nat, h: nat)
    requires Full(m, w, h)
    requires forall p, q :: p in m && q in m && p != q && p.x < w && p.y < h && q.x < w && q.y < h ==> m[p] != m[q]
    ensures Scannable(m, w, h)
    ensures MatchesOf(m, w, h) == []
  {
    forall dir: MatchDirection, one | 0 <= one < LineCount(dir, w, h)
      ensures NoTriple(LineGems(m, w, h, dir, one))
    {
      DistinctLine(m, w, h, dir, one);
    }
    NoTripleScannable(m, w, h);
    NoTripleNoMatches(m, w, h);
  }

  /** A board none of whose lines has three equal gems in a row can be scanned. */
  lemma NoTripleScannable(m: map<Pos, Gem>, w: nat, h: nat)
    requires Full(m, w, h)
    requires forall one :: 0 <= one < w ==> NoTriple(LineGems(m, w, h, Horizontal, one))
    requires forall one :: 0 <= one < h ==> NoTriple(LineGems(m, w, h, Vertical, one))
    ensures Scannable(m, w, h)
  {
    forall one | 0 <= one < w
      ensures ScanDefined(LineTypes(m, Line(Horizontal, one, h)))
    {
      NoTripleScanDefined(LineGems(m, w, h, Horizontal, one));
    }
    forall one | 0 <= one < h
      ensures ScanDefined(LineTypes(m, Line(Vertical, one, w)))
    {
      NoTripleScanDefined(LineGems(m, w, h, Vertical, one));
    }
  }

  /** A line of pairwise different gems has no three equal in a row. */
  lemma DistinctLine(m: map<Pos, Gem>, w: nat, h: nat, dir: MatchDirection, one: nat)
    requires Full(m, w, h) && one < LineCount(dir, w, h)
    requires forall p, q :: p in m && q in m && p != q && p.x < w && p.y < h && q.x < w && q.y < h ==> m[p] != m[q]
    ensures NoTriple(LineGems(m, w, h, dir, one))
  {
    var n := LineLength(dir, w, h);
    LineDistinct(dir, one, n);
    var s := LineGems(m, w, h, dir, one);
    forall i | 2 <= i < |s|
      ensures !Triple(s, i)
    {
      assert Line(dir, one, n)[i - 1] != Line(dir, one, n)[i];
    }
  }

  /** Index just past the run of equal gems containing index `i`. */
  function RunEnd(s: seq<Gem>, i: nat): (r: nat)
    requires i < |s|
    ensures i < r <= |s|
    ensures forall k :: i <= k < r ==> s[k] == s[i]
    ensures r == |s| || s[r] != s[i]
    decreases |s| - i
  {
    if i + 1 == |s| || s[i + 1] != s[i] then i + 1 else RunEnd(s, i + 1)
  }

  /** Three equal consecutive gems lie inside a maximal run of three or more. */
  lemma TripleInRun(s: seq<Gem>, i: nat)
    requires 2 <= i < |s| && Triple(s, i)
    ensures IsRun(s, RunStart(s, i), RunEnd(s, i)) && RunEnd(s, i) - RunStart(s, i) >= 3
  {
    assert RunStart(s, i) == RunStart(s, i - 2);
  }

  /**
   * `get_matches` finds something exactly when some column or row of the
   * board holds three equal gems next to each other.
   */
  lemma MatchesIffTriple(m: map<Pos, Gem>, w: nat, h: nat)
    requires Full(m, w, h)
    ensures MatchesOf(m, w, h) != [] <==>
      exists dir: MatchDirection, one: nat, i: nat :: one < LineCount(dir, w, h) && 2 <= i < LineLength(dir, w, h)
        && Triple(LineGems(m, w, h, dir, one), i)
  {
    if exists dir: MatchDirection, one: nat, i: nat :: one < LineCount(dir, w, h) && 2 <= i < LineLength(dir, w, h)
        && Triple(LineGems(m, w, h, dir, one), i) {
      var dir: MatchDirection, one: nat, i: nat :| one < LineCount(dir, w, h) && 2 <= i < LineLength(dir, w, h)
        && Triple(LineGems(m, w, h, dir, one), i);
      var s := LineGems(m, w, h, dir, one);
      TripleInRun(s, i);
      var st, e := RunStart(s, i), RunEnd(s, i);
      var mt := Straight(ToSet(Line(dir, one, LineLength(dir, w, h))[st..e]));
      assert ReportedRun(m, w, h, dir, one, st, e, mt);
      MatchesOfRuns(m, w, h, mt);
    } else {
      forall dir: MatchDirection, one | 0 <= one < LineCount(dir, w, h)
        ensures NoTriple(LineGems(m, w, h, dir, one))
      {
        var s := LineGems(m, w, h, dir, one);
        forall i | 2 <= i < |s|
          ensures !Triple(s, i)
        {
          assert !(one < LineCount(dir, w, h) && 2 <= i < LineLength(dir, w, h) && Triple(s, i));
        }
      }
      NoTripleNoMatches(m, w, h);
    }
  }
}
