# bevy_match3 board engine, modelled in Dafny

This project models the board engine of the `bevy_match3` crate: the
grid of gems (`Board` in src/board.rs), its match finder
(`get_matches` / `straight_matches`), gravity (`drop`), the swap that
is accepted only when it makes a match (`swap`), the command and event
queues (`BoardCommands`, `BoardEvents`), the match collection of
src/mat.rs, and the system `read_commands` of src/systems.rs, which
drains the command queue into the board and reports each outcome on
the event queue.

The board is a Dafny `class` with a `gems: map<Pos, Gem>` field that
its methods update in place, the same way the source's `HashMap` is
updated. Its methods are proved against pure specification functions:

- `Matcher`: the matches of every line, scanned in the source's order;
- `Gravity`: a column after gravity, and the moves that `drop` records;
- `SwapOutcome`: what a swap does to the board;
- `Process`: what draining a list of commands does to the board and to
  the event queue.

The properties the source promises are then proved about those
functions:

- a match is reported for exactly the maximal runs of three or more;
- a swap is accepted exactly when the exchanged board holds three equal
  gems in a row;
- `drop` keeps each column's gems in order, settles them on the bottom
  and reports each moved gem once;
- commands are processed in FIFO order.

The unit tests of src/board.rs and src/lib.rs are restated as lemmas in
`Scenarios`. Each of them pins down the exact result of the model on the
test's board.

Modules:

- `Wrappers` and `Grid` (common.dfy): `Option`, `Result`, positions,
  gems and cells.
- `Mat` (mat.dfy): `Match` and `Matches`.
- `Matcher` (matcher.dfy): the specification of `straight_matches` and
  `get_matches`.
- `Gravity` (gravity.dfy): the specification of `drop`.
- `Boards` (board.dfy): commands, events, the swap specification and the
  `Board` class.
- `Queues` (queues.dfy): the FIFO behind `BoardCommands` and
  `BoardEvents`.
- `Systems` (systems.dfy): `read_commands`.
- `Scenarios` (scenarios.dfy): the unit tests.

Source behaviours that the model keeps as they are written:

- **Which direction is which.** `MatchDirection::Horizontal` keeps `x`
  fixed and walks down a column. `Vertical` walks along a row.
- **Runs of four or more.** src/mat.rs:11 documents a `Match` as "a
  straight match of 3 or more gems". Yet a run that ends inside its line
  is reported only when it is exactly three long: a longer one reaches
  `unimplemented!` (board.rs:146-150). `Matcher.ScanDefined` excludes
  exactly those lines, so a board with such a run is outside
  `Scannable`. A run that ends at the end of its line is reported at any
  length of three or more (board.rs:155-158).
- **Events.** An accepted swap emits only `Swapped` (systems.rs:13-17)
  and a refused one only `FailedSwap` (systems.rs:18-23). A `Pop`
  command reaches `todo!()` (systems.rs:25).

## Model

| member | source | states |
|---|---|---|
| Mat.FlattenMembership | src/mat.rs:31-39 | a position is in the flattened set of a match list exactly when some match of the list contains it |
| Mat.FlattenAppend | src/mat.rs:26-39 | the flattened set of two concatenated match lists is the union of their flattened sets |
| Mat.Matches.constructor | src/mat.rs:16-19 | `Matches::default()` holds no match |
| Mat.Matches.Add | src/mat.rs:22-24 | `add` puts the match at the end, grows the list by one and adds the match's cells to `without_duplicates` |
| Mat.Matches.Append | src/mat.rs:26-28 | `append` puts the other collection's matches after this one's in order, empties the other, and `without_duplicates` becomes the union |
| Mat.Matches.WithoutDuplicates | src/mat.rs:31-39 | a position is returned exactly when some held match contains it |
| Mat.Matches.IsEmpty | src/mat.rs:41-43 | true exactly when no match is held, and then `without_duplicates` is empty |
| Matcher.LineInBoard | src/board.rs:121-141 | on a full board every position a scan visits holds a gem, so the `unwrap` of `get` never fails |
| Matcher.CutsLongRun | src/board.rs:145-150 | true exactly when the gem at `i` differs from the one before it and ends a maximal run of four or more, the case that reaches `unimplemented!` |
| Matcher.ScanDefined | src/board.rs:142-153 | the scan of a line never reaches `unimplemented!` exactly when every maximal run that a different gem ends is at most three long |
| Matcher.Scannable | src/board.rs:111-163 | (definition) `get_matches` runs to completion exactly when the board is full, so the `unwrap` of `get` at board.rs:141 never fails, and every column and row satisfies `ScanDefined`, so board.rs:149 is never reached |
| Matcher.ScannableRuns | src/board.rs:111-163 | a board can be scanned exactly when it is full and no maximal run longer than three ends inside a column or a row |
| Matcher.RunStart | src/board.rs:142-153 | the start of the run holding index `i`: every gem from it to `i` equals gem `i`, and the gem before it differs |
| Matcher.RunEnd | src/board.rs:142-153 | the end of the run holding index `i`: every gem from `i` to it equals gem `i`, and the gem at it differs or the line ends |
| Matcher.RunStartOfRun | src/board.rs:142-153 | from any index of a maximal run, `RunStart` finds that run's start |
| Matcher.LineMatchesUpTo | src/board.rs:142-158 | the runs that end within the first `k` cells of a line give at most one match per cell, and none before the third cell |
| Matcher.LineMatches | src/board.rs:125-158 | the matches of one line are exactly its maximal runs of three or more equal gems, each as the set of its positions |
| Matcher.LineMatchesUpToSound | src/board.rs:142-158 | every match reported for a line is the position set of a maximal run of three or more that ended within the scanned prefix |
| Matcher.LineMatchesUpToComplete | src/board.rs:142-158 | every maximal run of three or more that ended within the scanned prefix is reported |
| Matcher.LineMatchesUpToRuns | src/board.rs:142-158 | a match is reported for a line exactly when it is a maximal run of three or more (both directions) |
| Matcher.LineStep | src/board.rs:142-153 | one cell of the scan: an equal gem extends the run and reports nothing; a different gem starts a new run, and the ended run (at most three long) is reported exactly when it is three long |
| Matcher.ScanCells | src/board.rs:125-153 | the state of the loop over a line: `previous_type` is `None` exactly before the first cell and then holds the last gem read, and `current_match` is never empty once a cell has been read |
| Matcher.ScanCellsRuns | src/board.rs:125-154 | after `k` cells the loop state holds the current run's positions, the previous gem and exactly the matches of the runs ended before cell `k - 1` |
| Matcher.ScanCellsSame | src/board.rs:142-144 | the loop step for an equal gem keeps the loop invariant of `ScanCellsRuns` |
| Matcher.ScanCellsNew | src/board.rs:145-153 | the loop step for a different gem keeps the loop invariant of `ScanCellsRuns` |
| Matcher.ScanRunAtMostThree | src/board.rs:146-149 | when a different gem arrives, the current run the loop holds is at most three long, so `unimplemented!` is never reached |
| Matcher.LineMatchesByScan | src/board.rs:125-160 | the loop over a line, followed by the report at the end of the line of a run of three or more, yields exactly the line's matches |
| Matcher.NoTripleNoLineMatches | src/board.rs:142-158 | a line without three equal gems in a row has no match |
| Matcher.NoTripleScanDefined | src/board.rs:145-150 | a line without three equal gems in a row never reaches `unimplemented!` |
| Matcher.LineOneRunUpTo | src/board.rs:142-158 | a line whose only three-in-a-row lies in one maximal run reports exactly that run, once the scan has passed its end |
| Matcher.OffRunNoMatch | src/board.rs:142-158 | in such a line no other index ends a run of three or more |
| Matcher.LineDistinct | src/board.rs:125-139 | the positions a scan visits along one line are pairwise distinct |
| Matcher.ToSetSize | src/board.rs:148 | collecting pairwise distinct positions into a set keeps their number |
| Matcher.LineGems | src/board.rs:121-141 | (definition) the gems read along a line are the board's gems at the line's positions, in scan order |
| Matcher.ScanUpToRuns | src/board.rs:117-163 | the matches of the first `k` lines of a scan are exactly the maximal runs of three or more in those lines |
| Matcher.ScanMatches | src/board.rs:117-163 | `straight_matches(dir)` reports a match exactly for each maximal run of three or more equal gems in a line of the scan |
| Matcher.MatchesOf | src/board.rs:111-115 | (definition) `get_matches` holds the column scan's matches first, then the row scan's; a match is reported when either scan reports it |
| Matcher.ScanStepSound | src/board.rs:121-161 | induction step of `ScanUpToRuns`: each match of `k` lines comes from a run |
| Matcher.ScanStepComplete | src/board.rs:121-161 | induction step of `ScanUpToRuns`: each run of `k` lines is reported |
| Matcher.MatchesOfRuns | src/board.rs:111-163 | `get_matches` reports a match exactly for each maximal run of three or more in a column or a row |
| Matcher.ReportedRunShape | src/board.rs:117-163 | a reported run has `e - st` in-range cells on its own line, all holding the run's gem |
| Matcher.MatchShape | src/board.rs:111-163 | every match has at least three in-range cells holding the same gem, all in one column or all in one row |
| Matcher.NoTripleNoMatches | src/board.rs:111-163 | a board with no three equal gems in a row in any line has no match |
| Matcher.ScanUpToEmpty | src/board.rs:117-163 | a scan whose lines have no three-in-a-row reports nothing |
| Matcher.NoTripleScannable | src/board.rs:111-163 | such a board never makes `get_matches` panic |
| Matcher.DistinctLine | src/board.rs:121-141 | on a board of pairwise different gems no line has three equal gems in a row |
| Matcher.DistinctNoMatches | src/board.rs:111-163 | a full board of pairwise different gems can be scanned and has no match |
| Matcher.TripleInRun | src/board.rs:142-158 | three equal consecutive gems lie inside a maximal run of three or more |
| Matcher.MatchesIffTriple | src/board.rs:111-163 | `get_matches` is non-empty exactly when some column or row holds three equal gems in a row |
| Gravity.Column | src/board.rs:72-74 | (definition) the cells of column `x`, rows `0` to `h - 1`, top to bottom |
| Gravity.Compact | src/board.rs:70-89 | a column after gravity has the same length, and a cell holds a gem exactly when it lies in the bottom rows, as many as the column has gems |
| Gravity.Target | src/board.rs:76-83 | the row a gem lands on is never above its own row and lies inside the column |
| Gravity.MovesIn | src/board.rs:76-83 | every move recorded for rows `lo` to `hi - 1` of column `x` starts in those rows and goes strictly down inside column `x` |
| Gravity.MovesUpTo | src/board.rs:72-87 | every move recorded for the first `k` columns stays in one of those columns and goes strictly down inside the board |
| Gravity.AfterDrop | src/board.rs:70-89 | after `drop` a cell of the board holds a gem exactly when it lies in its column's bottom rows, as many as the column has gems; cells outside the board keep their content |
| Gravity.CompactProperties | src/board.rs:70-89 | gravity keeps a column's gems, in their order, and leaves no empty cell under a gem |
| Gravity.SettledShape | src/board.rs:70-89 | a settled column has all its gems in one block at the bottom |
| Gravity.CompactIdentity | src/board.rs:70-89 | gravity leaves a column unchanged exactly when it is already settled |
| Gravity.SettledGemsOrder | src/board.rs:70-89 | a settled column holds its gems in order in its bottom rows and nothing above them |
| Gravity.GemLands | src/board.rs:76-83 | the gem at row `r` lands on its target row, never above `r`, and that row then holds it |
| Gravity.FullTarget | src/board.rs:74 | in a column without empty cells every gem stays on its row |
| Gravity.ColumnMoveShape | src/board.rs:76-83 | every recorded move of a column goes strictly down, inside the column, to the gem's target row, carrying the gem there |
| Gravity.FullColumnNoMoves | src/board.rs:74 | a column without empty cells records no move |
| Gravity.CompactAppendFull | src/board.rs:73-86 | gravity on a column whose lower part is full only changes the upper part |
| Gravity.CompactNone | src/board.rs:73-86 | a column with no gem is unchanged and records no move |
| Gravity.MovesInStep | src/board.rs:76-83 | the moves of rows `a..hi` are those of rows `a+1..hi` plus the move of row `a` when its gem moves |
| Gravity.ColumnMovesAboveHole | src/board.rs:73-86 | with the lowest empty cell at row `y`, the column's moves are those of rows `0..y` compacted onto `y` |
| Gravity.Pulled | src/board.rs:76-84 | rows above `a` are untouched while the inner loop pulls rows down |
| Gravity.PulledEnds | src/board.rs:75-84 | before the inner loop the column is untouched; after it, rows `0..y` are compacted |
| Gravity.PullStep | src/board.rs:77-83 | a gem met by the inner loop goes to row `y - offset`, its target row, and `offset` counts the gems met so far |
| Gravity.SkipStep | src/board.rs:76-77 | an empty cell met by the inner loop changes nothing and records nothing |
| Gravity.HoleStep | src/board.rs:72-86 | each empty cell the middle loop meets, once the rows above it are pulled down, leaves the whole column compacted and its moves recorded |
| Gravity.PullStart | src/board.rs:74-75 | the inner-loop invariant holds before the first step |
| Gravity.PullEnd | src/board.rs:84 | after the inner loop the column down to the hole is compacted, nothing else changed, and its moves are recorded |
| Gravity.PullPeek | src/board.rs:77 | the cell the inner loop reads still holds its original content |
| Gravity.PullGem | src/board.rs:77-83 | removing the gem and inserting it at `y - offset` keeps the inner-loop invariant |
| Gravity.PullSkip | src/board.rs:76-77 | skipping an empty cell keeps the inner-loop invariant |
| Gravity.TargetOrder | src/board.rs:76-83 | two gems of a column never land on the same row |
| Gravity.MovesUpToMember | src/board.rs:72-87 | a move is recorded for the board exactly when it is a move of its own column |
| Gravity.DropMoveShape | src/board.rs:70-89 | every move `drop` reports takes a gem straight down its column, inside the board, to the cell that holds it afterwards |
| Gravity.DropMovesUnique | src/board.rs:70-89 | no gem is reported moving twice and no two gems are reported landing on one cell |
| Gravity.DropMovesComplete | src/board.rs:70-89 | every gem is either reported moving or stays where it was |
| Gravity.DroppedColumn | src/board.rs:70-89 | after `drop` each column holds the same gems in the same order, settled on the bottom |
| Gravity.DropFull | src/board.rs:70-89 | on a board with no empty cell `drop` moves nothing and reports nothing |
| Boards.GridOf | src/board.rs:36-54 | the board built from rows holds gem `rows[y][x]` at `(x, y)` and nothing else |
| Boards.Exchange | src/board.rs:100-101 | exchanging two gems keeps the occupied cells, puts each gem in the other's cell and changes no other cell |
| Boards.ExchangeUndone | src/board.rs:102-104 | writing the two original gems back after an exchange restores the board |
| Boards.SwapOutcome | src/board.rs:91-109 | a swap fails with `NoGem(p1)` exactly when `p1` is empty, with `NoGem(p2)` exactly when `p1` holds a gem and `p2` is empty, and with `NoMatches` whenever both cells hold gems and it is refused; a refused swap leaves the board unchanged; an accepted one exchanges the two gems and changes no other cell |
| Boards.SwapAcceptedIffTriple | src/board.rs:91-109 | a swap is accepted exactly when both cells hold gems and the exchanged board has three equal gems in a row in some column or row |
| Boards.DistinctRefusesSwap | src/board.rs:91-109 | on a full board of pairwise different gems every swap of two cells is refused with `NoMatches` and leaves the board unchanged |
| Boards.Board.FromRows | src/board.rs:36-54 | the width is the length of the first row, the height the number of rows, and the gems those of `GridOf(rows)` |
| Boards.Board.Get | src/board.rs:58-60 | `get` returns the gem of the cell exactly when the cell holds one |
| Boards.Board.Remove | src/board.rs:62-64 | `remove` empties one cell and changes no other |
| Boards.Board.Insert | src/board.rs:66-68 | `insert` sets one cell and changes no other |
| Boards.Board.PullDown | src/board.rs:73-86 | with `(x, y)` empty, the inner loop compacts rows `0..y` of column `x`, leaves every other cell alone and returns their moves |
| Boards.Board.DropColumn | src/board.rs:72-87 | the loop over one column leaves it compacted, every other cell alone, and returns the column's moves |
| Boards.Board.Drop | src/board.rs:70-89 | after `drop` every cell holds what gravity puts there, and the returned moves are those of all columns |
| Boards.Board.StraightMatches | src/board.rs:117-163 | `straight_matches(dir)` returns the matches of all lines of the scan, in scan order |
| Boards.Board.ScanLine | src/board.rs:121-161 | scanning one line appends exactly that line's matches |
| Boards.Board.GetMatches | src/board.rs:111-115 | `get_matches` returns the column scan's matches followed by the row scan's |
| Boards.Board.Swap | src/board.rs:91-109 | `swap` returns and leaves on the board exactly what `SwapOutcome` describes |
| Queues.Fifo.constructor | src/board.rs:166-167 | a default queue is empty |
| Queues.Fifo.Push | src/board.rs:170-172 | `push` appends the item at the back and succeeds |
| Queues.Fifo.Pop | src/board.rs:174-176 | `pop` on an empty queue fails and leaves it empty; otherwise it returns the front item and removes it |
| Systems.Reported | src/systems.rs:13-23 | the event names the two positions, and is `Swapped` exactly when the swap succeeded |
| Systems.Processable | src/systems.rs:10-27 | commands can be drained without a panic only when every one is a `Swap`, since a `Pop` reaches `todo!()` (systems.rs:25), and the first swap never panics in `get_matches` |
| Systems.Process | src/systems.rs:10-27 | processing commands produces one event per command |
| Systems.ReadCommands | src/systems.rs:4-29 | `read_commands` empties the command queue, leaves the board as `Process` says and appends `Process`'s events to the event queue |
| Systems.ProcessableAppend | src/systems.rs:10-27 | two command lists can be drained one after the other exactly when their concatenation can |
| Systems.ProcessAppend | src/systems.rs:10-27 | draining a concatenation of commands equals draining the first part, then the second from the board it left, with the events in order |
| Systems.ProcessCons | src/systems.rs:10-24 | draining commands performs the first swap, reports it first, then drains the rest |
| Systems.ProcessEventAt | src/systems.rs:10-24 | the `i`-th event reports the `i`-th command's swap, applied to the board left by the commands before it |
| Systems.ProcessAllRefused | src/systems.rs:18-23 | when every event is `FailedSwap` the board is unchanged |
| Scenarios.ColumnRunsMatches | src/board.rs:231-261 | `check_horizontal_matches`: exactly four matches, the column runs at x = 1, 2, 3 and 4 |
| Scenarios.RowRunsMatches | src/board.rs:264-294 | `check_vertical_matches`: exactly four matches, the row runs at y = 0, 2, 5 and 6 |
| Scenarios.MixedMatches | src/board.rs:297-327 | `check_both_directions_matches`: exactly four matches, two column runs then two row runs |
| Scenarios.PopGem | src/board.rs:330-345 | `pop_gem`: after removing (1, 4) that cell is empty |
| Scenarios.PopGemAndDrop | src/board.rs:348-369 | `pop_gem_and_drop`: the drop records exactly the four moves the test lists |
| Scenarios.PopMultipleGemsAndDrop | src/board.rs:372-403 | `pop_multiple_gems_and_drop`: the drop records exactly the five moves the test lists |
| Scenarios.BoardCreation | src/board.rs:209-228 | `board_creation`: a 5 by 7 board with the gems the test reads |
| Scenarios.SwapExchange | src/lib.rs:105-153 | exchanging (1, 2) and (2, 2) on the `swap_gems` board gives the expected board |
| Scenarios.SwappedMatches | src/lib.rs:105-153 | the exchanged `swap_gems` board has exactly one match, the column run at x = 2 |
| Scenarios.SwapGems | src/lib.rs:105-153 | `swap_gems`: the swap is accepted and reported as `Swapped`; (1, 2) then holds 12 and (2, 2) holds 11 |
| Scenarios.FailToSwapGems | src/lib.rs:157-206 | `fail_to_swap_gems`: the swap is refused and reported as `FailedSwap`, and the board is unchanged |

## Left out

- The Bevy glue is not modelled: the plugin, resources, system stages and `Display` for `Board` (board.rs:16-34). Neither is the random board construction in src/lib.rs.
- Systems.ReadCommands: the `is_changed()` guard (systems.rs:9) is not modelled. The model always drains the queue, which is what the guard allows whenever the queue was touched.
- Systems.ReadCommands: a `Pop` command reaches `todo!()` (systems.rs:25). `Processable` excludes it by precondition. So the `pop_gem`, `pop_gems_vertical` and `pop_gems_horizontal` tests of src/lib.rs (lib.rs:209-335), which queue `Pop` commands, are not modelled.
- Boards.Board.Swap: the panics of `get_matches` are preconditions (`SwapDefined`, `Scannable`). These are the `unwrap` on an empty cell and the `unimplemented!` on a run of four or more that ends mid-line.
- Boards.Board.GetMatches: its `Scannable` precondition is that panic condition. `Matcher.MatchesIffTriple` and `Matcher.NoTripleScannable` describe the boards that satisfy it.
- Queues.Fifo.Push: the `queues` crate's `Queue` is unbounded, so `add` never fails. The failure result of `push` and the `unwrap` on it in `read_commands` are not modelled.
- Positions are `nat` pairs rather than `u32` pairs. The `x as u32` casts in `From` and the `y - offset` subtraction cannot overflow on a board that fits in memory. Gem types are bounded to `u32`.
- The error strings of `swap` and of the queues are modelled as the variants `NoGem(pos)`, `NoMatches` and `QueueEmpty`.
- The order in which a `HashSet` iterates is not modelled. Match cells and drop moves are Dafny sets.
- The source has no refill, shuffle or move-hint operation. `BoardEvent` has only `Swapped` and `FailedSwap` (board.rs:199-202).
- src/lib.rs is context only: its plugin setup and its Bevy-based tests are not part of this model, except the two swap tests restated in `Scenarios`.
