/** Wrappers used for the library's `Option` and `Result` returns. */
module Wrappers {

  datatype Option<+T> = None | Some(value: T)

  datatype Result<+R, +E> = Success(value: R) | Failure(error: E)
}

/** Board coordinates and gem types (bevy's `UVec2` and the `u32` gem identifiers). */
module Grid {
  import opened Wrappers

  /** A gem type: the source stores them as `u32`. */
  type Gem = n: int | 0 <= n < 0x1_0000_0000

  /** A board position; `x` is the column, `y` the row, row 0 at the top. */
  datatype Pos = Pos(x: nat, y: nat)

  /** The content of one cell of a gem map: `None` when no gem is stored there. */
  function Cell(m: map<Pos, Gem>, p: Pos): Option<Gem>
  {
    if p in m then Some(m[p]) else None
  }

  /** Every in-range cell of a `w` by `h` board holds a gem. */
  predicate Full(m: map<Pos, Gem>, w: nat, h: nat)
  {
    forall x: nat, y: nat :: x < w && y < h ==> Pos(x, y) in m
  }

  /** The set of positions listed in `s`. */
  function ToSet(s: seq<Pos>): set<Pos>
  {
    set p | p in s
  }
}
