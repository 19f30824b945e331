/** Matches found on a board (src/mat.rs). */
module Mat {
  import opened Grid

  /**
   * The two scan orders of the match finder. The names follow the source,
   * where `Horizontal` keeps `x` fixed and walks down a column, and
   * `Vertical` keeps `y` fixed and walks along a row.
   */
  datatype MatchDirection = Horizontal | Vertical

  /** One match: the set of positions of a straight run of equal gems. */
  datatype Match = Straight(cells: set<Pos>)

  /** Every position that belongs to some match of `ms`, each once. */
  function Flatten(ms: seq<Match>): set<Pos>
  {
    if ms == [] then {} else Flatten(ms[..|ms| - 1]) + ms[|ms| - 1].cells
  }

  /** A position is in the flattened set exactly when some match contains it. */
  lemma {:induction false} FlattenMembership(ms: seq<Match>, p: Pos)
    ensures p in Flatten(ms) <==> exists i :: 0 <= i < |ms| && p in ms[i].cells
  {
    if ms != [] {
      var init := ms[..|ms| - 1];
      FlattenMembership(init, p);
      if p in Flatten(init) {
        var i :| 0 <= i < |init| && p in init[i].cells;
        assert ms[i] == init[i];
      }
      if exists i :: 0 <= i < |ms| && p in ms[i].cells {
        var i :| 0 <= i < |ms| && p in ms[i].cells;
        if i < |init| {
          assert init[i] == ms[i];
        }
      }
    }
  }

  /** Flattening distributes over concatenation of match lists. */
  lemma {:induction false} FlattenAppend(a: seq<Match>, b: seq<Match>)
    ensures Flatten(a + b) == Flatten(a) + Flatten(b)
  {
    if b != [] {
      assert (a + b)[..|a + b| - 1] == a + b[..|b| - 1];
      FlattenAppend(a, b[..|b| - 1]);
    } else {
      assert a + b == a;
    }
  }

  /** The ordered collection of matches of one detection pass (`Matches`). */
  class Matches {
    var matches: seq<Match>

    /** `Matches::default()`: no matches. */
    constructor ()
      ensures matches == []
    {
      matches := [];
    }

    /** `add`: pushes one match at the end. */
    method Add(mat: Match)
      modifies this
      ensures matches == old(matches) + [mat]
      ensures |matches| == |old(matches)| + 1
      ensures WithoutDuplicates() == old(WithoutDuplicates()) + mat.cells
    {
      matches := matches + [mat];
      assert matches[..|matches| - 1] == old(matches);
    }

    /** `append`: moves all of `other`'s matches after this one's, emptying `other`. */
    method Append(other: Matches)
      requires other != this
      modifies this, other
      ensures matches == old(matches) + old(other.matches)
      ensures other.matches == []
      ensures WithoutDuplicates() == old(WithoutDuplicates()) + old(other.WithoutDuplicates())
    {
      FlattenAppend(matches, other.matches);
      matches := matches + other.matches;
      other.matches := [];
    }

    /** `without_duplicates`: the union of the positions of all matches. */
    function WithoutDuplicates(): (r: set<Pos>)
      reads this
      ensures forall p :: p in r <==> exists i :: 0 <= i < |matches| && p in matches[i].cells
    {
      forall p ensures p in Flatten(matches) <==> exists i :: 0 <= i < |matches| && p in matches[i].cells {
        FlattenMembership(matches, p);
      }
      Flatten(matches)
    }

    /** `is_empty`: no match is held. */
    function IsEmpty(): (r: bool)
      reads this
      ensures r <==> matches == []
      ensures r ==> WithoutDuplicates() == {}
    {
      |matches| == 0
    }
  }
}
