/** The lane generator of the staircase: which column each step stands in.
    A step is always exactly one column away from the step before it. */
module Lane {

  function Min(a: int, b: int): int { if a <= b then a else b }

  function Max(a: int, b: int): int { if a >= b then a else b }

  /** The column of the step after one in column `current`, on a track of
      `columns` columns. `rightward` is the random draw (a draw above one half
      moves one column right, any other draw one column left). A move that would
      leave the track is reflected, and the result is then clamped to the track. */
  function NextColumn(columns: int, current: int, rightward: bool): (r: int)
    ensures columns >= 1 ==> 0 <= r < columns
    ensures columns >= 2 && 0 <= current < columns ==> r == current + 1 || r == current - 1
    ensures columns >= 2 && current == 0 ==> r == 1
    ensures columns >= 2 && current == columns - 1 ==> r == columns - 2
    ensures columns >= 2 && 0 < current < columns - 1 ==>
              r == if rightward then current + 1 else current - 1
  {
    var dir := if rightward then 1 else -1;
    var next := if current + dir < 0 || current + dir >= columns then current - dir else current + dir;
    Max(0, Min(columns - 1, next))
  }

  /** Two columns are one apart. */
  predicate Adjacent(a: int, b: int) { b == a + 1 || b == a - 1 }

  /** The column of the step with ordinal `i` of a walk that starts in column
      `first` and takes draw `draws[k]` to go from ordinal `k` to ordinal `k + 1`.
      On a track of at least two columns the walk never leaves the track. */
  function ColumnAt(columns: int, first: int, draws: seq<bool>, i: nat): (r: int)
    requires i <= |draws|
    ensures columns >= 2 && 0 <= first < columns ==> 0 <= r < columns
    ensures i == 0 ==> r == first
    decreases i
  {
    if i == 0 then first else NextColumn(columns, ColumnAt(columns, first, draws, i - 1), draws[i - 1])
  }
}
