/**
 * `make_labels`: the partial first page computed from `skip`, and the draw
 * callback the sheet calls for each position. Placing labels on the sheet,
 * pagination and saving belong to the sheet library and are not modelled.
 */
module Sheet {
  import opened Values
  import opened Backend
  import opened Layout
  import opened Label

  /** A label position on a page: 1-based row and column. */
  datatype Position = Position(row: nat, col: nat)

  /**
   * What the skip code of `make_labels` hands to `sheet.partial_page(1, …)`:
   * None when it does not call it, or the positions it marks as used.
   */
  type PartialPage = Option<seq<Position>>

  /**
   * The skip code as written. `skip % labels_per_page` divides by zero on a
   * sheet without positions, and `partial.append(i+1, j+1)` passes two
   * arguments to `list.append`, which raises TypeError on its first call.
   */
  function SkipAsWritten(rows: nat, cols: nat, skip: int): Result<PartialPage> {
    if skip <= 0 then Ok(None)
    else if rows * cols == 0 then Err(ZeroDivisionError)
    else Err(TypeError)
  }

  /** As written, asking to skip any position at all raises. */
  lemma SkipAsWrittenAlwaysRaises(rows: nat, cols: nat, skip: int)
    ensures SkipAsWritten(rows, cols, skip).Ok? <==> skip <= 0
    ensures skip > 0 && rows > 0 && cols > 0 ==> SkipAsWritten(rows, cols, skip) == Err(TypeError)
  {
    if rows > 0 && cols > 0 {
      assert rows * cols > 0;
    }
  }

  /** Position k of a page in row-major order (k counted from 0). */
  function PositionAt(k: nat, cols: nat): Position
    requires cols > 0
  {
    Position(k / cols + 1, k % cols + 1)
  }

  /** The first n positions of a page in row-major order. */
  function FirstPositions(n: nat, cols: nat): (r: seq<Position>)
    requires cols > 0
    ensures |r| == n
  {
    seq(n, k requires 0 <= k < n => PositionAt(k, cols))
  }

  /**
   * One row of the as-written inner loop, with its two arguments to
   * `append` made one pair: append (i+1, j+1), count down, and leave the row
   * once the count reaches 0. Returns the appended positions and the count.
   */
  function RowRun(i: nat, j: nat, cols: nat, left: int): (seq<Position>, int)
    decreases cols - j
  {
    if j >= cols then ([], left)
    else if left - 1 <= 0 then ([Position(i + 1, j + 1)], left - 1)
    else
      var rest := RowRun(i, j + 1, cols, left - 1);
      ([Position(i + 1, j + 1)] + rest.0, rest.1)
  }

  /** The as-written outer loop: `break` leaves only the inner loop, so every row is entered. */
  function RowsRun(i: nat, rows: nat, cols: nat, left: int): seq<Position>
    decreases rows - i
  {
    if i >= rows then []
    else
      var row := RowRun(i, 0, cols, left);
      row.0 + RowsRun(i + 1, rows, cols, row.1)
  }

  /** The skip code as written, with only the `append` call repaired. */
  function InnerBreakPartial(rows: nat, cols: nat, skip: int): Result<PartialPage> {
    if skip <= 0 then Ok(None)
    else if rows * cols == 0 then Err(ZeroDivisionError)
    else Ok(Some(RowsRun(0, rows, cols, skip % (rows * cols))))
  }

  /**
   * Skipping 2 positions of a 2-row, 3-column sheet marks a third position,
   * the first of row 2, because `break` leaves only the inner loop; the
   * intended page marks two.
   */
  lemma InnerBreakOverMarks()
    ensures InnerBreakPartial(2, 3, 2) == Ok(Some([Position(1, 1), Position(1, 2), Position(2, 1)]))
    ensures SkipPlan(2, 3, 2) == Ok(Some([Position(1, 1), Position(1, 2)]))
  {
    assert RowRun(0, 1, 3, 1) == ([Position(1, 2)], 0);
    var t := RowRun(0, 1, 3, 1);
    var u := RowRun(0, 0, 3, 2);
    assert u.0 == [Position(1, 1)] + t.0;
    assert u.1 == t.1;
    assert u.0 == [Position(1, 1), Position(1, 2)];
    assert u == ([Position(1, 1), Position(1, 2)], 0);
    assert RowRun(1, 0, 3, 0) == ([Position(2, 1)], -1);
    assert RowsRun(1, 2, 3, 0) == [Position(2, 1)];
    assert RowsRun(0, 2, 3, 2) == [Position(1, 1), Position(1, 2)] + [Position(2, 1)];
    assert RowsRun(0, 2, 3, 2) == [Position(1, 1), Position(1, 2), Position(2, 1)];
    assert 2 % (2 * 3) == 2;
    assert FirstPositions(2, 3) == [PositionAt(0, 3), PositionAt(1, 3)];
  }

  /**
   * A skip that is a whole page leaves nothing to skip, yet the as-written
   * loop still marks the first position of every row.
   */
  lemma InnerBreakOnFullPage()
    ensures InnerBreakPartial(2, 3, 6) == Ok(Some([Position(1, 1), Position(2, 1)]))
    ensures SkipPlan(2, 3, 6) == Ok(Some([]))
  {
    assert RowRun(0, 0, 3, 0) == ([Position(1, 1)], -1);
    assert RowRun(1, 0, 3, -1) == ([Position(2, 1)], -2);
    assert RowsRun(1, 2, 3, -1) == [Position(2, 1)];
    assert RowsRun(0, 2, 3, 0) == [Position(1, 1)] + [Position(2, 1)];
    assert RowsRun(0, 2, 3, 0) == [Position(1, 1), Position(2, 1)];
    assert 6 % (2 * 3) == 0;
  }

  /** x·d moves by at least d per unit of x. */
  lemma MulAtLeast(x: int, d: int)
    requires d >= 0
    ensures x >= 1 ==> x * d >= d
    ensures x <= -1 ==> x * d <= -d
  {
  }

  lemma MulMonotone(x: int, y: int, d: int)
    requires d >= 0
    ensures x <= y ==> x * d <= y * d
  {
  }

  /** Quotient and remainder are determined by k = q·d + m with 0 <= m < d. */
  lemma DivModUnique(k: int, d: nat, q: int, m: int)
    requires d > 0 && 0 <= m < d && k == q * d + m
    ensures k / d == q && k % d == m
  {
    var q', m' := k / d, k % d;
    assert k == q' * d + m';
    MulAtLeast(q - q', d);
    assert (q - q') * d == q * d - q' * d;
  }

  lemma RowMajorSplit(i: nat, j: nat, cols: nat)
    requires cols > 0 && j < cols
    ensures PositionAt(i * cols + j, cols) == Position(i + 1, j + 1)
  {
    DivModUnique(i * cols + j, cols, i, j);
  }

  /**
   * The partial page the skip code is meant to compute: nothing without a
   * positive skip, and otherwise the first `skip mod (rows·cols)` positions
   * of page 1 in row-major order, 1-based.
   */
  function SkipPlan(rows: nat, cols: nat, skip: int): Result<PartialPage> {
    if skip <= 0 then Ok(None)
    else if rows * cols == 0 then Err(ZeroDivisionError)
    else Ok(Some(FirstPositions(skip % (rows * cols), cols)))
  }

  /** The skip code with one pair appended per step and `break` leaving both loops. */
  method SkipPositions(rows: nat, cols: nat, skip: int) returns (r: Result<PartialPage>)
    ensures r == SkipPlan(rows, cols, skip)
  {
    if skip <= 0 {
      return Ok(None);
    }
    if rows * cols == 0 {
      return Err(ZeroDivisionError);
    }
    var s := skip % (rows * cols);
    var left := s;
    var partial: seq<Position> := [];
    if left > 0 {
      var i := 0;
      label rowsLoop: while i < rows
        invariant 0 <= i <= rows
        invariant left == s - i * cols > 0
        invariant partial == FirstPositions(i * cols, cols)
      {
        var j := 0;
        while j < cols
          invariant 0 <= j <= cols
          invariant left == s - (i * cols + j) > 0
          invariant partial == FirstPositions(i * cols + j, cols)
        {
          RowMajorSplit(i, j, cols);
          assert FirstPositions(i * cols + j + 1, cols) == FirstPositions(i * cols + j, cols) + [Position(i + 1, j + 1)];
          partial := partial + [Position(i + 1, j + 1)];
          left := left - 1;
          if left <= 0 {
            break rowsLoop;
          }
          j := j + 1;
        }
        assert (i + 1) * cols == i * cols + cols;
        i := i + 1;
      }
    }
    r := Ok(Some(partial));
  }

  /**
   * The intended partial page marks exactly `skip mod (rows·cols)` positions,
   * all on the page, all different, in row-major order; skipping a whole
   * page more or less changes nothing.
   */
  lemma SkipPlanPositions(rows: nat, cols: nat, skip: int)
    requires skip > 0 && rows > 0 && cols > 0
    ensures var p := SkipPlan(rows, cols, skip);
      && p.Ok? && p.value.Some?
      && |p.value.value| == skip % (rows * cols)
      && (forall k :: 0 <= k < |p.value.value| ==>
            1 <= p.value.value[k].row <= rows && 1 <= p.value.value[k].col <= cols)
      && (forall a, b :: 0 <= a < b < |p.value.value| ==> RowMajorBefore(p.value.value[a], p.value.value[b]))
    ensures skip > rows * cols ==> SkipPlan(rows, cols, skip - rows * cols) == SkipPlan(rows, cols, skip)
  {
    assert rows * cols > 0;
    var n := skip % (rows * cols);
    var p := FirstPositions(n, cols);
    forall k | 0 <= k < n ensures 1 <= p[k].row <= rows && 1 <= p[k].col <= cols {
      MulMonotone(rows, k / cols, cols);
    }
    forall a, b | 0 <= a < b < n ensures RowMajorBefore(p[a], p[b]) {
      PositionsOrdered(a, b, cols);
    }
    if skip > rows * cols {
      var c := rows * cols;
      var q := (skip - c) / c;
      assert (q + 1) * c == q * c + c;
      DivModUnique(skip, c, q + 1, (skip - c) % c);
    }
  }

  /** p comes strictly before q in row-major order. */
  predicate RowMajorBefore(p: Position, q: Position) {
    p.row < q.row || (p.row == q.row && p.col < q.col)
  }

  lemma PositionsOrdered(a: nat, b: nat, cols: nat)
    requires cols > 0 && a < b
    ensures RowMajorBefore(PositionAt(a, cols), PositionAt(b, cols))
  {
    var qa, qb := a / cols, b / cols;
    MulAtLeast(qa - qb, cols);
    assert (qa - qb) * cols == qa * cols - qb * cols;
  }

  /**
   * `draw_label(label, width, height, obj)`: an empty position draws nothing;
   * drawing a label changes only its stored text lines.
   */
  method DrawSlot(env: Env, obj: DefaultLabel?, width: real, height: real) returns (r: Result<seq<DrawCmd>>)
    modifies (if obj == null then {} else {obj})`textLines
    ensures obj == null ==> r == Ok([])
    ensures obj != null ==> r == Render(env, old(obj.Contents()), width, height).result
    ensures obj != null ==> obj.textLines == Render(env, old(obj.Contents()), width, height).lines
    ensures obj != null ==> obj.Contents() == old(obj.Contents()).(textLines := obj.textLines)
  {
    if obj == null {
      return Ok([]);
    }
    r := obj.Draw(env, width, height);
  }
}
