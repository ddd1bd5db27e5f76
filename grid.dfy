/** Index arithmetic of the row-major particle grid built by `Scene.setupBalls`
    (src/scene.ts): which slot each link of particle `i` points to, for a grid of `cols`
    columns whose first `n` slots are filled. */
module Grid {
  import opened Wrappers

  function Row(i: nat, cols: nat): nat requires cols > 0 { i / cols }
  function Col(i: nat, cols: nat): nat requires cols > 0 { i % cols }

  function North(i: nat, cols: nat): Option<nat> requires cols > 0 {
    if i >= cols then Some(i - cols) else None
  }

  function South(i: nat, cols: nat, n: nat): Option<nat> requires cols > 0 {
    if i + cols < n then Some(i + cols) else None
  }

  function West(i: nat, cols: nat): Option<nat> requires cols > 0 {
    if i % cols != 0 then Some(i - 1) else None
  }

  function East(i: nat, cols: nat, n: nat): Option<nat> requires cols > 0 {
    if (i + 1) % cols != 0 && i + 1 < n then Some(i + 1) else None
  }

  /** Quotient and remainder are the only pair that rebuilds `i`. */
  lemma DivModUnique(i: int, c: int, q: int, r: int)
    requires c > 0 && 0 <= r < c && i == q * c + r
    ensures i / c == q && i % c == r
  {
    var q0, r0 := i / c, i % c;
    assert (q - q0) * c == r0 - r;
    if q > q0 {
      MulMonotone(1, q - q0, c);
    } else if q < q0 {
      MulMonotone(1, q0 - q, c);
    }
  }

  lemma MulMonotone(a: int, b: int, c: int)
    requires a <= b && c >= 0
    ensures a * c <= b * c
  {
    assert (b - a) * c >= 0;
  }

  /** A slot of a full grid lies in one of its `rows` rows. */
  lemma RowInRange(i: nat, rows: nat, cols: nat)
    requires cols > 0 && i < rows * cols
    ensures Row(i, cols) < rows
  {
    DivModUnique(i, cols, i / cols, i % cols);
    if i / cols >= rows {
      MulMonotone(rows, i / cols, cols);
    }
  }

  /** The north link goes to the slot one row up in the same column, and back. */
  lemma {:induction false} NorthIsRowAbove(i: nat, j: nat, cols: nat)
    requires cols > 0
    ensures North(i, cols) == Some(j) <==> Row(j, cols) + 1 == Row(i, cols) && Col(j, cols) == Col(i, cols)
  {
    DivModUnique(i, cols, i / cols, i % cols);
    DivModUnique(j, cols, j / cols, j % cols);
    if North(i, cols) == Some(j) {
      DivModUnique(j, cols, i / cols - 1, i % cols);
    }
    if Row(j, cols) + 1 == Row(i, cols) && Col(j, cols) == Col(i, cols) {
      assert i == (j / cols + 1) * cols + j % cols;
    }
  }

  /** The west link goes to the slot one column left in the same row, and back. */
  lemma {:induction false} WestIsColumnLeft(i: nat, j: nat, cols: nat)
    requires cols > 0
    ensures West(i, cols) == Some(j) <==> Row(j, cols) == Row(i, cols) && Col(j, cols) + 1 == Col(i, cols)
  {
    DivModUnique(i, cols, i / cols, i % cols);
    if West(i, cols) == Some(j) {
      DivModUnique(j, cols, i / cols, i % cols - 1);
    }
    if Row(j, cols) == Row(i, cols) && Col(j, cols) + 1 == Col(i, cols) {
      DivModUnique(j, cols, j / cols, j % cols);
    }
  }

  /** North and south links of a filled grid mirror each other. */
  lemma NorthSouthSymmetric(i: nat, j: nat, cols: nat, n: nat)
    requires cols > 0 && i < n && j < n
    ensures North(i, cols) == Some(j) <==> South(j, cols, n) == Some(i)
  {
  }

  /** West and east links of a filled grid mirror each other. */
  lemma {:induction false} WestEastSymmetric(i: nat, j: nat, cols: nat, n: nat)
    requires cols > 0 && i < n && j < n
    ensures West(i, cols) == Some(j) <==> East(j, cols, n) == Some(i)
  {
  }

  /** The north link is missing exactly in the first row. */
  lemma NorthBorder(i: nat, cols: nat)
    requires cols > 0
    ensures North(i, cols).None? <==> Row(i, cols) == 0
  {
    DivModUnique(i, cols, i / cols, i % cols);
    if i < cols {
      DivModUnique(i, cols, 0, i);
    }
  }

  /** The west link is missing exactly in the first column. */
  lemma WestBorder(i: nat, cols: nat)
    requires cols > 0
    ensures West(i, cols).None? <==> Col(i, cols) == 0
  {
  }

  /** In a full grid of `rows` rows the south link is missing exactly in the last row. */
  lemma SouthBorder(i: nat, rows: nat, cols: nat)
    requires cols > 0 && i < rows * cols
    ensures South(i, cols, rows * cols).None? <==> Row(i, cols) == rows - 1
  {
    var q, r := i / cols, i % cols;
    DivModUnique(i, cols, q, r);
    RowInRange(i, rows, cols);
    assert i + cols == (q + 1) * cols + r;
    if q + 1 < rows {
      MulMonotone(q + 2, rows, cols);
      assert (q + 1) * cols + r < (q + 2) * cols;
    } else {
      assert q + 1 == rows;
    }
  }

  /** In a full grid the east link is missing exactly in the last column. */
  lemma EastBorder(i: nat, rows: nat, cols: nat)
    requires cols > 0 && i < rows * cols
    ensures East(i, cols, rows * cols).None? <==> Col(i, cols) == cols - 1
  {
    var q, r := i / cols, i % cols;
    DivModUnique(i, cols, q, r);
    RowInRange(i, rows, cols);
    if r == cols - 1 {
      DivModUnique(i + 1, cols, q + 1, 0);
    } else {
      DivModUnique(i + 1, cols, q, r + 1);
      MulMonotone(q + 1, rows, cols);
      assert i + 1 < (q + 1) * cols;
    }
  }
}
