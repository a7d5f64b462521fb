/**
 * Facts about the row-major index `i * m + j` shared by the mesh layouts.
 */
module IndexMath {

  /** Multiplying by a non-negative factor keeps the order. */
  lemma {:induction false} MulMonotone(a: int, b: int, m: int)
    requires a <= b && m >= 0
    ensures a * m <= b * m
  {
    var d := b - a;
    assert b * m == a * m + d * m;
    assert d * m >= 0;
  }

  /** Euclidean division recovers the row and column of a row-major index. */
  lemma {:induction false} DivModUnique(k: int, i: int, j: int, m: int)
    requires m > 0 && 0 <= j < m && k == i * m + j
    ensures k / m == i && k % m == j
  {
    var d, r := k / m, k % m;
    assert k == d * m + r && 0 <= r < m;
    assert (d - i) * m == j - r;
    if d - i >= 1 {
      MulMonotone(1, d - i, m);
    } else if d - i <= -1 {
      MulMonotone(1, i - d, m);
    }
  }

  /** Row `i`, column `j` of an `n`-row, `m`-column grid lies inside it, and division recovers `i` and `j`. */
  lemma {:induction false} GridIndex(i: int, j: int, n: int, m: int)
    requires 0 <= i < n && 0 <= j < m
    ensures 0 <= i * m + j < n * m
    ensures (i * m + j) / m == i && (i * m + j) % m == j
  {
    MulMonotone(0, i, m);
    MulMonotone(i + 1, n, m);
    assert (i + 1) * m == i * m + m;
    DivModUnique(i * m + j, i, j, m);
  }

  /** Every index of the grid comes from exactly one row and column. */
  lemma {:induction false} GridCell(k: int, n: int, m: int)
    requires 0 <= k < n * m && m >= 0
    ensures m > 0 && 0 <= k / m < n && 0 <= k % m < m && (k / m) * m + k % m == k
  {
    if m > 0 {
      if k / m >= n {
        MulMonotone(n, k / m, m);
      }
      if k / m < 0 {
        MulMonotone(k / m, -1, m);
      }
    }
  }

  /** Moving to the next column: the wrap of column `j + 1` within row `i`. */
  lemma {:induction false} NextColumn(i: int, j: int, m: int)
    requires 0 <= j < m
    ensures (i * m + j + 1) % m == (j + 1) % m
  {
    if j + 1 < m {
      DivModUnique(i * m + j + 1, i, j + 1, m);
      DivModUnique(j + 1, 0, j + 1, m);
    } else {
      assert i * m + j + 1 == (i + 1) * m + 0;
      DivModUnique(i * m + j + 1, i + 1, 0, m);
      DivModUnique(m, 1, 0, m);
    }
  }
}
