/** The lattice placement used when a particle is (re)initialised: an index is
    split into a column, a row and a layer, and each becomes one coordinate. */
module Grid {

  datatype Cell = Cell(col: nat, row: nat, layer: nat)

  predicate InRange(n: nat, c: Cell) {
    c.col < n && c.row < n && c.layer < n
  }

  /** The flat index a cell is decomposed from: column fastest, layer slowest. */
  function Compose(n: nat, c: Cell): nat {
    c.col + n * c.row + n * n * c.layer
  }

  lemma MulAtLeast(d: int, k: int)
    requires d > 0 && k >= 1
    ensures d * k >= d
  {
    assert d * k == d * (k - 1) + d;
  }

  lemma MulBelow(n: int, a: int, b: int)
    requires n > 0 && 0 <= a < n && 0 <= b < n
    ensures 0 <= n * a + b < n * n
  {
    assert n * a <= n * (n - 1) by {
      if a < n - 1 {
        MulAtLeast(n, n - 1 - a);
        assert n * (n - 1) - n * a == n * (n - 1 - a);
      }
    }
    assert n * (n - 1) + b < n * n;
  }

  /** Quotient and remainder are determined by any decomposition with a
      remainder below the divisor. */
  lemma DivModUnique(i: int, d: int, q: int, m: int)
    requires d > 0 && 0 <= m < d && i == d * q + m
    ensures i / d == q && i % d == m
  {
    var q' := i / d;
    var m' := i % d;
    assert i == d * q' + m';
    if q > q' {
      MulAtLeast(d, q - q');
      assert false;
    } else if q < q' {
      MulAtLeast(d, q' - q);
      assert false;
    }
  }

  /** The three digits of `i` in base n, the last one unbounded. */
  lemma Digits(n: nat, i: nat)
    requires n > 0
    ensures i / (n * n) == (i / n) / n
    ensures i == (i % n) + n * ((i / n) % n) + n * n * (i / (n * n))
  {
    var col := i % n;
    var q := i / n;
    var row := q % n;
    var p := q / n;
    assert i == n * q + col;
    assert q == n * p + row;
    assert n * q == n * n * p + n * row by {
      assert n * (n * p + row) == n * (n * p) + n * row;
    }
    MulBelow(n, row, col);
    DivModUnique(i, n * n, p, n * row + col);
  }

  /** Layers below n are exactly the indices below n³. */
  lemma LayerBound(n: nat, i: nat, layer: nat, rest: nat)
    requires n > 0 && rest < n * n && i == n * n * layer + rest
    ensures layer < n <==> i < n * n * n
  {
    if layer < n {
      MulBelow(n * n, 0, 0);
      assert n * n * n - n * n * layer == n * n * (n - layer);
      MulAtLeast(n * n, n - layer);
    } else {
      assert n * n * layer - n * n * n == n * n * (layer - n);
      if layer > n {
        MulAtLeast(n * n, layer - n);
      }
    }
  }

  /** Splits index `i` into column `i % n`, row `(i / n) % n` and layer
      `i / (n * n)`; the cell always composes back to `i`, and it lies in the
      lattice exactly when `i` is below the pool size n³. */
  function Decompose(n: nat, i: nat): (c: Cell)
    requires n > 0
    ensures c.col < n && c.row < n
    ensures Compose(n, c) == i
    ensures InRange(n, c) <==> i < n * n * n
  {
    Digits(n, i);
    MulBelow(n, (i / n) % n, i % n);
    LayerBound(n, i, i / (n * n), i % n + n * ((i / n) % n));
    Cell(i % n, (i / n) % n, i / (n * n))
  }

  /** Decomposition inverts composition on the lattice. */
  lemma DecomposeCompose(n: nat, c: Cell)
    requires n > 0 && InRange(n, c)
    ensures Decompose(n, Compose(n, c)) == c
  {
    var i := Compose(n, c);
    var d := Decompose(n, i);
    MulBelow(n, c.row, c.col);
    MulBelow(n, d.row, d.col);
    DivModUnique(i, n * n, c.layer, c.col + n * c.row);
    DivModUnique(i, n * n, d.layer, d.col + n * d.row);
    DivModUnique(c.col + n * c.row, n, c.row, c.col);
    DivModUnique(d.col + n * d.row, n, d.row, d.col);
  }

  /** Distinct indices land in distinct cells. */
  lemma DecomposeInjective(n: nat, i: nat, j: nat)
    requires n > 0 && i != j
    ensures Decompose(n, i) != Decompose(n, j)
  {
  }

  /** One lattice coordinate `k / n * spread - spread / 2`: measured from the
      low face `-spread / 2` it is k n-ths of the spread, so steps below n
      stay inside [-spread/2, spread/2). */
  function Coord(n: nat, spread: real, k: nat): (x: real)
    requires n > 0
    ensures (x + spread / 2.0) * (n as real) == (k as real) * spread
    ensures k < n && spread > 0.0 ==> -spread / 2.0 <= x < spread / 2.0
  {
    var f := (k as real) / (n as real);
    FractionFacts(n, spread, k, f);
    f * spread - spread / 2.0
  }

  lemma FractionFacts(n: nat, spread: real, k: nat, f: real)
    requires n > 0 && f == (k as real) / (n as real)
    ensures (f * spread) * (n as real) == (k as real) * spread
    ensures k < n && spread > 0.0 ==> 0.0 <= f * spread < spread
  {
    assert f * (n as real) == k as real;
    assert (f * spread) * (n as real) == (f * (n as real)) * spread;
    if k < n && spread > 0.0 {
      assert 0.0 <= f < 1.0;
      assert (1.0 - f) * spread > 0.0;
      assert f * spread >= 0.0;
    }
  }

  /** Every lattice coordinate lies in the half-open interval [-spread/2, spread/2). */
  lemma CoordBounds(n: nat, spread: real, k: nat)
    requires n > 0 && spread > 0.0 && k < n
    ensures -spread / 2.0 <= Coord(n, spread, k) < spread / 2.0
  {
  }

  /** Different lattice steps give different coordinates. */
  lemma CoordInjective(n: nat, spread: real, k1: nat, k2: nat)
    requires n > 0 && spread != 0.0 && k1 != k2
    ensures Coord(n, spread, k1) != Coord(n, spread, k2)
  {
    var f1 := (k1 as real) / (n as real);
    var f2 := (k2 as real) / (n as real);
    assert f1 * (n as real) == k1 as real;
    assert f2 * (n as real) == k2 as real;
    assert f1 - f2 != 0.0;
    assert (f1 - f2) * spread != 0.0;
    assert f1 * spread - f2 * spread == (f1 - f2) * spread;
  }
}
