/** How tpool_request divides the cells of a result among its works, and that each work computes its cells right. */
module PoolSplit {
  import opened ThreadPool

  /** The first cell of work i: the sum of the shares before it. */
  function SplitStart(total: nat, numWorks: int, i: nat): int
    requires numWorks > 0
  {
    if i == 0 then 0 else SplitStart(total, numWorks, i - 1) + Share(total, numWorks, i - 1)
  }

  lemma {:induction false} SplitStartIs(total: nat, numWorks: int, i: nat)
    requires numWorks > 0
    ensures SplitStart(total, numWorks, i) ==
      i * (total / numWorks) + if i < total % numWorks then i else total % numWorks
  {
    if i == 0 {
    } else {
      SplitStartIs(total, numWorks, i - 1);
      assert (i - 1) * (total / numWorks) + total / numWorks == i * (total / numWorks);
    }
  }

  /** The shares add up: the works of a request cover the cells exactly up to the last one. */
  lemma SplitEnds(total: nat, numWorks: int)
    requires numWorks > 0
    ensures SplitStart(total, numWorks, numWorks) == total
  {
    SplitStartIs(total, numWorks, numWorks);
    assert total == numWorks * (total / numWorks) + total % numWorks;
  }

  lemma {:induction false} SplitMonotone(total: nat, numWorks: int, i: nat, j: nat)
    requires numWorks > 0 && i <= j
    ensures SplitStart(total, numWorks, i) <= SplitStart(total, numWorks, j)
    decreases j
  {
    if i >= j {
    } else {
      SplitMonotone(total, numWorks, i, j - 1);
    }
  }

  /** The index of the work that a cell belongs to. */
  ghost predicate Owns(total: nat, numWorks: int, i: nat, cell: int)
    requires numWorks > 0
  {
    i < numWorks && SplitStart(total, numWorks, i) <= cell < SplitStart(total, numWorks, i + 1)
  }

  lemma {:induction false} OwnerBelow(total: nat, numWorks: int, k: nat, cell: int) returns (i: nat)
    requires numWorks > 0 && k <= numWorks && 0 <= cell < SplitStart(total, numWorks, k)
    ensures Owns(total, numWorks, i, cell)
  {
    if cell < SplitStart(total, numWorks, k - 1) {
      i := OwnerBelow(total, numWorks, k - 1, cell);
    } else {
      i := k - 1;
    }
  }

  /** The split is exact: every cell belongs to one work and only one, nothing else belongs to any, and the works
      differ by at most one cell. */
  lemma ExactSplit(total: nat, numWorks: int, cell: int)
    requires numWorks > 0
    ensures 0 <= cell < total <==> exists i: nat :: Owns(total, numWorks, i, cell)
    ensures forall i: nat, j: nat ::
      Owns(total, numWorks, i, cell) && Owns(total, numWorks, j, cell) ==> i == j
    ensures forall i: nat, j: nat :: -1 <= Share(total, numWorks, i) - Share(total, numWorks, j) <= 1
  {
    SplitEnds(total, numWorks);
    if 0 <= cell < total {
      var i := OwnerBelow(total, numWorks, numWorks, cell);
    }
    forall i: nat | Owns(total, numWorks, i, cell) ensures 0 <= cell < total {
      SplitMonotone(total, numWorks, 0, i);
      SplitMonotone(total, numWorks, i + 1, numWorks);
    }
    forall i: nat, j: nat | Owns(total, numWorks, i, cell) && Owns(total, numWorks, j, cell) ensures i == j {
      if i < j { SplitMonotone(total, numWorks, i + 1, j); }
      if j < i { SplitMonotone(total, numWorks, j + 1, i); }
    }
  }

  /** Cell i is entry (i / n, i % n), and every entry is one cell: two works never write the same entry. */
  lemma CellsAreEntries(n: nat, i: int, row: nat, col: nat)
    requires n > 0 && 0 <= i < n * n && row < n && col < n
    ensures i / n < n && i % n < n
    ensures 0 <= row * n + col < n * n
    ensures i / n == row && i % n == col <==> i == row * n + col
  {
    CellInRange(i, n);
    ProductGrows(n - 1, row, n);
    assert (n - 1) * n + n == n * n;
    EntryOf(n, row, col);
    assert i == (i / n) * n + i % n;
  }

  lemma EntryOf(n: nat, row: nat, col: nat)
    requires col < n
    ensures (row * n + col) / n == row && (row * n + col) % n == col
  {
    var x := row * n + col;
    var (q, r) := (x / n, x % n);
    assert x == q * n + r;
    assert (q - row) * n == col - r;
    ProductGrows(q - row, 1, n);
    ProductGrows(row - q, 1, n);
  }

  // ---- the products ----

  /** calculation on a row of a and a row of the transposed b is the entry of the product of a and b. */
  lemma {:induction false} CalculationIsProduct(a: Matrix, b: Matrix, n: nat, row: nat, col: nat, k: nat)
    requires IsSquare(a, n) && IsSquare(b, n) && row < n && col < n && k <= n
    ensures Calculation(k, a[row], Transpose(b, n)[col]) == Product(a, b, row, col, k)
  {
    if k == 0 {
    } else {
      CalculationIsProduct(a, b, n, row, col, k - 1);
    }
  }

  predicate SmallEntries(x: seq<int>) {
    forall i :: 0 <= i < |x| ==> -100 <= x[i] <= 100
  }

  /** With the entries that main.c admits, no partial sum of calculation leaves the range of an int,
      as long as n * n itself is an int. */
  lemma {:induction false} CalculationFits(n: nat, x: seq<int>, y: seq<int>)
    requires n <= |x| && n <= |y| && SmallEntries(x) && SmallEntries(y)
    ensures -10000 * n <= Calculation(n, x, y) <= 10000 * n
    ensures n <= 46340 ==> n * n <= 0x7fff_ffff && -0x8000_0000 <= Calculation(n, x, y) <= 0x7fff_ffff
  {
    if n == 0 {
    } else {
      CalculationFits(n - 1, x, y);
      SmallProduct(x[n - 1], y[n - 1]);
    }
    if n <= 46340 { ProductGrows(46340, n, n); ProductGrows(46340, n, 46340); }
  }

  lemma SmallProduct(p: int, q: int)
    requires -100 <= p <= 100 && -100 <= q <= 100
    ensures -10000 <= p * q <= 10000
  {
    if q >= 0 {
      ProductGrows(100, p, q);
      ProductGrows(p, -100, q);
    } else {
      ProductGrows(100, p, -q);
      ProductGrows(p, -100, -q);
      assert p * -q == -(p * q);
    }
  }
}
