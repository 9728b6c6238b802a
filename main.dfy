/**
 * `fn8` of the tutorial's main program: the sum of the first `count` 3x5
 * slabs of an `int[2][3][5]` passed by reference, and the input `main`
 * gives it.
 *
 * `fn8` accumulates into a `double`. Every element is an `int`, so every
 * partial sum is a sum of at most 30 values below 2^31 in magnitude, far
 * inside the range (2^53) where a `double` holds every integer exactly and
 * adding two of them rounds nothing: the accumulator is modelled as an
 * exact integer, and `PartialSumsExact` proves the bound.
 */
module MultiDimArray {

  import opened CppInt

  /** Every integer of at most this magnitude is exactly a `double`. */
  const DOUBLE_EXACT: int := 0x20_0000_0000_0000

  /** The extents of `int (&a)[2][3][5]`. */
  ghost predicate HasShape(a: array3<int32>) {
    a.Length0 == 2 && a.Length1 == 3 && a.Length2 == 5
  }

  /** `a[i][j][0] + ... + a[i][j][n-1]`. */
  ghost function RowSum(a: array3<int32>, i: nat, j: nat, n: nat): int
    requires i < a.Length0 && j < a.Length1 && n <= a.Length2
    reads a
  {
    if n == 0 then 0 else RowSum(a, i, j, n - 1) + a[i, j, n - 1] as int
  }

  /** The sum of the first `m` rows of slab `i`. */
  ghost function SlabSum(a: array3<int32>, i: nat, m: nat): int
    requires i < a.Length0 && m <= a.Length1
    reads a
  {
    if m == 0 then 0 else SlabSum(a, i, m - 1) + RowSum(a, i, m - 1, a.Length2)
  }

  /** The sum of every element of the first `c` slabs. */
  ghost function SlabsSum(a: array3<int32>, c: nat): int
    requires c <= a.Length0
    reads a
  {
    if c == 0 then 0 else SlabsSum(a, c - 1) + SlabSum(a, c - 1, a.Length1)
  }

  /**
   * `fn8(a, count)`. The loops index `a[i]` for every `i < count`, so a
   * `count` beyond the first extent 2 reads past the array.
   */
  method Fn8(a: array3<int32>, count: nat) returns (sum: int)
    requires HasShape(a) && count <= 2
    ensures sum == SlabsSum(a, count)
    ensures count == 0 ==> sum == 0
  {
    sum := 0;
    for i := 0 to count
      invariant sum == SlabsSum(a, i)
    {
      for j := 0 to 3
        invariant sum == SlabsSum(a, i) + SlabSum(a, i, j)
      {
        for k := 0 to 5
          invariant sum == SlabsSum(a, i) + SlabSum(a, i, j) + RowSum(a, i, j, k)
        {
          sum := sum + a[i, j, k] as int;
        }
      }
    }
  }

  /** The first `n` elements of a row are at most `n` times 2^31 in magnitude. */
  lemma {:induction false} RowSumBound(a: array3<int32>, i: nat, j: nat, n: nat)
    requires i < a.Length0 && j < a.Length1 && n <= a.Length2
    ensures -(n as int) * 0x8000_0000 <= RowSum(a, i, j, n) <= n * 0x8000_0000
  {
    if n > 0 {
      RowSumBound(a, i, j, n - 1);
    }
  }

  /** The first `m` rows of a slab of width 5 are at most `5m` times 2^31 in magnitude. */
  lemma {:induction false} SlabSumBound(a: array3<int32>, i: nat, m: nat)
    requires HasShape(a) && i < 2 && m <= 3
    ensures -(m as int) * 5 * 0x8000_0000 <= SlabSum(a, i, m) <= m * 5 * 0x8000_0000
  {
    if m > 0 {
      SlabSumBound(a, i, m - 1);
      RowSumBound(a, i, m - 1, 5);
    }
  }

  /** The first `c` slabs are at most `15c` times 2^31 in magnitude. */
  lemma {:induction false} SlabsSumBound(a: array3<int32>, c: nat)
    requires HasShape(a) && c <= 2
    ensures -(c as int) * 15 * 0x8000_0000 <= SlabsSum(a, c) <= c * 15 * 0x8000_0000
  {
    if c > 0 {
      SlabsSumBound(a, c - 1);
      SlabSumBound(a, c - 1, 3);
    }
  }

  /**
   * Every value the accumulator of `fn8` takes (the loop invariant of the
   * innermost loop, at any `i`, `j`, `k`) is an integer a `double` represents
   * exactly, so `sum += a[i][j][k]` never rounds.
   */
  lemma PartialSumsExact(a: array3<int32>, i: nat, j: nat, k: nat)
    requires HasShape(a) && i < 2 && j < 3 && k <= 5
    ensures -DOUBLE_EXACT <= SlabsSum(a, i) + SlabSum(a, i, j) + RowSum(a, i, j, k) <= DOUBLE_EXACT
  {
    SlabsSumBound(a, i);
    SlabSumBound(a, i, j);
    RowSumBound(a, i, j, k);
  }

  /** The initialiser of `arr` in `main`: both slabs hold 1..15 row by row. */
  ghost predicate IsMainInput(a: array3<int32>)
    reads a
  {
    HasShape(a) &&
    forall i, j, k :: 0 <= i < 2 && 0 <= j < 3 && 0 <= k < 5 ==> a[i, j, k] as int == 5 * j + k + 1
  }

  /** Row `j` of either slab of `main`'s array sums to `25j + 15`. */
  lemma {:induction false} MainRowSum(a: array3<int32>, i: nat, j: nat, n: nat)
    requires IsMainInput(a) && i < 2 && j < 3 && n <= 5
    ensures RowSum(a, i, j, n) == n * 5 * j + n * (n + 1) / 2
  {
    if n > 0 {
      MainRowSum(a, i, j, n - 1);
    }
  }

  /** `fn8(arr, 2)` on `main`'s array: twice 1 + ... + 15, that is 240. */
  lemma MainInputSum(a: array3<int32>)
    requires IsMainInput(a)
    ensures SlabsSum(a, 2) == 240
  {
    forall i | 0 <= i < 2
      ensures SlabSum(a, i, 3) == 120
    {
      MainRowSum(a, i, 0, 5);
      MainRowSum(a, i, 1, 5);
      MainRowSum(a, i, 2, 5);
      assert SlabSum(a, i, 1) == 15;
      assert SlabSum(a, i, 2) == 55;
    }
    assert SlabsSum(a, 1) == 120;
  }

  /** `main`: builds `arr` and computes `fn8(arr, 2)`. */
  method MainSum() returns (s: int)
    ensures s == 240
  {
    var arr := new int32[2, 3, 5];
    forall i, j, k | 0 <= i < 2 && 0 <= j < 3 && 0 <= k < 5 {
      arr[i, j, k] := (5 * j + k + 1) as int32;
    }
    s := Fn8(arr, 2);
    MainInputSum(arr);
  }
}
