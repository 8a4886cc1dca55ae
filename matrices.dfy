/**
 * The 3x3 matrix primitives of adobe_coeff.cpp: product, transpose,
 * row normalisation and the running sum of a row.
 *
 * Matrices are `double[3][3]` in the source. Here the arithmetic is done on
 * `real` (exact), so the entry formulas hold without rounding. A matrix
 * held by the program is an `array2<real>`; the specifications speak about
 * its contents as a `Matrix` value, a sequence of rows.
 */
module Matrices {

  type Matrix = seq<seq<real>>

  /** `m` has `rows` rows of `cols` entries each. */
  predicate IsMatrix(m: Matrix, rows: nat, cols: nat) {
    |m| == rows && forall i | 0 <= i < rows :: |m[i]| == cols
  }

  predicate Is3x3(m: Matrix) {
    IsMatrix(m, 3, 3)
  }

  predicate IsArray3x3(a: array2<real>) {
    a.Length0 == 3 && a.Length1 == 3
  }

  /** The contents of an array as a value. */
  ghost function Value(a: array2<real>): (m: Matrix)
    reads a
    ensures IsMatrix(m, a.Length0, a.Length1)
    ensures forall i, j | 0 <= i < a.Length0 && 0 <= j < a.Length1 :: m[i][j] == a[i, j]
  {
    seq(a.Length0, i requires 0 <= i < a.Length0 reads a =>
      seq(a.Length1, j requires 0 <= j < a.Length1 reads a => a[i, j]))
  }

  /** Two matrices of the same shape are equal when all their entries are. */
  lemma EqualEntries(m: Matrix, n: Matrix, rows: nat, cols: nat)
    requires IsMatrix(m, rows, cols) && IsMatrix(n, rows, cols)
    requires forall i, j | 0 <= i < rows && 0 <= j < cols :: m[i][j] == n[i][j]
    ensures m == n
  {
    forall i | 0 <= i < rows
      ensures m[i] == n[i]
    {
      assert forall j | 0 <= j < cols :: m[i][j] == n[i][j];
    }
  }

  /** The constant XYZ_FROM_RGB: linear sRGB (D65) to CIE XYZ. */
  const XyzFromRgb: Matrix := [
    [0.412453, 0.357580, 0.180423],
    [0.212671, 0.715160, 0.072169],
    [0.019334, 0.119193, 0.950227]
  ]

  /**
   * XYZ_FROM_RGB takes sRGB white (1, 1, 1) to the D65 white point with
   * luminance Y = 1: its rows sum to X = 0.950456, Y = 1 and Z = 1.088754.
   */
  lemma XyzFromRgbWhitePoint()
    ensures Is3x3(XyzFromRgb)
    ensures RowSum(XyzFromRgb, 0) == 0.950456
    ensures RowSum(XyzFromRgb, 1) == 1.0
    ensures RowSum(XyzFromRgb, 2) == 1.088754
  {
  }

  function Identity(): (m: Matrix)
    ensures Is3x3(m)
  {
    seq(3, i requires 0 <= i < 3 => seq(3, j requires 0 <= j < 3 => if i == j then 1.0 else 0.0))
  }

  function Zero(): (m: Matrix)
    ensures Is3x3(m)
  {
    seq(3, i requires 0 <= i < 3 => seq(3, j requires 0 <= j < 3 => 0.0))
  }

  /** Sum of the first `n` entries of `s`, accumulated from the left. */
  function SeqSum(s: seq<real>, n: nat): real
    requires n <= |s|
  {
    if n == 0 then 0.0 else SeqSum(s, n - 1) + s[n - 1]
  }

  /** Sum of row `i` of a 3x3 matrix. */
  function RowSum(m: Matrix, i: nat): real
    requires Is3x3(m) && i < 3
  {
    m[i][0] + m[i][1] + m[i][2]
  }

  lemma SeqSumOfThree(s: seq<real>)
    requires |s| == 3
    ensures SeqSum(s, 3) == s[0] + s[1] + s[2]
  {
    assert SeqSum(s, 1) == s[0];
  }

  /** Inner product of row `i` of `a` and column `j` of `b`. */
  function Dot(a: Matrix, b: Matrix, i: nat, j: nat): real
    requires Is3x3(a) && Is3x3(b) && i < 3 && j < 3
  {
    a[i][0] * b[0][j] + a[i][1] * b[1][j] + a[i][2] * b[2][j]
  }

  function Mul(a: Matrix, b: Matrix): (c: Matrix)
    requires Is3x3(a) && Is3x3(b)
    ensures Is3x3(c)
  {
    seq(3, i requires 0 <= i < 3 => seq(3, j requires 0 <= j < 3 => Dot(a, b, i, j)))
  }

  function Transpose(a: Matrix): (b: Matrix)
    requires Is3x3(a)
    ensures Is3x3(b)
  {
    seq(3, i requires 0 <= i < 3 => seq(3, j requires 0 <= j < 3 => a[j][i]))
  }

  predicate NonzeroRowSums(m: Matrix)
    requires Is3x3(m)
  {
    RowSum(m, 0) != 0.0 && RowSum(m, 1) != 0.0 && RowSum(m, 2) != 0.0
  }

  /** Each row divided by its own sum. */
  function Normalize(m: Matrix): (n: Matrix)
    requires Is3x3(m) && NonzeroRowSums(m)
    ensures Is3x3(n)
  {
    seq(3, i requires 0 <= i < 3 => seq(3, j requires 0 <= j < 3 => m[i][j] / RowSum(m, i)))
  }

  // ---------------------------------------------------------------------
  // Facts of real arithmetic the proofs below apply entry by entry

  /** Three parts of a nonzero sum, each divided by the sum, add up to 1. */
  lemma SharesOfSum(a: real, b: real, c: real, s: real)
    requires s == a + b + c && s != 0.0
    ensures a / s + b / s + c / s == 1.0
  {
    assert a / s + b / s + c / s == (a + b + c) / s;
  }

  /** Dividing a linear combination divides its coefficients. */
  lemma ScaleLinear(l: real, y0: real, y1: real, y2: real, n0: real, n1: real, n2: real, q: real)
    requires q != 0.0 && l == y0 * n0 + y1 * n1 + y2 * n2
    ensures l / q == (y0 / q) * n0 + (y1 / q) * n1 + (y2 / q) * n2
  {
    var t := 1.0 / q;
    assert l / q == l * t;
    assert y0 / q == y0 * t && y1 / q == y1 * t && y2 / q == y2 * t;
  }

  /** Subtracting a multiple of one linear combination from another. */
  lemma SubtractLinear(l: real, x0: real, x1: real, x2: real, lp: real, y0: real, y1: real, y2: real,
                       n0: real, n1: real, n2: real, f: real)
    requires l == x0 * n0 + x1 * n1 + x2 * n2 && lp == y0 * n0 + y1 * n1 + y2 * n2
    ensures l - lp * f == (x0 - y0 * f) * n0 + (x1 - y1 * f) * n1 + (x2 - y2 * f) * n2
  {
  }

  // ---------------------------------------------------------------------
  // Properties of the specification functions

  lemma MulIdentityLeft(a: Matrix)
    requires Is3x3(a)
    ensures Mul(Identity(), a) == a
  {
    EqualEntries(Mul(Identity(), a), a, 3, 3);
  }

  lemma MulIdentityRight(a: Matrix)
    requires Is3x3(a)
    ensures Mul(a, Identity()) == a
  {
    EqualEntries(Mul(a, Identity()), a, 3, 3);
  }

  lemma MulAssociative(a: Matrix, b: Matrix, c: Matrix)
    requires Is3x3(a) && Is3x3(b) && Is3x3(c)
    ensures Mul(Mul(a, b), c) == Mul(a, Mul(b, c))
  {
    var l, r := Mul(Mul(a, b), c), Mul(a, Mul(b, c));
    forall i, j | 0 <= i < 3 && 0 <= j < 3
      ensures l[i][j] == r[i][j]
    {
      var ab, bc := Mul(a, b), Mul(b, c);
      assert l[i][j] == ab[i][0] * c[0][j] + ab[i][1] * c[1][j] + ab[i][2] * c[2][j];
      assert r[i][j] == a[i][0] * bc[0][j] + a[i][1] * bc[1][j] + a[i][2] * bc[2][j];
    }
    EqualEntries(l, r, 3, 3);
  }

  lemma TransposeInvolution(a: Matrix)
    requires Is3x3(a)
    ensures Transpose(Transpose(a)) == a
  {
    EqualEntries(Transpose(Transpose(a)), a, 3, 3);
  }

  lemma TransposeOfProduct(a: Matrix, b: Matrix)
    requires Is3x3(a) && Is3x3(b)
    ensures Transpose(Mul(a, b)) == Mul(Transpose(b), Transpose(a))
  {
    EqualEntries(Transpose(Mul(a, b)), Mul(Transpose(b), Transpose(a)), 3, 3);
  }

  /** Every row of a normalised matrix sums to exactly 1. */
  lemma NormalizeRowsSumToOne(m: Matrix, i: nat)
    requires Is3x3(m) && NonzeroRowSums(m) && i < 3
    ensures RowSum(Normalize(m), i) == 1.0
  {
    var s, n := RowSum(m, i), Normalize(m);
    assert RowSum(n, i) == m[i][0] / s + m[i][1] / s + m[i][2] / s;
    SharesOfSum(m[i][0], m[i][1], m[i][2], s);
  }

  /** Scaling a normalised row back by the original row sum restores it. */
  lemma NormalizeScalesRows(m: Matrix, i: nat, j: nat)
    requires Is3x3(m) && NonzeroRowSums(m) && i < 3 && j < 3
    ensures Normalize(m)[i][j] * RowSum(m, i) == m[i][j]
  {
  }

  /** Normalising twice is the same as normalising once. */
  lemma NormalizeIdempotent(m: Matrix)
    requires Is3x3(m) && NonzeroRowSums(m)
    ensures NonzeroRowSums(Normalize(m)) && Normalize(Normalize(m)) == Normalize(m)
  {
    NormalizeRowsSumToOne(m, 0);
    NormalizeRowsSumToOne(m, 1);
    NormalizeRowsSumToOne(m, 2);
    EqualEntries(Normalize(Normalize(m)), Normalize(m), 3, 3);
  }

  // ---------------------------------------------------------------------
  // The primitives as the source runs them, on arrays

  /** A fresh array holding `m` (the source keeps its constants in arrays). */
  method NewMatrix(m: Matrix) returns (a: array2<real>)
    requires Is3x3(m)
    ensures fresh(a) && IsArray3x3(a) && Value(a) == m
  {
    a := new real[3, 3]((i, j) requires 0 <= i < 3 && 0 <= j < 3 => m[i][j]);
    EqualEntries(Value(a), m, 3, 3);
  }

  /** Lines 44-47 of matrix_multiply for one (i, j): v accumulates row i of a times column j of b. */
  method DotEntry(a: array2<real>, b: array2<real>, i: nat, j: nat) returns (v: real)
    requires IsArray3x3(a) && IsArray3x3(b) && i < 3 && j < 3
    ensures v == Dot(Value(a), Value(b), i, j)
  {
    ghost var terms := [a[i, 0] * b[0, j], a[i, 1] * b[1, j], a[i, 2] * b[2, j]];
    v := 0.0;
    for k := 0 to 3
      invariant v == SeqSum(terms, k)
    {
      v := v + a[i, k] * b[k, j];
    }
    SeqSumOfThree(terms);
  }

  /** matrix_multiply: c := a * b. */
  method MatrixMultiply(a: array2<real>, b: array2<real>, c: array2<real>)
    requires IsArray3x3(a) && IsArray3x3(b) && IsArray3x3(c)
    requires c != a && c != b
    modifies c
    ensures Value(c) == Mul(Value(a), Value(b))
  {
    ghost var va, vb := Value(a), Value(b);
    for i := 0 to 3
      invariant forall r, s | 0 <= r < i && 0 <= s < 3 :: c[r, s] == Dot(va, vb, r, s)
    {
      for j := 0 to 3
        invariant forall r, s | 0 <= r < 3 && 0 <= s < 3 && (r < i || (r == i && s < j)) ::
          c[r, s] == Dot(va, vb, r, s)
      {
        var v := DotEntry(a, b, i, j);
        c[i, j] := v;
      }
    }
    EqualEntries(Value(c), Mul(va, vb), 3, 3);
  }

  /** sum: the first `elementCount` entries of row `row` of `m`, added up. */
  method Sum(m: array2<real>, row: int, elementCount: int) returns (s: real)
    requires 0 <= row < m.Length0 && 0 <= elementCount <= m.Length1
    ensures s == SeqSum(Value(m)[row], elementCount)
  {
    s := 0.0;
    for i := 0 to elementCount
      invariant s == SeqSum(Value(m)[row], i)
    {
      s := s + m[row, i];
    }
  }

  /**
   * Lines 57-61 of matrix_normalize for row i: the row's sum is taken
   * first, then each entry of row i of b becomes that of a divided by it.
   * `b` may be `a`: entry j is read before it is written, and the entries
   * after it are not yet written.
   */
  method NormalizeRow(a: array2<real>, b: array2<real>, i: nat)
    requires IsArray3x3(a) && IsArray3x3(b) && i < 3
    requires a[i, 0] + a[i, 1] + a[i, 2] != 0.0
    modifies b
    ensures forall r, s | 0 <= r < 3 && 0 <= s < 3 ::
      b[r, s] == if r == i then old(a[i, s]) / (old(a[i, 0]) + old(a[i, 1]) + old(a[i, 2])) else old(b[r, s])
  {
    ghost var row := [a[i, 0], a[i, 1], a[i, 2]];
    var v := 0.0;
    for j := 0 to 3
      invariant v == SeqSum(row, j)
    {
      v := v + a[i, j];
    }
    SeqSumOfThree(row);
    for j := 0 to 3
      invariant forall s | j <= s < 3 :: a[i, s] == row[s]
      invariant forall r, s | 0 <= r < 3 && 0 <= s < 3 ::
        b[r, s] == if r == i && s < j then row[s] / v else old(b[r, s])
    {
      b[i, j] := a[i, j] / v;
    }
  }

  /**
   * matrix_normalize: b := a with each row divided by its sum.
   * `b` may be `a` itself: each row's sum is taken before that row is
   * written, and writing row i touches no other row.
   */
  method MatrixNormalize(a: array2<real>, b: array2<real>)
    requires IsArray3x3(a) && IsArray3x3(b)
    requires NonzeroRowSums(Value(a))
    modifies b
    ensures Value(b) == Normalize(old(Value(a)))
    ensures a != b ==> Value(a) == old(Value(a))
  {
    ghost var va := Value(a);
    ghost var n := Normalize(va);
    for i := 0 to 3
      invariant forall r, s | 0 <= r < 3 && 0 <= s < 3 :: a[r, s] == (if a == b && r < i then n[r][s] else va[r][s])
      invariant forall r, s | 0 <= r < i && 0 <= s < 3 :: b[r, s] == n[r][s]
    {
      assert RowSum(va, i) != 0.0;
      NormalizeRow(a, b, i);
    }
    EqualEntries(Value(b), n, 3, 3);
    if a != b {
      EqualEntries(Value(a), va, 3, 3);
    }
  }

  /** matrix_transpose: b := transpose(a). */
  method MatrixTranspose(a: array2<real>, b: array2<real>)
    requires IsArray3x3(a) && IsArray3x3(b)
    requires a != b
    modifies b
    ensures Value(b) == Transpose(Value(a))
  {
    for i := 0 to 3
      invariant forall r, s | 0 <= r < i && 0 <= s < 3 :: b[r, s] == a[s, r]
    {
      for j := 0 to 3
        invariant forall r, s | 0 <= r < 3 && 0 <= s < 3 && (r < i || (r == i && s < j)) :: b[r, s] == a[s, r]
      {
        b[i, j] := a[j, i];
      }
    }
    EqualEntries(Value(b), Transpose(Value(a)), 3, 3);
  }
}
