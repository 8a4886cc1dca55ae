/**
 * pseudoinverse() of adobe_coeff.cpp: the normal-equations matrix
 * N = inᵀ·in is augmented with the identity into a 3x6 working matrix,
 * Gauss-Jordan elimination without pivoting reduces its left block to the
 * identity, and the right block R (the inverse of N) gives
 * out[i][j] = Σₖ R[j][k]·in[i][k].
 *
 * The source divides by each pivot unguarded. Here a zero pivot stops the
 * computation and is reported, and nothing is written.
 */
module Inverse {
  import opened Matrices
  import opened Options

  /** A 3x6 working matrix: a left and a right 3x3 block side by side. */
  predicate IsWork(w: Matrix) {
    IsMatrix(w, 3, 6)
  }

  /** The normal-equations matrix inᵀ·in. */
  function Gram(m: Matrix): (n: Matrix)
    requires Is3x3(m)
    ensures Is3x3(n)
  {
    Mul(Transpose(m), m)
  }

  lemma GramEntry(m: Matrix, i: nat, j: nat)
    requires Is3x3(m) && i < 3 && j < 3
    ensures Gram(m)[i][j] == m[0][i] * m[0][j] + m[1][i] * m[1][j] + m[2][i] * m[2][j]
  {
    assert Gram(m)[i][j] == Dot(Transpose(m), m, i, j);
  }

  /** [n | I], the 3x6 matrix elimination starts from. */
  function Augment(n: Matrix): (w: Matrix)
    requires Is3x3(n)
    ensures IsWork(w)
  {
    seq(3, i requires 0 <= i < 3 => seq(6, j requires 0 <= j < 6 =>
      if j < 3 then n[i][j] else if j == i + 3 then 1.0 else 0.0))
  }

  function Left(w: Matrix): (l: Matrix)
    requires IsWork(w)
    ensures Is3x3(l)
  {
    seq(3, i requires 0 <= i < 3 => seq(3, j requires 0 <= j < 3 => w[i][j]))
  }

  function Right(w: Matrix): (r: Matrix)
    requires IsWork(w)
    ensures Is3x3(r)
  {
    seq(3, i requires 0 <= i < 3 => seq(3, j requires 0 <= j < 3 => w[i][j + 3]))
  }

  /**
   * Elimination step `p` (the body of the loop at lines 21-32): row p is
   * divided by its pivot, then the scaled row p times the old entry w[k][p]
   * is subtracted from every other row k.
   */
  function Step(w: Matrix, p: nat): (s: Matrix)
    requires IsWork(w) && p < 3 && w[p][p] != 0.0
    ensures IsWork(s)
  {
    seq(3, k requires 0 <= k < 3 => seq(6, j requires 0 <= j < 6 =>
      if k == p then w[p][j] / w[p][p] else w[k][j] - (w[p][j] / w[p][p]) * w[k][p]))
  }

  /** The first `n` elimination steps, or None if one of their pivots is zero. */
  function Eliminate(w: Matrix, n: nat): (r: Option<Matrix>)
    requires IsWork(w) && n <= 3
    ensures r.Some? ==> IsWork(r.value)
  {
    if n == 0 then Some(w)
    else
      match Eliminate(w, n - 1)
      case None => None
      case Some(v) => if v[n - 1][n - 1] == 0.0 then None else Some(Step(v, n - 1))
  }

  /** The output loop (lines 33-36): out[i][j] = Σₖ w[j][k+3]·m[i][k]. */
  function PinvOut(w: Matrix, m: Matrix): (out: Matrix)
    requires IsWork(w) && Is3x3(m)
    ensures Is3x3(out)
  {
    seq(3, i requires 0 <= i < 3 => seq(3, j requires 0 <= j < 3 =>
      w[j][3] * m[i][0] + w[j][4] * m[i][1] + w[j][5] * m[i][2]))
  }

  /**
   * What pseudoinverse() writes to `out` for `m`, or None when a pivot is
   * zero. Despite the routine's name this is the TRANSPOSE of the
   * pseudoinverse (mᵀm)⁻¹mᵀ: line 36 reads the reduced work matrix by rows
   * j and `in` by rows i.
   */
  function PinvTransposeOf(m: Matrix): Option<Matrix>
    requires Is3x3(m)
  {
    match Eliminate(Augment(Gram(m)), 3)
    case None => None
    case Some(v) => Some(PinvOut(v, m))
  }

  // ---------------------------------------------------------------------
  // Elimination reduces the left block to the identity

  /** Arithmetic of one entry of a step, for a pivot-row entry 0 or equal to the pivot. */
  lemma PivotRowEntry(a: real, b: real, f: real, q: real)
    requires q != 0.0
    ensures a == 0.0 ==> a / q == 0.0 && b - (a / q) * f == b
    ensures a == q ==> a / q == 1.0 && f - (a / q) * f == 0.0
  {
  }

  /** One step keeps the cleared columns and clears column p. */
  lemma StepClearsColumn(v: Matrix, p: nat, r: nat, c: nat)
    requires IsWork(v) && p < 3 && v[p][p] != 0.0 && r < 3 && c <= p
    requires forall r', c' | 0 <= r' < 3 && 0 <= c' < p :: v[r'][c'] == if r' == c' then 1.0 else 0.0
    ensures Step(v, p)[r][c] == if r == c then 1.0 else 0.0
  {
    var q, s := v[p][p], Step(v, p);
    assert s[r][c] == if r == p then v[p][c] / q else v[r][c] - (v[p][c] / q) * v[r][p];
    if c < p {
      assert v[p][c] == 0.0;
      PivotRowEntry(v[p][c], v[r][c], v[r][p], q);
    } else {
      assert c == p;
      PivotRowEntry(v[p][c], v[r][c], v[r][p], q);
    }
  }

  /** After n steps, the first n columns of the left block are identity columns. */
  lemma {:induction false} EliminateClearsColumns(w: Matrix, n: nat)
    requires IsWork(w) && n <= 3 && Eliminate(w, n).Some?
    ensures forall r, c | 0 <= r < 3 && 0 <= c < n ::
      Eliminate(w, n).value[r][c] == if r == c then 1.0 else 0.0
  {
    if n > 0 {
      var p := n - 1;
      EliminateClearsColumns(w, p);
      var v := Eliminate(w, p).value;
      forall r, c | 0 <= r < 3 && 0 <= c < n
        ensures Step(v, p)[r][c] == if r == c then 1.0 else 0.0
      {
        StepClearsColumn(v, p, r, c);
      }
    }
  }

  /** When all three pivots are nonzero, the left block ends as the identity. */
  lemma LeftBlockBecomesIdentity(w: Matrix)
    requires IsWork(w) && Eliminate(w, 3).Some?
    ensures Left(Eliminate(w, 3).value) == Identity()
  {
    EliminateClearsColumns(w, 3);
    EqualEntries(Left(Eliminate(w, 3).value), Identity(), 3, 3);
  }

  /** Once a pivot is zero, no later step brings elimination back. */
  lemma {:induction false} EliminateStaysFailed(w: Matrix, n: nat, n': nat)
    requires IsWork(w) && n <= n' <= 3 && Eliminate(w, n).None?
    ensures Eliminate(w, n').None?
  {
    if n < n' {
      EliminateStaysFailed(w, n, n' - 1);
    }
  }

  // ---------------------------------------------------------------------
  // The right block is a left inverse of the normal-equations matrix

  /** The left block of `w` is the right block times `n`. */
  predicate Tracks(w: Matrix, n: Matrix)
    requires IsWork(w) && Is3x3(n)
  {
    forall r, c | 0 <= r < 3 && 0 <= c < 3 ::
      w[r][c] == w[r][3] * n[0][c] + w[r][4] * n[1][c] + w[r][5] * n[2][c]
  }

  lemma AugmentTracks(n: Matrix)
    requires Is3x3(n)
    ensures Tracks(Augment(n), n)
  {
  }

  /** Entry (r, c) of the left block after step p is row r of the right block times column c of n. */
  lemma StepTracksEntry(w: Matrix, p: nat, n: Matrix, r: nat, c: nat)
    requires IsWork(w) && Is3x3(n) && p < 3 && w[p][p] != 0.0 && r < 3 && c < 3
    requires w[p][c] == w[p][3] * n[0][c] + w[p][4] * n[1][c] + w[p][5] * n[2][c]
    requires w[r][c] == w[r][3] * n[0][c] + w[r][4] * n[1][c] + w[r][5] * n[2][c]
    ensures var s := Step(w, p); s[r][c] == s[r][3] * n[0][c] + s[r][4] * n[1][c] + s[r][5] * n[2][c]
  {
    var q := w[p][p];
    ScaleLinear(w[p][c], w[p][3], w[p][4], w[p][5], n[0][c], n[1][c], n[2][c], q);
    if r != p {
      SubtractLinear(w[r][c], w[r][3], w[r][4], w[r][5], w[p][c] / q, w[p][3] / q, w[p][4] / q, w[p][5] / q,
                     n[0][c], n[1][c], n[2][c], w[r][p]);
    }
  }

  /** A row operation applied to both blocks keeps left = right·n. */
  lemma StepTracks(w: Matrix, p: nat, n: Matrix)
    requires IsWork(w) && Is3x3(n) && p < 3 && w[p][p] != 0.0
    requires Tracks(w, n)
    ensures Tracks(Step(w, p), n)
  {
    forall r, c | 0 <= r < 3 && 0 <= c < 3
      ensures Step(w, p)[r][c] == Step(w, p)[r][3] * n[0][c] + Step(w, p)[r][4] * n[1][c] + Step(w, p)[r][5] * n[2][c]
    {
      StepTracksEntry(w, p, n, r, c);
    }
  }

  lemma {:induction false} EliminateTracks(n: Matrix, k: nat)
    requires Is3x3(n) && k <= 3 && Eliminate(Augment(n), k).Some?
    ensures Tracks(Eliminate(Augment(n), k).value, n)
  {
    if k == 0 {
      AugmentTracks(n);
    } else {
      EliminateTracks(n, k - 1);
      StepTracks(Eliminate(Augment(n), k - 1).value, k - 1, n);
    }
  }

  /** A working matrix whose left block is I and tracks n holds n's left inverse on the right. */
  lemma ReducedGivesInverse(v: Matrix, n: Matrix)
    requires IsWork(v) && Is3x3(n) && Tracks(v, n)
    requires forall r, c | 0 <= r < 3 && 0 <= c < 3 :: v[r][c] == if r == c then 1.0 else 0.0
    ensures Mul(Right(v), n) == Identity()
  {
    var r := Right(v);
    forall i, j | 0 <= i < 3 && 0 <= j < 3
      ensures Mul(r, n)[i][j] == Identity()[i][j]
    {
      assert r[i][0] == v[i][3] && r[i][1] == v[i][4] && r[i][2] == v[i][5];
      assert v[i][j] == v[i][3] * n[0][j] + v[i][4] * n[1][j] + v[i][5] * n[2][j];
    }
    EqualEntries(Mul(r, n), Identity(), 3, 3);
  }

  /** When elimination of [n | I] succeeds, the right block R satisfies R·n = I. */
  lemma RightBlockInvertsNormal(n: Matrix)
    requires Is3x3(n) && Eliminate(Augment(n), 3).Some?
    ensures Mul(Right(Eliminate(Augment(n), 3).value), n) == Identity()
  {
    EliminateTracks(n, 3);
    EliminateClearsColumns(Augment(n), 3);
    ReducedGivesInverse(Eliminate(Augment(n), 3).value, n);
  }

  // ---------------------------------------------------------------------
  // The result is a left inverse of the input

  lemma PinvOutIsProduct(w: Matrix, m: Matrix)
    requires IsWork(w) && Is3x3(m)
    ensures Transpose(PinvOut(w, m)) == Mul(Right(w), Transpose(m))
  {
    EqualEntries(Transpose(PinvOut(w, m)), Mul(Right(w), Transpose(m)), 3, 3);
  }

  /**
   * The output of pseudoinverse() is transpose(R·mᵀ), where R is the right
   * block after elimination and R·(mᵀm) = I: so the output is the transpose
   * of the pseudoinverse (mᵀm)⁻¹mᵀ, not the pseudoinverse itself.
   */
  lemma OutputIsTransposedPseudoInverse(m: Matrix)
    requires Is3x3(m) && PinvTransposeOf(m).Some?
    ensures var r := Right(Eliminate(Augment(Gram(m)), 3).value);
      && Mul(r, Gram(m)) == Identity()
      && Transpose(PinvTransposeOf(m).value) == Mul(r, Transpose(m))
      && PinvTransposeOf(m).value == Transpose(Mul(r, Transpose(m)))
  {
    var v := Eliminate(Augment(Gram(m)), 3).value;
    PinvOutIsProduct(v, m);
    RightBlockInvertsNormal(Gram(m));
    TransposeInvolution(PinvOut(v, m));
  }

  // A worked example: the shear [[1,1,0],[0,1,0],[0,0,1]]

  const Shear: Matrix := [[1.0, 1.0, 0.0], [0.0, 1.0, 0.0], [0.0, 0.0, 1.0]]
  const ShearStart: Matrix := [[1.0, 1.0, 0.0, 1.0, 0.0, 0.0], [1.0, 2.0, 0.0, 0.0, 1.0, 0.0], [0.0, 0.0, 1.0, 0.0, 0.0, 1.0]]
  const ShearAfter0: Matrix := [[1.0, 1.0, 0.0, 1.0, 0.0, 0.0], [0.0, 1.0, 0.0, -1.0, 1.0, 0.0], [0.0, 0.0, 1.0, 0.0, 0.0, 1.0]]
  const ShearReduced: Matrix := [[1.0, 0.0, 0.0, 2.0, -1.0, 0.0], [0.0, 1.0, 0.0, -1.0, 1.0, 0.0], [0.0, 0.0, 1.0, 0.0, 0.0, 1.0]]

  /** Lines 14-20 for the shear: [ShearᵀShear | I]. */
  lemma ShearNormalEquations()
    ensures Augment(Gram(Shear)) == ShearStart
  {
    var g := [[1.0, 1.0, 0.0], [1.0, 2.0, 0.0], [0.0, 0.0, 1.0]];
    forall i, j | 0 <= i < 3 && 0 <= j < 3
      ensures Gram(Shear)[i][j] == g[i][j]
    {
      GramEntry(Shear, i, j);
    }
    EqualEntries(Gram(Shear), g, 3, 3);
    EqualEntries(Augment(g), ShearStart, 3, 6);
  }

  /** The three elimination steps for the shear; the last pivot leaves the matrix as it is. */
  lemma ShearElimination()
    ensures Eliminate(ShearStart, 3) == Some(ShearReduced)
  {
    EqualEntries(Step(ShearStart, 0), ShearAfter0, 3, 6);
    EqualEntries(Step(ShearAfter0, 1), ShearReduced, 3, 6);
    EqualEntries(Step(ShearReduced, 2), ShearReduced, 3, 6);
  }

  /**
   * The shear's inverse is [[1,-1,0],[0,1,0],[0,0,1]]; pseudoinverse() writes
   * that inverse transposed.
   */
  lemma ShearGivesTransposedInverse()
    ensures PinvTransposeOf(Shear) == Some([[1.0, 0.0, 0.0], [-1.0, 1.0, 0.0], [0.0, 0.0, 1.0]])
  {
    ShearNormalEquations();
    ShearElimination();
    ShearOutput();
  }

  /** Lines 33-36 for the shear's reduced work matrix. */
  lemma ShearOutput()
    ensures PinvOut(ShearReduced, Shear) == [[1.0, 0.0, 0.0], [-1.0, 1.0, 0.0], [0.0, 0.0, 1.0]]
  {
    EqualEntries(PinvOut(ShearReduced, Shear), [[1.0, 0.0, 0.0], [-1.0, 1.0, 0.0], [0.0, 0.0, 1.0]], 3, 3);
  }

  /**
   * The transposed output is (mᵀm)⁻¹mᵀ, the Moore-Penrose pseudoinverse,
   * and it undoes m: transpose(out)·m = I.
   */
  lemma PseudoInverseIsLeftInverse(m: Matrix)
    requires Is3x3(m) && PinvTransposeOf(m).Some?
    ensures Mul(Transpose(PinvTransposeOf(m).value), m) == Identity()
  {
    var v := Eliminate(Augment(Gram(m)), 3).value;
    var r := Right(v);
    PinvOutIsProduct(v, m);
    MulAssociative(r, Transpose(m), m);
    RightBlockInvertsNormal(Gram(m));
  }

  // ---------------------------------------------------------------------
  // The accumulator at line 17 as written

  /**
   * Lines 14-20 as written: work[i][0..2] is only ever added to, so it
   * starts from whatever `junk` the buffer held.
   */
  function AugmentAsWritten(m: Matrix, junk: Matrix): (w: Matrix)
    requires Is3x3(m) && IsWork(junk)
    ensures IsWork(w)
  {
    seq(3, i requires 0 <= i < 3 => seq(6, j requires 0 <= j < 6 =>
      if j < 3 then junk[i][j] + Gram(m)[i][j] else if j == i + 3 then 1.0 else 0.0))
  }

  /** The as-written start is the intended one exactly when the buffer's left block held zeros. */
  lemma AsWrittenNeedsZeroedBuffer(m: Matrix, junk: Matrix)
    requires Is3x3(m) && IsWork(junk)
    ensures AugmentAsWritten(m, junk) == Augment(Gram(m)) <==> Left(junk) == Zero()
  {
    var a, b := AugmentAsWritten(m, junk), Augment(Gram(m));
    if a == b {
      forall r, c | 0 <= r < 3 && 0 <= c < 3
        ensures Left(junk)[r][c] == Zero()[r][c]
      {
        assert a[r][c] == b[r][c];
      }
      EqualEntries(Left(junk), Zero(), 3, 3);
    }
    if Left(junk) == Zero() {
      forall r, c | 0 <= r < 3 && 0 <= c < 6
        ensures a[r][c] == b[r][c]
      {
        if c < 3 {
          assert junk[r][c] == Left(junk)[r][c];
        }
      }
      EqualEntries(a, b, 3, 6);
    }
  }

  // ---------------------------------------------------------------------
  // pseudoinverse() on arrays

  predicate IsWorkArray(a: array2<real>) {
    a.Length0 == 3 && a.Length1 == 6
  }

  /** Line 17 for one (i, j): the three products accumulated onto a zeroed entry. */
  method NormalEntry(inp: array2<real>, work: array2<real>, i: nat, j: nat)
    requires IsArray3x3(inp) && IsWorkArray(work) && i < 3 && j < 3 && work[i, j] == 0.0
    modifies work
    ensures work[i, j] == Gram(old(Value(inp)))[i][j]
    ensures forall r, c | 0 <= r < 3 && 0 <= c < 6 && (r != i || c != j) :: work[r, c] == old(work[r, c])
  {
    assert inp != work;
    ghost var terms := [inp[0, i] * inp[0, j], inp[1, i] * inp[1, j], inp[2, i] * inp[2, j]];
    for k := 0 to 3
      invariant work[i, j] == SeqSum(terms, k)
      invariant forall r, c | 0 <= r < 3 && 0 <= c < 6 && (r != i || c != j) :: work[r, c] == old(work[r, c])
    {
      work[i, j] := work[i, j] + inp[k, i] * inp[k, j];
    }
    SeqSumOfThree(terms);
    GramEntry(old(Value(inp)), i, j);
  }

  /** Lines 14-20: work := [inᵀ·in | I], the accumulator of line 17 starting at zero. */
  method NormalEquations(inp: array2<real>) returns (work: array2<real>)
    requires IsArray3x3(inp)
    ensures fresh(work) && IsWorkArray(work)
    ensures Value(work) == Augment(Gram(Value(inp)))
  {
    ghost var w0 := Augment(Gram(Value(inp)));
    work := new real[3, 6]((_, _) => 0.0);
    for i := 0 to 3
      invariant forall r, c | 0 <= r < 3 && 0 <= c < 6 :: work[r, c] == if r < i then w0[r][c] else 0.0
    {
      for j := 0 to 3
        invariant forall r, c | 0 <= r < 3 && 0 <= c < 6 ::
          work[r, c] == if r < i || (r == i && c < j) then w0[r][c] else 0.0
      {
        NormalEntry(inp, work, i, j);
      }
      for j := 3 to 6
        invariant forall r, c | 0 <= r < 3 && 0 <= c < 6 ::
          work[r, c] == if r < i || (r == i && c < j) then w0[r][c] else 0.0
      {
        work[i, j] := if j == i + 3 then 1.0 else 0.0;
      }
    }
    EqualEntries(Value(work), w0, 3, 6);
  }

  /** Lines 22-24: row i divided by its pivot. */
  method ScalePivotRow(work: array2<real>, i: nat)
    requires IsWorkArray(work) && i < 3 && work[i, i] != 0.0
    modifies work
    ensures forall r, c | 0 <= r < 3 && 0 <= c < 6 ::
      work[r, c] == if r == i then old(work[i, c]) / old(work[i, i]) else old(work[r, c])
  {
    var num := work[i, i];
    for j := 0 to 6
      invariant forall r, c | 0 <= r < 3 && 0 <= c < 6 ::
        work[r, c] == if r == i && c < j then old(work[i, c]) / num else old(work[r, c])
    {
      work[i, j] := work[i, j] / num;
    }
  }

  /** Lines 28-30: row k minus row i times the old entry work[k][i]. */
  method SubtractPivotRow(work: array2<real>, i: nat, k: nat)
    requires IsWorkArray(work) && i < 3 && k < 3 && k != i
    modifies work
    ensures forall r, c | 0 <= r < 3 && 0 <= c < 6 ::
      work[r, c] == if r == k then old(work[k, c]) - old(work[i, c]) * old(work[k, i]) else old(work[r, c])
  {
    var num := work[k, i];
    for j := 0 to 6
      invariant forall r, c | 0 <= r < 3 && 0 <= c < 6 ::
        work[r, c] == if r == k && c < j then old(work[k, c]) - old(work[i, c]) * num else old(work[r, c])
    {
      work[k, j] := work[k, j] - work[i, j] * num;
    }
  }

  /**
   * One pass of the loop at lines 21-32: divide row i by its pivot, then
   * clear column i from the other rows. Returns false, changing nothing,
   * when the pivot is zero.
   */
  method EliminationStep(work: array2<real>, i: nat) returns (ok: bool)
    requires IsWorkArray(work) && i < 3
    modifies work
    ensures ok == (old(Value(work))[i][i] != 0.0)
    ensures ok ==> Value(work) == Step(old(Value(work)), i)
    ensures !ok ==> Value(work) == old(Value(work))
  {
    ghost var cur := Value(work);
    if work[i, i] == 0.0 {
      return false;
    }
    ghost var next := Step(cur, i);
    ScalePivotRow(work, i);
    for k := 0 to 3
      invariant forall r, c | 0 <= r < 3 && 0 <= c < 6 ::
        work[r, c] == if r == i || r < k then next[r][c] else cur[r][c]
    {
      if k == i {
        continue;
      }
      SubtractPivotRow(work, i, k);
    }
    EqualEntries(Value(work), next, 3, 6);
    ok := true;
  }

  /** Lines 35-36 for one (i, j): out[i][j] := Σₖ work[j][k+3]·in[i][k]. */
  method OutputEntry(work: array2<real>, inp: array2<real>, out: array2<real>, i: nat, j: nat)
    requires IsWorkArray(work) && IsArray3x3(inp) && IsArray3x3(out) && inp != out && i < 3 && j < 3
    modifies out
    ensures out[i, j] == PinvOut(old(Value(work)), old(Value(inp)))[i][j]
    ensures forall r, c | 0 <= r < 3 && 0 <= c < 3 && (r != i || c != j) :: out[r, c] == old(out[r, c])
  {
    ghost var terms := [work[j, 3] * inp[i, 0], work[j, 4] * inp[i, 1], work[j, 5] * inp[i, 2]];
    out[i, j] := 0.0;
    for k := 0 to 3
      invariant out[i, j] == SeqSum(terms, k)
      invariant forall r, c | 0 <= r < 3 && 0 <= c < 3 && (r != i || c != j) :: out[r, c] == old(out[r, c])
    {
      out[i, j] := out[i, j] + work[j, k + 3] * inp[i, k];
    }
    SeqSumOfThree(terms);
  }

  /** Lines 33-36: out[i][j] := Σₖ work[j][k+3]·in[i][k]. */
  method WriteOutput(work: array2<real>, inp: array2<real>, out: array2<real>)
    requires IsWorkArray(work) && IsArray3x3(inp) && IsArray3x3(out) && inp != out
    modifies out
    ensures Value(out) == PinvOut(old(Value(work)), old(Value(inp)))
  {
    ghost var p := PinvOut(Value(work), Value(inp));
    for i := 0 to 3
      invariant forall r, c | 0 <= r < i && 0 <= c < 3 :: out[r, c] == p[r][c]
    {
      for j := 0 to 3
        invariant forall r, c | 0 <= r < 3 && 0 <= c < 3 && (r < i || (r == i && c < j)) :: out[r, c] == p[r][c]
      {
        OutputEntry(work, inp, out, i, j);
      }
    }
    EqualEntries(Value(out), p, 3, 3);
  }

  /**
   * pseudoinverse(in, out). Returns false, leaving `out` as it was, when a
   * pivot is zero; the source divides by it.
   */
  method PseudoInverse(inp: array2<real>, out: array2<real>) returns (ok: bool)
    requires IsArray3x3(inp) && IsArray3x3(out) && inp != out
    modifies out
    ensures ok == PinvTransposeOf(Value(inp)).Some?
    ensures ok ==> Value(out) == PinvTransposeOf(Value(inp)).value
    ensures !ok ==> Value(out) == old(Value(out))
  {
    ghost var m := Value(inp);
    var work := NormalEquations(inp);
    ghost var w0 := Value(work);
    for i := 0 to 3
      invariant Eliminate(w0, i) == Some(Value(work))
      invariant unchanged(out)
    {
      ok := EliminationStep(work, i);
      if !ok {
        EliminateStaysFailed(w0, i + 1, 3);
        return;
      }
    }
    ghost var v := Value(work);
    assert PinvTransposeOf(m) == Some(PinvOut(v, m));
    WriteOutput(work, inp, out);
    ok := true;
  }
}
