# Colour calibration of Olympus raw files: a verified model

`dcraw_raw/adobe_coeff.cpp` turns a camera model name into two things a raw
developer needs:

- the white-balance coefficients r, g and b;
- the 3x3 matrix `rgb_cam`, which maps camera RGB to linear sRGB.

The steps are:

1. Look the name up in a table of 52 Olympus bodies. The table is the
   Adobe DNG Converter calibration, each entry nine `short`s scaled by 10000.
   The first entry whose name is a prefix of the model wins.
2. Decode that entry into the matrix `cam_xyz`, which maps XYZ to camera RGB.
3. Multiply it by the constant `XYZ_FROM_RGB`, giving `cam_rgb`.
4. Take the reciprocal of each row sum of `cam_rgb` as a coefficient.
5. Normalise the rows of `cam_rgb` to sum 1.
6. Run `pseudoinverse()`, a Gauss-Jordan elimination that, despite its name,
   writes the transpose of the pseudoinverse (inᵀin)⁻¹inᵀ. Transposing that
   gives `rgb_cam`, the pseudoinverse itself.

The model has four modules:

- `Matrices` (`matrices.dfy`): the constant and the primitives
  `matrix_multiply`, `matrix_normalize`, `matrix_transpose` and `sum`.
- `Inverse` (`pseudoinverse.dfy`): `pseudoinverse`.
- `ColorProfile` (`cam_xyz_coeff.dfy`): `cam_xyz_coeff`.
- `Calibration` (`adobe_coeff.dfy`): the table, `strncmp`, the lookup and
  `adobe_coeff`.

`Options` (`option.dfy`) holds an `Option` type.

Each C routine that loops over `double[3][3]` buffers is a Dafny method
with the same loops over an `array2<real>`. Each method is proved against a
specification function on `seq<seq<real>>` values, and the properties the
source relies on are lemmas about those functions. The main results are:

- lookup chooses the first entry whose name is a prefix of the model, and
  fails exactly when there is none;
- each shorter name listed after a longer one with the same stem (E-10/E-1,
  E-PL1s/E-PL1, E-M10/E-M1, E-M5MarkII/E-M5, XZ-10/XZ-1) resolves to its own entry;
- over reals, decoding is exact and invertible (in `double` the division by 10000 rounds);
- normalised rows sum to 1, and normalising in place gives the same result
  as writing to another buffer;
- elimination turns the left block into the identity;
- `pseudoinverse()` writes transpose((inᵀin)⁻¹inᵀ), so `transpose(out) · in = I`;
- `XYZ_FROM_RGB` maps sRGB white to the D65 white point, so the row sums
  behind the coefficients are the camera's response to D65 white.

In the source, `adobe_coeff` and `cam_xyz_coeff` return `void`, and they
divide by row sums and pivots without checking them. The model returns a
status instead. A zero row sum or a zero pivot is an error, and on any
error nothing is written. Where the source would produce infinities or NaNs,
the model reports the failure.

## Model

| member | source | states |
|---|---|---|
| Matrices.MatrixMultiply | dcraw_raw/adobe_coeff.cpp:39-51 | c holds a·b: each c[i][j] is row i of a times column j of b (a and b are left as they are) |
| Matrices.DotEntry | dcraw_raw/adobe_coeff.cpp:44-47 | v is Σₖ a[i][k]·b[k][j], entry (i, j) of a·b |
| Matrices.MulIdentityLeft | dcraw_raw/adobe_coeff.cpp:39-51 | I·a = a |
| Matrices.MulIdentityRight | dcraw_raw/adobe_coeff.cpp:39-51 | a·I = a |
| Matrices.MulAssociative | dcraw_raw/adobe_coeff.cpp:39-51 | (a·b)·c = a·(b·c), which ties the pseudoinverse to its normal equations |
| Matrices.MatrixNormalize | dcraw_raw/adobe_coeff.cpp:53-63 | b holds a with each row divided by its sum. This holds also when b is a itself (the in-place call at line 90). When b is another buffer, a is unchanged |
| Matrices.NormalizeRow | dcraw_raw/adobe_coeff.cpp:57-61 | row i of b becomes row i of a divided by its sum, read before any write, so it holds also when b is a. The other rows are unchanged |
| Matrices.NormalizeRowsSumToOne | dcraw_raw/adobe_coeff.cpp:53-63 | every row of a normalised matrix sums to exactly 1 |
| Matrices.NormalizeScalesRows | dcraw_raw/adobe_coeff.cpp:53-63 | a normalised entry times the original row sum is the original entry |
| Matrices.NormalizeIdempotent | dcraw_raw/adobe_coeff.cpp:53-63 | normalising an already normalised matrix changes nothing |
| Matrices.MatrixTranspose | dcraw_raw/adobe_coeff.cpp:65-71 | b[i][j] = a[j][i] for every entry |
| Matrices.TransposeInvolution | dcraw_raw/adobe_coeff.cpp:65-71 | transposing twice gives the matrix back |
| Matrices.TransposeOfProduct | dcraw_raw/adobe_coeff.cpp:65-71 | transpose(a·b) = transpose(b)·transpose(a) |
| Matrices.Sum | dcraw_raw/adobe_coeff.cpp:73-79 | the result is the sum of the first elementCount entries of the row, added from the left |
| Matrices.NewMatrix | dcraw_raw/adobe_coeff.cpp:4-7 | a fresh 3x3 array holding the given constant (used for XYZ_FROM_RGB) |
| Matrices.XyzFromRgb | dcraw_raw/adobe_coeff.cpp:4-7 | the constant XYZ_FROM_RGB, entry by entry |
| Matrices.XyzFromRgbWhitePoint | dcraw_raw/adobe_coeff.cpp:4-7 | the rows sum to 0.950456, 1 and 1.088754: sRGB white (1, 1, 1) goes to the D65 white point with Y = 1 |
| Inverse.GramEntry | dcraw_raw/adobe_coeff.cpp:14-17 | entry (i, j) of inᵀ·in is Σₖ in[k][i]·in[k][j], the sum line 17 accumulates |
| Inverse.NormalEntry | dcraw_raw/adobe_coeff.cpp:15-17 | one zeroed entry receives Σₖ in[k][i]·in[k][j], and no other entry changes |
| Inverse.NormalEquations | dcraw_raw/adobe_coeff.cpp:14-20 | the 3x6 work matrix is [inᵀ·in \| I] |
| Inverse.Gram | dcraw_raw/adobe_coeff.cpp:14-17 | the matrix inᵀ·in that lines 14-17 accumulate |
| Inverse.Augment | dcraw_raw/adobe_coeff.cpp:14-20 | [n \| I]: columns 0-2 hold n, and columns 3-5 hold the identity, as lines 18-19 set them |
| Inverse.ScalePivotRow | dcraw_raw/adobe_coeff.cpp:22-24 | row i is divided by the pivot read before the loop, and the other rows are unchanged |
| Inverse.SubtractPivotRow | dcraw_raw/adobe_coeff.cpp:25-30 | row k loses row i times the old entry work[k][i], and the other rows are unchanged |
| Inverse.EliminationStep | dcraw_raw/adobe_coeff.cpp:21-32 | succeeds exactly when the pivot is nonzero. Then work becomes Step(work, i); otherwise work is unchanged |
| Inverse.Step | dcraw_raw/adobe_coeff.cpp:21-32 | step p on values: row p divided by its pivot, then every other row k minus the scaled row p times the old entry w[k][p] |
| Inverse.Eliminate | dcraw_raw/adobe_coeff.cpp:21-32 | the first n steps in order, or none once a pivot is zero |
| Inverse.StepClearsColumn | dcraw_raw/adobe_coeff.cpp:21-32 | a step keeps the identity columns already made and makes column p one |
| Inverse.EliminateClearsColumns | dcraw_raw/adobe_coeff.cpp:21-32 | after n successful steps, the first n columns are identity columns |
| Inverse.LeftBlockBecomesIdentity | dcraw_raw/adobe_coeff.cpp:21-32 | after the three steps, the left block is the identity |
| Inverse.EliminateStaysFailed | dcraw_raw/adobe_coeff.cpp:21-32 | once a pivot is zero, the elimination as a whole fails |
| Inverse.AugmentTracks | dcraw_raw/adobe_coeff.cpp:14-20 | in [n \| I], the left block is the right block times n |
| Inverse.StepTracksEntry | dcraw_raw/adobe_coeff.cpp:21-32 | one step keeps entry (r, c) of the left block equal to row r of the right block times column c of n |
| Inverse.StepTracks | dcraw_raw/adobe_coeff.cpp:21-32 | each row operation keeps left = right·n |
| Inverse.EliminateTracks | dcraw_raw/adobe_coeff.cpp:21-32 | left = right·n holds after every successful step |
| Inverse.ReducedGivesInverse | dcraw_raw/adobe_coeff.cpp:21-32 | if the left block is I and left = right·n, then right·n = I |
| Inverse.RightBlockInvertsNormal | dcraw_raw/adobe_coeff.cpp:14-32 | the right block R after elimination satisfies R·(inᵀ·in) = I |
| Inverse.PinvOutIsProduct | dcraw_raw/adobe_coeff.cpp:33-36 | the transposed output is R·inᵀ |
| Inverse.PinvOut | dcraw_raw/adobe_coeff.cpp:33-36 | out[i][j] = Σₖ w[j][k+3]·m[i][k], the output loop on values |
| Inverse.PinvTransposeOf | dcraw_raw/adobe_coeff.cpp:9-37 | what pseudoinverse() writes: the output loop applied to the eliminated [inᵀin \| I], or none when a pivot is zero |
| Inverse.OutputIsTransposedPseudoInverse | dcraw_raw/adobe_coeff.cpp:9-37 | the output is transpose(R·inᵀ) with R·(inᵀin) = I: the transpose of the pseudoinverse, not the pseudoinverse |
| Inverse.ShearGivesTransposedInverse | dcraw_raw/adobe_coeff.cpp:9-37 | for in = [[1,1,0],[0,1,0],[0,0,1]], out is [[1,0,0],[-1,1,0],[0,0,1]], the transpose of in⁻¹ = [[1,-1,0],[0,1,0],[0,0,1]] |
| Inverse.OutputEntry | dcraw_raw/adobe_coeff.cpp:35-36 | out[i][j] = Σₖ work[j][k+3]·in[i][k], and no other entry changes |
| Inverse.WriteOutput | dcraw_raw/adobe_coeff.cpp:33-36 | every out[i][j] = Σₖ work[j][k+3]·in[i][k] |
| Inverse.PseudoInverse | dcraw_raw/adobe_coeff.cpp:9-37 | succeeds exactly when every pivot is nonzero. Then out is the transpose of (inᵀin)⁻¹inᵀ, the value lines 33-36 compute from the reduced work matrix (`PinvTransposeOf`); otherwise out is unchanged |
| Inverse.PseudoInverseIsLeftInverse | dcraw_raw/adobe_coeff.cpp:9-37 | transpose(out)·in = I, so out is transpose((inᵀin)⁻¹inᵀ) |
| Inverse.AsWrittenNeedsZeroedBuffer | dcraw_raw/adobe_coeff.cpp:11-17 | the accumulation as written yields [inᵀ·in \| I] exactly when the left block of the uninitialised buffer was zero |
| Inverse.AugmentAsWritten | dcraw_raw/adobe_coeff.cpp:11-20 | lines 11-20 as written: columns 0-2 are whatever the buffer held plus inᵀ·in, and columns 3-5 are the identity |
| ColorProfile.CoefficientsScaleRows | dcraw_raw/adobe_coeff.cpp:86-90 | each coefficient times its un-normalised row sum is 1, and the normalised row is the original row times the coefficient |
| ColorProfile.CamRgb | dcraw_raw/adobe_coeff.cpp:84 | cam_rgb = cam_xyz·XYZ_FROM_RGB |
| ColorProfile.CamRgbRowSumIsWhiteResponse | dcraw_raw/adobe_coeff.cpp:84-88 | the row sums whose reciprocals are the coefficients are row i of cam_xyz applied to the D65 white point (0.950456, 1, 1.088754) |
| ColorProfile.FromCamRgb | dcraw_raw/adobe_coeff.cpp:86-94 | on values: coefficients 1/row sum, then normalise, pseudoinverse and transpose; DegenerateRow for a zero row sum, SingularMatrix for a zero pivot |
| ColorProfile.RgbCamInvertsCamRgb | dcraw_raw/adobe_coeff.cpp:90-94 | rgb_cam · (normalised cam_rgb) = I |
| ColorProfile.FailsOnlyOnZeroDivisor | dcraw_raw/adobe_coeff.cpp:86-93 | DegenerateRow exactly when a row sum is zero, and SingularMatrix exactly when the row sums are nonzero but a pivot is zero. The result is never UnknownModel |
| ColorProfile.FinishProfile | dcraw_raw/adobe_coeff.cpp:86-94 | the coefficients and rgb_cam are written exactly as the value-level profile of cam_rgb says. On an error neither is written |
| ColorProfile.CamXyzCoeff | dcraw_raw/adobe_coeff.cpp:81-95 | the coefficients and rgb_cam are those of cam_xyz·XYZ_FROM_RGB, with the status of that derivation. On an error nothing is written |
| Calibration.StrnCmpFromZero | dcraw_raw/adobe_coeff.cpp:218 | strncmp from index i is 0 exactly when both strings agree on the NUL-padded positions i to n-1 |
| Calibration.StrnCmp | dcraw_raw/adobe_coeff.cpp:218 | strncmp: compares at most n characters, stops after a common terminator, and returns the code difference at the first differing position |
| Calibration.StrnCmpFrom | dcraw_raw/adobe_coeff.cpp:218 | strncmp from index i on, NUL past each string's end |
| Calibration.AgreeIffPrefix | dcraw_raw/adobe_coeff.cpp:218 | agreeing with model on the NUL-padded first strlen(name) positions is the same as name being a prefix of model |
| Calibration.StrnCmpZeroIffPrefix | dcraw_raw/adobe_coeff.cpp:218 | strncmp(model, name, strlen(name)) == 0 exactly when name is a prefix of model |
| Calibration.FirstMatchIsFirstPrefix | dcraw_raw/adobe_coeff.cpp:217-218 | the scan from i returns an entry whose name is a prefix of the model, with no such entry between i and it. If it returns none, there is no such entry from i on |
| Calibration.FirstMatch | dcraw_raw/adobe_coeff.cpp:217-218 | the index of the first entry at or after i whose strncmp test is 0; the index, when there is one, lies within the table |
| Calibration.LookupChoosesFirstPrefix | dcraw_raw/adobe_coeff.cpp:217-218 | entry k is chosen exactly when its name is a prefix of the model and no earlier name is one (both directions) |
| Calibration.LookupFailsIffNoPrefix | dcraw_raw/adobe_coeff.cpp:217-224 | no entry is chosen exactly when no name in the table is a prefix of the model |
| Calibration.EarlierEntryWins | dcraw_raw/adobe_coeff.cpp:217-218 | an entry is never chosen when an earlier entry's name is also a prefix of the model |
| Calibration.LookupInConcatenation | dcraw_raw/adobe_coeff.cpp:217-218 | a lookup in a + b is the lookup in a, or failing that the lookup in b shifted past a |
| Calibration.FindEntry | dcraw_raw/adobe_coeff.cpp:217-218 | the loop returns the first index whose name is a prefix of the model, or none when no name is |
| Calibration.Table | dcraw_raw/adobe_coeff.cpp:111-214 | the 52 entries of the table, names and nine integers each, in source order |
| Calibration.TableShape | dcraw_raw/adobe_coeff.cpp:111-214 | the table has 52 entries and no empty name (an empty name would match every model) |
| Calibration.E10AndE1Resolve | dcraw_raw/adobe_coeff.cpp:121-124 | in the whole table "E-10" gets entry 5 and "E-1" gets entry 6 |
| Calibration.EPl1sAndEPl1Resolve | dcraw_raw/adobe_coeff.cpp:163-166 | "E-PL1s" gets entry 26 and "E-PL1" gets entry 27 |
| Calibration.EM10AndEM1Resolve | dcraw_raw/adobe_coeff.cpp:181-184 | "E-M10" gets entry 35 and "E-M1" gets entry 36 |
| Calibration.EM5MarkIIAndEM5Resolve | dcraw_raw/adobe_coeff.cpp:185-188 | "E-M5MarkII" gets entry 37 and "E-M5" gets entry 38 |
| Calibration.Xz10AndXz1Resolve | dcraw_raw/adobe_coeff.cpp:209-212 | "XZ-10" gets entry 49 and "XZ-1" gets entry 50 |
| Calibration.FirstMatchIsNotLongestMatch | dcraw_raw/adobe_coeff.cpp:217-218 | the lookup is first-match, not longest-match: with "E-1" listed before "E-10", the model "E-10Pro" gets "E-1" |
| Calibration.UnknownOutsideTheFamilies | dcraw_raw/adobe_coeff.cpp:111-224 | a model whose first letter is none of C, E, S, T and X matches no entry. The empty model counts as having no first letter, so it matches none either |
| Calibration.Decode | dcraw_raw/adobe_coeff.cpp:219-221 | a 3x3 matrix whose entry [j / 3][j % 3] is trans[j] / 10000 for j in 0..8 |
| Calibration.EncodeDecode | dcraw_raw/adobe_coeff.cpp:219-221 | scaling the decoded matrix back by 10000 and reading it row-major gives the nine table integers |
| Calibration.DecodeInto | dcraw_raw/adobe_coeff.cpp:219-221 | the array holds the decoded matrix |
| Calibration.UnknownIffNoPrefix | dcraw_raw/adobe_coeff.cpp:217-224 | adobe_coeff fails with UnknownModel exactly when no name in the table is a prefix of the model |
| Calibration.AdobeCoeffOf | dcraw_raw/adobe_coeff.cpp:100-225 | on values: UnknownModel with no match, otherwise the profile derived from the first matching entry's decoded matrix |
| Calibration.AdobeCoeff | dcraw_raw/adobe_coeff.cpp:100-225 | on a match, it writes the coefficients and rgb_cam derived from the first matching entry's matrix. With no match, or on a division error, it writes nothing, and the status says which case happened |

## Left out

- Floating point: `double` is modelled as `real`, so the entry formulas hold
  exactly and rounding is not modelled.
- Numeric results have no golden values. The proofs give exact formulas and
  identities, not digits.
- The table's `black` and `maximum` fields are not modelled. The source never
  reads them.
- C strings are modelled as NUL-free character sequences. `strlen` is the
  sequence length, and pointers and memory layout are not modelled.
- `strncmp`: the sign of its nonzero result is modelled as a difference of
  character codes. Only `== 0` is used, so this choice does not matter.
- The division guards and the statuses are additions.
  - The source returns `void` and divides by the row sums (lines 86-88 and 61)
    and by the pivots (line 24) unchecked.
  - Zero divisors are reported as `DegenerateRow` or `SingularMatrix`.
  - `Matrices.MatrixNormalize` requires nonzero row sums, as its callers must
    ensure.
- All-or-nothing writes are an addition:
  - `ColorProfile.FinishProfile` writes the coefficients last, so that an error
    leaves them untouched. The source writes them before normalising.
  - `Inverse.PseudoInverse` leaves `out` untouched when it fails.
- Aliasing: these methods require distinct buffers, as every call in the
  source provides them:
  - `Matrices.MatrixMultiply`: the output is neither input;
  - `Matrices.MatrixTranspose`: a and b differ;
  - `Inverse.PseudoInverse`: in and out differ;
  - `ColorProfile.CamXyzCoeff`: cam_xyz and rgb_cam differ.

  `Matrices.MatrixNormalize` has no such requirement, because line 90 calls
  it in place.
- `Inverse.PseudoInverseIsLeftInverse` says nothing about which inputs have
  nonzero pivots. That inᵀ·in of an invertible matrix is positive definite,
  so that no pivot is zero, is not proved.
- The per-name resolution lemmas cover five pairs that share a stem, not
  every one of the 52 names. That no name in the table is a prefix of an
  earlier one, so that every entry is reachable by its own name, is not
  proved: it would take about 1300 comparisons of literal strings.
- `Calibration`: the table is written as eleven consecutive runs whose
  concatenation is the table in source order. This is only a device for
  the proofs.
- `adobe_coeff.h` (the `RgbCoefficient` struct) is not part of this model;
  `ColorProfile.RgbCoefficient` is a class with the three fields.

## Findings

| source | as written | input that shows it | evidently intended | confidence | as-written member | corrected member |
|---|---|---|---|---|---|---|
| dcraw_raw/adobe_coeff.cpp:11-17 | `work` is a local array that is never initialised, and line 17 adds inᵀ·in onto whatever it held | any stack contents with a nonzero value among work[0..2][0..2], 1.0 in work[0][0] for example | work[i][j] starts at 0, so the left block is exactly inᵀ·in | not executed | Inverse.AsWrittenNeedsZeroedBuffer | Inverse.NormalEquations |
