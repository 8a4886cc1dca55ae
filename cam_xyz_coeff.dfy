/**
 * cam_xyz_coeff() of adobe_coeff.cpp: from a camera RGB -> XYZ matrix to
 * the white-balance coefficients and the camera RGB -> sRGB matrix.
 *
 *   cam_rgb = cam_xyz · XYZ_FROM_RGB
 *   r, g, b = 1 / (sum of row 0, 1, 2 of cam_rgb), before normalising
 *   cam_rgb' = cam_rgb with each row divided by its sum (in place)
 *   rgb_cam = transpose(pseudoinverse(cam_rgb'))
 *
 * The source divides by the row sums and the pivots without a check. Here
 * a zero row sum and a zero pivot are reported as errors, and on an error
 * nothing is written: neither the coefficients nor rgb_cam.
 */
module ColorProfile {
  import opened Matrices
  import opened Options
  import opened Inverse

  datatype Error =
    | UnknownModel    // no calibration entry matches the model name
    | DegenerateRow   // a row of cam_xyz · XYZ_FROM_RGB sums to zero
    | SingularMatrix  // a zero pivot in the pseudoinverse's elimination

  /** What cam_xyz_coeff() produces: the three coefficients and rgb_cam. */
  datatype Profile = Profile(r: real, g: real, b: real, rgbCam: Matrix)

  datatype Result = Ok(profile: Profile) | Err(error: Error)

  /** The caller's `struct RgbCoefficient`, written through a pointer. */
  class RgbCoefficient {
    var r: real
    var g: real
    var b: real

    constructor ()
      ensures r == 0.0 && g == 0.0 && b == 0.0
    {
      r, g, b := 0.0, 0.0, 0.0;
    }
  }

  /** Camera RGB -> sRGB, before normalisation (line 84). */
  function CamRgb(camXyz: Matrix): (m: Matrix)
    requires Is3x3(camXyz)
    ensures Is3x3(m)
  {
    Mul(camXyz, XyzFromRgb)
  }

  /**
   * The row sums of cam_rgb, whose reciprocals are the coefficients, are the
   * camera's response to D65 white: row i of cam_xyz applied to the XYZ
   * that XYZ_FROM_RGB gives for sRGB white.
   */
  lemma CamRgbRowSumIsWhiteResponse(camXyz: Matrix, i: nat)
    requires Is3x3(camXyz) && i < 3
    ensures RowSum(CamRgb(camXyz), i) ==
      camXyz[i][0] * 0.950456 + camXyz[i][1] * 1.0 + camXyz[i][2] * 1.088754
  {
    XyzFromRgbWhitePoint();
    var c := CamRgb(camXyz);
    assert c[i][0] == Dot(camXyz, XyzFromRgb, i, 0);
    assert c[i][1] == Dot(camXyz, XyzFromRgb, i, 1);
    assert c[i][2] == Dot(camXyz, XyzFromRgb, i, 2);
  }

  /** The whole of cam_xyz_coeff() on values. */
  function Derive(camXyz: Matrix): Result
    requires Is3x3(camXyz)
  {
    FromCamRgb(CamRgb(camXyz))
  }

  /** Lines 86-94: coefficients, normalisation, pseudoinverse and transpose of cam_rgb. */
  function FromCamRgb(camRgb: Matrix): Result
    requires Is3x3(camRgb)
  {
    if !NonzeroRowSums(camRgb) then Err(DegenerateRow)
    else
      match PinvTransposeOf(Normalize(camRgb))
      case None => Err(SingularMatrix)
      case Some(inverse) =>
        Ok(Profile(1.0 / RowSum(camRgb, 0), 1.0 / RowSum(camRgb, 1), 1.0 / RowSum(camRgb, 2),
                   Transpose(inverse)))
  }

  // ---------------------------------------------------------------------
  // Properties of the derived profile

  /** 1/s is the factor that scales s, and anything divided by s, back to 1 and to that thing over s. */
  lemma Reciprocal(s: real, x: real)
    requires s != 0.0
    ensures (1.0 / s) * s == 1.0 && x / s == x * (1.0 / s)
  {
  }

  /**
   * The coefficients are taken from the rows before normalisation: each is
   * the factor that turns its un-normalised row into the normalised one.
   */
  lemma CoefficientsScaleRows(camRgb: Matrix, i: nat, j: nat)
    requires Is3x3(camRgb) && FromCamRgb(camRgb).Ok? && i < 3 && j < 3
    ensures var p := FromCamRgb(camRgb).profile;
      var c := if i == 0 then p.r else if i == 1 then p.g else p.b;
      c * RowSum(camRgb, i) == 1.0 && Normalize(camRgb)[i][j] == camRgb[i][j] * c
  {
    Reciprocal(RowSum(camRgb, i), camRgb[i][j]);
  }

  /** rgb_cam undoes the normalised camera RGB -> sRGB matrix: rgb_cam · cam_rgb' = I. */
  lemma RgbCamInvertsCamRgb(camRgb: Matrix)
    requires Is3x3(camRgb) && FromCamRgb(camRgb).Ok?
    ensures Mul(FromCamRgb(camRgb).profile.rgbCam, Normalize(camRgb)) == Identity()
  {
    PseudoInverseIsLeftInverse(Normalize(camRgb));
  }

  /** The errors are exactly the two unguarded divisions of the source. */
  lemma FailsOnlyOnZeroDivisor(camRgb: Matrix)
    requires Is3x3(camRgb)
    ensures FromCamRgb(camRgb) == Err(DegenerateRow) <==> !NonzeroRowSums(camRgb)
    ensures FromCamRgb(camRgb) == Err(SingularMatrix) <==>
      NonzeroRowSums(camRgb) && Eliminate(Augment(Gram(Normalize(camRgb))), 3).None?
    ensures FromCamRgb(camRgb) != Err(UnknownModel)
  {
  }

  // ---------------------------------------------------------------------
  // cam_xyz_coeff() on arrays

  datatype Status = Success | Failure(error: Error)

  function StatusOf(d: Result): Status {
    if d.Ok? then Success else Failure(d.error)
  }

  /** cam_xyz_coeff(adobe_cam_xyz, rgbCoefficient, rgb_cam). */
  method CamXyzCoeff(camXyz: array2<real>, coeff: RgbCoefficient, rgbCam: array2<real>) returns (status: Status)
    requires IsArray3x3(camXyz) && IsArray3x3(rgbCam) && camXyz != rgbCam
    modifies coeff, rgbCam
    ensures var d := Derive(old(Value(camXyz)));
      && status == StatusOf(d)
      && (d.Ok? ==> coeff.r == d.profile.r && coeff.g == d.profile.g && coeff.b == d.profile.b
                    && Value(rgbCam) == d.profile.rgbCam)
      && (d.Err? ==> unchanged(coeff) && Value(rgbCam) == old(Value(rgbCam)))
  {
    var camRgb := new real[3, 3];
    var xyzFromRgb := NewMatrix(XyzFromRgb);
    MatrixMultiply(camXyz, xyzFromRgb, camRgb);
    status := FinishProfile(camRgb, coeff, rgbCam);
  }

  /** Lines 86-94, on the caller's fresh cam_rgb, which is normalised in place. */
  method FinishProfile(camRgb: array2<real>, coeff: RgbCoefficient, rgbCam: array2<real>) returns (status: Status)
    requires IsArray3x3(camRgb) && IsArray3x3(rgbCam) && camRgb != rgbCam
    modifies camRgb, coeff, rgbCam
    ensures var d := FromCamRgb(old(Value(camRgb)));
      && status == StatusOf(d)
      && (d.Ok? ==> coeff.r == d.profile.r && coeff.g == d.profile.g && coeff.b == d.profile.b
                    && Value(rgbCam) == d.profile.rgbCam)
      && (d.Err? ==> unchanged(coeff) && Value(rgbCam) == old(Value(rgbCam)))
  {
    ghost var unnormalised := Value(camRgb);
    var s0 := Sum(camRgb, 0, 3);
    var s1 := Sum(camRgb, 1, 3);
    var s2 := Sum(camRgb, 2, 3);
    SeqSumOfThree(unnormalised[0]);
    SeqSumOfThree(unnormalised[1]);
    SeqSumOfThree(unnormalised[2]);
    if s0 == 0.0 || s1 == 0.0 || s2 == 0.0 {
      return Failure(DegenerateRow);
    }
    var r, g, b := 1.0 / s0, 1.0 / s1, 1.0 / s2;
    MatrixNormalize(camRgb, camRgb);
    var inverse := new real[3, 3];
    var ok := PseudoInverse(camRgb, inverse);
    if !ok {
      return Failure(SingularMatrix);
    }
    MatrixTranspose(inverse, rgbCam);
    coeff.r, coeff.g, coeff.b := r, g, b;
    status := Success;
  }
}
