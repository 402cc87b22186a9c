/** The airfoil: a lift curve scaled to a range of angles of attack and lift
    coefficients, its stall peaks found by scanning the curve, and the lift
    and drag coefficients it produces for an angle of attack and flap and
    slat deflections. */
module Airfoils {
  import opened Wrappers
  import opened Scalars
  import opened Curves

  const FlapMessage: string := "flap_deg must be in [-45, 45] degrees"
  const SlatMessage: string := "slat_deg must be in [0, 45] degrees"

  /** The drag coefficient never exceeds this. */
  const MaxCd: real := 1.5

  datatype Coeffs = Coeffs(cl: real, cd: real)

  // ---------------------------------------------------------------------
  // The stall-peak scan

  /** The largest and smallest lift coefficient seen so far and the angles
      where they were first seen. */
  datatype Peaks = Peaks(maxCl: real, maxAngle: real, minCl: real, minAngle: real)

  const NoPeaks: Peaks := Peaks(0.0, 0.0, 0.0, 0.0)

  /** The `k`-th angle the scan visits: `-maxAoa` plus `k` steps of 0.1. */
  function ScanAngle(maxAoa: real, k: nat): real {
    -maxAoa + 0.1 * k as real
  }

  /** How many angles the scan visits: every `k` with
      `ScanAngle(maxAoa, k) <= maxAoa`. */
  function ScanCount(maxAoa: real): nat {
    if maxAoa < 0.0 then 0 else (20.0 * maxAoa).Floor + 1
  }

  lemma ScanCountBound(maxAoa: real, k: nat)
    ensures ScanAngle(maxAoa, k) <= maxAoa <==> k < ScanCount(maxAoa)
  {
  }

  /** One step of the scan: a strictly larger value replaces the maximum,
      then a strictly smaller one replaces the minimum. */
  function Update(p: Peaks, angle: real, cl: real): Peaks {
    var q := if cl > p.maxCl then p.(maxCl := cl, maxAngle := angle) else p;
    if cl < q.minCl then q.(minCl := cl, minAngle := angle) else q
  }

  /** The peaks after scanning the first `k` angles of curve `c`; the scan
      fails when sampling does. */
  function Scan(c: Curve, maxAoa: real, k: nat): Result<Peaks, Fault>
    reads c
  {
    if k == 0 then Success(NoPeaks)
    else
      var p :- Scan(c, maxAoa, k - 1);
      var cl :- c.Sample(ScanAngle(maxAoa, k - 1));
      Success(Update(p, ScanAngle(maxAoa, k - 1), cl))
  }

  /** Scan step `j` sampled `v`, and every earlier step sampled less. */
  ghost predicate FirstAbove(c: Curve, maxAoa: real, j: nat, v: real)
    reads c
  {
    && c.Sample(ScanAngle(maxAoa, j)) == Success(v)
    && forall i :: 0 <= i < j ==>
         c.Sample(ScanAngle(maxAoa, i)).Success? && c.Sample(ScanAngle(maxAoa, i)).value < v
  }

  /** Scan step `j` sampled `v`, and every earlier step sampled more. */
  ghost predicate FirstBelow(c: Curve, maxAoa: real, j: nat, v: real)
    reads c
  {
    && c.Sample(ScanAngle(maxAoa, j)) == Success(v)
    && forall i :: 0 <= i < j ==>
         c.Sample(ScanAngle(maxAoa, i)).Success? && c.Sample(ScanAngle(maxAoa, i)).value > v
  }

  /** The scan fails exactly when sampling fails, which does not depend on
      the angle. */
  lemma {:induction false} ScanFails(c: Curve, maxAoa: real, k: nat)
    ensures Scan(c, maxAoa, k).Failure? <==> 0 < k && c.Sample(0.0).Failure?
    ensures Scan(c, maxAoa, k).Failure? ==> Scan(c, maxAoa, k).error == c.Sample(0.0).error
  {
    if k > 0 {
      ScanFails(c, maxAoa, k - 1);
    }
  }

  /** After the scan the maximum is at least 0 and the minimum at most 0,
      every sampled value lies between them, and each is 0 at angle 0 or the
      first sample reaching it at that sample's angle. */
  lemma {:induction false} ScanPeaks(c: Curve, maxAoa: real, k: nat)
    requires Scan(c, maxAoa, k).Success?
    ensures Scan(c, maxAoa, k).value.minCl <= 0.0 <= Scan(c, maxAoa, k).value.maxCl
    ensures forall j :: 0 <= j < k ==>
              && c.Sample(ScanAngle(maxAoa, j)).Success?
              && Scan(c, maxAoa, k).value.minCl <= c.Sample(ScanAngle(maxAoa, j)).value
              && c.Sample(ScanAngle(maxAoa, j)).value <= Scan(c, maxAoa, k).value.maxCl
    ensures var p := Scan(c, maxAoa, k).value;
            || (p.maxCl == 0.0 && p.maxAngle == 0.0)
            || (exists j :: 0 <= j < k && p.maxAngle == ScanAngle(maxAoa, j) && FirstAbove(c, maxAoa, j, p.maxCl))
    ensures var p := Scan(c, maxAoa, k).value;
            || (p.minCl == 0.0 && p.minAngle == 0.0)
            || (exists j :: 0 <= j < k && p.minAngle == ScanAngle(maxAoa, j) && FirstBelow(c, maxAoa, j, p.minCl))
  {
    if k > 0 {
      ScanPeaks(c, maxAoa, k - 1);
      var p := Scan(c, maxAoa, k - 1).value;
      var x := ScanAngle(maxAoa, k - 1);
      var cl := c.Sample(x).value;
      var q := Scan(c, maxAoa, k).value;
      assert q == Update(p, x, cl);
      if cl > p.maxCl {
        assert FirstAbove(c, maxAoa, k - 1, cl);
      }
      if cl < p.minCl {
        assert FirstBelow(c, maxAoa, k - 1, cl);
      }
    }
  }

  // ---------------------------------------------------------------------
  // The airfoil

  class Airfoil {
    const clVsAoaCurve: Curve
    const maxSampledStallAngle: real
    const minSampledStallAngle: real
    const maxSampledCl: real
    const minSampledCl: real
    const sweepDeg: real
    const flapEffPerDeg: real
    const slatEffPerDeg: real
    const baseCd: real
    const cdAoa2Scale: real
    const flapCdEffPerDeg: real
    const slatCdEffPerDeg: real

    /** Stores a curve already scaled and scanned, with its peaks and the
        coefficients; `Create` is the constructor of the source. */
    constructor (curve: Curve, peaks: Peaks, sweepDeg: real, flapEffPerDeg: real,
                 slatEffPerDeg: real, baseCd: real, cdAoa2Scale: real,
                 flapCdEffPerDeg: real, slatCdEffPerDeg: real)
      ensures clVsAoaCurve == curve
      ensures maxSampledCl == peaks.maxCl && maxSampledStallAngle == peaks.maxAngle
      ensures minSampledCl == peaks.minCl && minSampledStallAngle == peaks.minAngle
      ensures this.sweepDeg == sweepDeg && this.flapEffPerDeg == flapEffPerDeg
      ensures this.slatEffPerDeg == slatEffPerDeg && this.baseCd == baseCd
      ensures this.cdAoa2Scale == cdAoa2Scale && this.flapCdEffPerDeg == flapCdEffPerDeg
      ensures this.slatCdEffPerDeg == slatCdEffPerDeg
    {
      clVsAoaCurve := curve;
      maxSampledCl, maxSampledStallAngle := peaks.maxCl, peaks.maxAngle;
      minSampledCl, minSampledStallAngle := peaks.minCl, peaks.minAngle;
      this.sweepDeg := sweepDeg;
      this.flapEffPerDeg := flapEffPerDeg;
      this.slatEffPerDeg := slatEffPerDeg;
      this.baseCd := baseCd;
      this.cdAoa2Scale := cdAoa2Scale;
      this.flapCdEffPerDeg := flapCdEffPerDeg;
      this.slatCdEffPerDeg := slatCdEffPerDeg;
    }

    /** The constructor of the source: copy the curve, give it the domain
        [-curveMaxAoaDeg, curveMaxAoaDeg] and the range [-curveMaxCl,
        curveMaxCl], then sample it every 0.1 degrees across the domain,
        keeping the extremes and where they were first reached.  A failing
        sample aborts construction. */
    static method Create(clVsAoaCurve: Curve, curveMaxCl: real := 2.4,
                         curveMaxAoaDeg: real := 30.0, sweepDeg: real := 40.0,
                         flapEffPerDeg: real := 0.015, slatEffPerDeg: real := 0.015,
                         baseCd: real := 0.02, cdAoa2Scale: real := 0.0002,
                         flapCdEffPerDeg: real := 0.001, slatCdEffPerDeg: real := 0.001)
      returns (r: Result<Airfoil, Fault>)
      ensures r.Failure? <==>
                0.0 <= curveMaxAoaDeg && (clVsAoaCurve.yData == [] || curveMaxAoaDeg == 0.0)
      ensures r.Failure? ==>
                r.error == (if clVsAoaCurve.yData == [] then RuntimeError(EmptyMessage) else NotFinite)
      ensures r.Success? ==> fresh(r.value) && fresh(r.value.clVsAoaCurve)
      ensures r.Success? ==> var c := r.value.clVsAoaCurve;
                && c.yData == clVsAoaCurve.yData
                && c.xMin == -curveMaxAoaDeg && c.xMax == curveMaxAoaDeg
                && c.yMin == -curveMaxCl && c.yMax == curveMaxCl
      ensures r.Success? ==> var a := r.value;
                && Scan(a.clVsAoaCurve, curveMaxAoaDeg, ScanCount(curveMaxAoaDeg)).Success?
                && Peaks(a.maxSampledCl, a.maxSampledStallAngle, a.minSampledCl, a.minSampledStallAngle)
                   == Scan(a.clVsAoaCurve, curveMaxAoaDeg, ScanCount(curveMaxAoaDeg)).value
      ensures r.Success? ==> var a := r.value;
                && a.sweepDeg == sweepDeg && a.flapEffPerDeg == flapEffPerDeg
                && a.slatEffPerDeg == slatEffPerDeg && a.baseCd == baseCd
                && a.cdAoa2Scale == cdAoa2Scale && a.flapCdEffPerDeg == flapCdEffPerDeg
                && a.slatCdEffPerDeg == slatCdEffPerDeg
    {
      var curve := new Curve.Copy(clVsAoaCurve);
      curve.SetXRange(-curveMaxAoaDeg, curveMaxAoaDeg);
      curve.SetYRange(-curveMaxCl, curveMaxCl);
      var peaks := ScanCurve(curve, curveMaxAoaDeg);
      ScanFails(curve, curveMaxAoaDeg, ScanCount(curveMaxAoaDeg));
      if peaks.Failure? {
        return Failure(peaks.error);
      }
      var airfoil := new Airfoil(curve, peaks.value, sweepDeg,
                                 flapEffPerDeg, slatEffPerDeg, baseCd, cdAoa2Scale,
                                 flapCdEffPerDeg, slatCdEffPerDeg);
      return Success(airfoil);
    }

    /** The stall-peak scan of the constructor: sample `curve` every 0.1
        degrees from `-maxAoa` while the angle is at most `maxAoa`, keeping
        the extremes and where they were first reached. */
    static method ScanCurve(curve: Curve, maxAoa: real) returns (r: Result<Peaks, Fault>)
      ensures r == Scan(curve, maxAoa, ScanCount(maxAoa))
    {
      var maxCl, maxAngle, minCl, minAngle := 0.0, 0.0, 0.0, 0.0;
      var x := -maxAoa;
      ghost var k: nat := 0;
      ScanCountBound(maxAoa, 0);
      while x <= maxAoa
        invariant k <= ScanCount(maxAoa)
        invariant x == ScanAngle(maxAoa, k)
        invariant Scan(curve, maxAoa, k) == Success(Peaks(maxCl, maxAngle, minCl, minAngle))
        decreases ScanCount(maxAoa) - k
      {
        ScanCountBound(maxAoa, k);
        var y := curve.Sample(x);
        if y.Failure? {
          ScanFails(curve, maxAoa, k + 1);
          ScanFails(curve, maxAoa, ScanCount(maxAoa));
          return Failure(y.error);
        }
        if y.value > maxCl {
          maxCl, maxAngle := y.value, x;
        }
        if y.value < minCl {
          minCl, minAngle := y.value, x;
        }
        x := x + 0.1;
        k := k + 1;
        ScanCountBound(maxAoa, k);
      }
      ScanCountBound(maxAoa, k);
      return Success(Peaks(maxCl, maxAngle, minCl, minAngle));
    }

    /** `(cl_max + slat_eff_per_deg * slat_deg) / cl_max`, the factor by which
        slats stretch the lift curve; `None` when the curve maximum is zero and
        the quotient is infinite or NaN.  Slats that cancel the maximum exactly
        give the finite factor 0. */
    function CurveScale(slatDeg: real): (r: Option<real>)
      reads clVsAoaCurve
      ensures r.None? <==> clVsAoaCurve.yMax == 0.0
      ensures r.Some? ==> r.value * clVsAoaCurve.yMax == clVsAoaCurve.yMax + slatEffPerDeg * slatDeg
      ensures r.Some? ==> (r.value == 0.0 <==> clVsAoaCurve.yMax + slatEffPerDeg * slatDeg == 0.0)
      ensures slatDeg == 0.0 && clVsAoaCurve.yMax != 0.0 ==> r == Some(1.0)
    {
      var clMax := clVsAoaCurve.yMax;
      var dClMax := slatEffPerDeg * slatDeg;
      if clMax == 0.0 then None
      else
        QuotientCancels(clMax + dClMax, clMax);
        assert slatDeg == 0.0 ==> dClMax == 0.0 && (clMax + dClMax) / clMax == 1.0;
        Some((clMax + dClMax) / clMax)
    }

    /** `sample(aoa / curve_scale) * curve_scale`: the lift curve read at an
        angle shrunk by the slats' stretch, scaled back up.  A zero stretch
        turns a non-zero angle into an infinity of its sign, which the curve's
        clamp saturates to that end of its domain, and the finite sample times
        0 is 0; a zero angle over a zero stretch is NaN. */
    function Stretched(aoa: real, scale: real): (r: Result<real, Fault>)
      reads clVsAoaCurve
      ensures clVsAoaCurve.yData == [] ==> r == Failure(RuntimeError(EmptyMessage))
      ensures scale == 1.0 ==> r == clVsAoaCurve.Sample(aoa)
      ensures scale == 0.0 && aoa != 0.0 && clVsAoaCurve.yData != [] && clVsAoaCurve.xMin != clVsAoaCurve.xMax ==>
                r == Success(0.0)
      ensures scale == 0.0 && aoa == 0.0 ==> r.Failure?
      ensures r.Failure? && clVsAoaCurve.yData != [] ==> r.error == NotFinite
    {
      if scale == 0.0 then
        if aoa == 0.0 then
          if clVsAoaCurve.yData == [] then Failure(RuntimeError(EmptyMessage)) else Failure(NotFinite)
        else
          var end :- clVsAoaCurve.Sample(if aoa > 0.0 then clVsAoaCurve.xMax else clVsAoaCurve.xMin);
          Success(end * 0.0)
      else
        var sample := clVsAoaCurve.Sample(aoa / scale);
        if sample.Failure? then sample
        else
          assert scale == 1.0 ==> aoa / scale == aoa && sample.value * scale == sample.value;
          Success(sample.value * scale)
    }

    /** How much of the flap's lift survives at angle `aoa`: above zero it
        fades out by smoothstep between the positive stall angle and the
        top of the domain, below it fades in between the bottom of the domain
        and the negative stall angle.  `None` is smoothstep's NaN. */
    function FlapEffectiveness(aoa: real): (r: Option<real>)
      reads clVsAoaCurve
      ensures r.Some? ==> 0.0 <= r.value <= 1.0
      ensures 0.0 < aoa && maxSampledStallAngle < clVsAoaCurve.xMax <= aoa ==> r == Some(0.0)
      ensures 0.0 < aoa <= maxSampledStallAngle < clVsAoaCurve.xMax ==> r == Some(1.0)
      ensures aoa <= 0.0 && aoa <= clVsAoaCurve.xMin < minSampledStallAngle ==> r == Some(0.0)
      ensures aoa <= 0.0 && clVsAoaCurve.xMin < minSampledStallAngle <= aoa ==> r == Some(1.0)
    {
      if aoa > 0.0 then
        match Smoothstep(maxSampledStallAngle, clVsAoaCurve.xMax, aoa)
        case None => None
        case Some(s) => Some(1.0 - s)
      else
        Smoothstep(clVsAoaCurve.xMin, minSampledStallAngle, aoa)
    }

    /** The drag coefficient at a (clamped) angle of attack: the base plus a
        quadratic term in the angle and linear terms in the deflections,
        clamped to [baseCd, 1.5]. */
    function DragCoefficient(aoa: real, flapDeg: real, slatDeg: real): (r: real)
      ensures baseCd <= MaxCd ==> baseCd <= r <= MaxCd
      ensures MaxCd < baseCd ==> r == MaxCd
    {
      Clamp(baseCd + cdAoa2Scale * aoa * aoa + flapCdEffPerDeg * Abs(flapDeg)
              + slatCdEffPerDeg * Abs(slatDeg), baseCd, MaxCd)
    }

    /** `calc_coeffs`: clamp the angle of attack to the curve's domain,
        reject deflections out of range, read the lift curve stretched by the
        slats, add the flap's lift weighted by its effectiveness, reduce by
        cos(sweep) for a swept wing, and compute the drag coefficient.  When
        the slat stretch is not finite the curve is still sampled first (and
        throws if it is empty); the result is then not finite. */
    function CalcCoeffs(m: Transcendentals, aoaDeg: real, flapDeg: real := 0.0, slatDeg: real := 0.0)
      : (r: Result<Coeffs, Fault>)
      reads clVsAoaCurve
      ensures flapDeg < -45.0 || 45.0 < flapDeg ==> r == Failure(InvalidArgument(FlapMessage))
      ensures -45.0 <= flapDeg <= 45.0 && (slatDeg < 0.0 || 45.0 < slatDeg) ==>
                r == Failure(InvalidArgument(SlatMessage))
      ensures -45.0 <= flapDeg <= 45.0 && 0.0 <= slatDeg <= 45.0 && clVsAoaCurve.yData == [] ==>
                r == Failure(RuntimeError(EmptyMessage))
      ensures -45.0 <= flapDeg <= 45.0 && 0.0 <= slatDeg <= 45.0 && clVsAoaCurve.yData != [] && r.Failure? ==>
                r.error == NotFinite
      ensures var aoa := Clamp(aoaDeg, clVsAoaCurve.xMin, clVsAoaCurve.xMax);
              r.Success? <==> LiftDefined(aoa, flapDeg, slatDeg)
      ensures var aoa := Clamp(aoaDeg, clVsAoaCurve.xMin, clVsAoaCurve.xMax);
              r.Success? ==> && r.value.cl == Swept(m, Lift(aoa, flapDeg, slatDeg))
                             && r.value.cd == DragCoefficient(aoa, flapDeg, slatDeg)
    {
      CoeffsAt(m, Clamp(aoaDeg, clVsAoaCurve.xMin, clVsAoaCurve.xMax), flapDeg, slatDeg)
    }

    /** The deflections pass their checks and every step of the lift
        coefficient is finite. */
    predicate LiftDefined(aoa: real, flapDeg: real, slatDeg: real)
      reads clVsAoaCurve
    {
      && -45.0 <= flapDeg <= 45.0 && 0.0 <= slatDeg <= 45.0
      && CurveScale(slatDeg).Some? && FlapEffectiveness(aoa).Some?
      && Stretched(aoa, CurveScale(slatDeg).value).Success?
    }

    /** The lift coefficient before the sweep: the stretched curve plus the
        flap's lift weighted by its effectiveness. */
    function Lift(aoa: real, flapDeg: real, slatDeg: real): real
      reads clVsAoaCurve
      requires LiftDefined(aoa, flapDeg, slatDeg)
    {
      Stretched(aoa, CurveScale(slatDeg).value).value + FlapLift(aoa, flapDeg)
    }

    /** The flap's lift: its effectiveness at this angle times the lift per
        degree times the deflection. */
    function FlapLift(aoa: real, flapDeg: real): real
      reads clVsAoaCurve
      requires FlapEffectiveness(aoa).Some?
    {
      FlapEffectiveness(aoa).value * flapEffPerDeg * flapDeg
    }

    /** A swept wing (sweep above zero) loses lift by the cosine of its sweep;
        any other keeps it. */
    function Swept(m: Transcendentals, cl: real): (r: real)
      ensures sweepDeg <= 0.0 ==> r == cl
      ensures sweepDeg > 0.0 ==> r == cl * m.cos(Radians(sweepDeg))
    {
      if sweepDeg > 0.0 then cl * m.cos(Radians(sweepDeg)) else cl
    }

    /** The body of `calc_coeffs` once the angle of attack is clamped. */
    function CoeffsAt(m: Transcendentals, aoa: real, flapDeg: real, slatDeg: real)
      : (r: Result<Coeffs, Fault>)
      reads clVsAoaCurve
      ensures flapDeg < -45.0 || 45.0 < flapDeg ==> r == Failure(InvalidArgument(FlapMessage))
      ensures -45.0 <= flapDeg <= 45.0 && (slatDeg < 0.0 || 45.0 < slatDeg) ==>
                r == Failure(InvalidArgument(SlatMessage))
      ensures -45.0 <= flapDeg <= 45.0 && 0.0 <= slatDeg <= 45.0 && clVsAoaCurve.yData == [] ==>
                r == Failure(RuntimeError(EmptyMessage))
      ensures -45.0 <= flapDeg <= 45.0 && 0.0 <= slatDeg <= 45.0 && clVsAoaCurve.yData != [] && r.Failure? ==>
                r.error == NotFinite
      ensures r.Success? <==> LiftDefined(aoa, flapDeg, slatDeg)
      ensures r.Success? ==> && r.value.cl == Swept(m, Lift(aoa, flapDeg, slatDeg))
                             && r.value.cd == DragCoefficient(aoa, flapDeg, slatDeg)
    {
      if flapDeg < -45.0 || 45.0 < flapDeg then Failure(InvalidArgument(FlapMessage))
      else if slatDeg < 0.0 || 45.0 < slatDeg then Failure(InvalidArgument(SlatMessage))
      else
        var scale := CurveScale(slatDeg);
        var stretched :- Stretched(aoa, if scale.Some? then scale.value else 1.0);
        var factor := FlapEffectiveness(aoa);
        if scale.None? || factor.None? then Failure(NotFinite)
        else
          var cl := stretched + FlapLift(aoa, flapDeg);
          Success(Coeffs(Swept(m, cl), DragCoefficient(aoa, flapDeg, slatDeg)))
    }
  }

  // ---------------------------------------------------------------------
  // Properties of the coefficients

  /** Only the clamped angle of attack matters. */
  lemma CoeffsClampAoa(a: Airfoil, m: Transcendentals, aoaDeg: real, flapDeg: real, slatDeg: real)
    ensures var c := a.clVsAoaCurve;
            a.CalcCoeffs(m, aoaDeg, flapDeg, slatDeg) == a.CalcCoeffs(m, Clamp(aoaDeg, c.xMin, c.xMax), flapDeg, slatDeg)
  {
    ClampIdempotent(aoaDeg, a.clVsAoaCurve.xMin, a.clVsAoaCurve.xMax);
  }

  /** With no slat and no flap deflection the lift coefficient is the lift
      curve read at the clamped angle, reduced by cos(sweep) when the wing is
      swept. */
  lemma CleanWingReadsCurve(a: Airfoil, m: Transcendentals, aoaDeg: real)
    requires a.clVsAoaCurve.yMax != 0.0
    requires a.FlapEffectiveness(Clamp(aoaDeg, a.clVsAoaCurve.xMin, a.clVsAoaCurve.xMax)).Some?
    ensures a.clVsAoaCurve.Sample(Clamp(aoaDeg, a.clVsAoaCurve.xMin, a.clVsAoaCurve.xMax)).Failure? ==>
              a.CalcCoeffs(m, aoaDeg) ==
                Failure(a.clVsAoaCurve.Sample(Clamp(aoaDeg, a.clVsAoaCurve.xMin, a.clVsAoaCurve.xMax)).error)
    ensures a.clVsAoaCurve.Sample(Clamp(aoaDeg, a.clVsAoaCurve.xMin, a.clVsAoaCurve.xMax)).Success? ==>
              a.CalcCoeffs(m, aoaDeg).Success? &&
              a.CalcCoeffs(m, aoaDeg).value.cd ==
                a.DragCoefficient(Clamp(aoaDeg, a.clVsAoaCurve.xMin, a.clVsAoaCurve.xMax), 0.0, 0.0) &&
              a.CalcCoeffs(m, aoaDeg).value.cl ==
                var cl := a.clVsAoaCurve.Sample(Clamp(aoaDeg, a.clVsAoaCurve.xMin, a.clVsAoaCurve.xMax)).value;
                if a.sweepDeg > 0.0 then cl * m.cos(Radians(a.sweepDeg)) else cl
  {
    var c := a.clVsAoaCurve;
    var aoa := Clamp(aoaDeg, c.xMin, c.xMax);
    assert a.CurveScale(0.0) == Some(1.0);
    assert a.Stretched(aoa, 1.0) == c.Sample(aoa);
    var f := a.FlapEffectiveness(aoa).value;
    assert a.FlapLift(aoa, 0.0) == f * a.flapEffPerDeg * 0.0 == 0.0;
    assert a.CalcCoeffs(m, aoaDeg) == a.CoeffsAt(m, aoa, 0.0, 0.0);
    if c.Sample(aoa).Success? {
      var cl := c.Sample(aoa).value;
      assert a.LiftDefined(aoa, 0.0, 0.0);
      assert a.Lift(aoa, 0.0, 0.0) == cl;
      assert a.CalcCoeffs(m, aoaDeg) == Success(Coeffs(a.Swept(m, cl), a.DragCoefficient(aoa, 0.0, 0.0)));
      assert a.Swept(m, cl) == (if a.sweepDeg > 0.0 then cl * m.cos(Radians(a.sweepDeg)) else cl);
    }
  }

  /** Slats that cancel the curve maximum exactly (a zero stretch) leave
      only the flap's lift at a non-zero angle: the saturated sample is
      multiplied by 0. */
  lemma CancelledStretchLeavesFlapLift(a: Airfoil, m: Transcendentals, aoa: real, flapDeg: real, slatDeg: real)
    requires -45.0 <= flapDeg <= 45.0 && 0.0 <= slatDeg <= 45.0
    requires a.clVsAoaCurve.yMax != 0.0 && a.clVsAoaCurve.yMax + a.slatEffPerDeg * slatDeg == 0.0
    requires a.clVsAoaCurve.yData != [] && a.clVsAoaCurve.xMin != a.clVsAoaCurve.xMax
    requires aoa != 0.0 && a.FlapEffectiveness(aoa).Some?
    ensures a.CoeffsAt(m, aoa, flapDeg, slatDeg).Success?
    ensures a.CoeffsAt(m, aoa, flapDeg, slatDeg).value.cl
            == a.Swept(m, a.FlapLift(aoa, flapDeg))
  {
    assert a.CurveScale(slatDeg) == Some(0.0);
  }

  /** With non-negative coefficients the drag coefficient does not decrease
      as the squared angle of attack or the deflection magnitudes grow. */
  lemma DragMonotone(a: Airfoil, aoa1: real, flap1: real, slat1: real,
                     aoa2: real, flap2: real, slat2: real)
    requires 0.0 <= a.cdAoa2Scale && 0.0 <= a.flapCdEffPerDeg && 0.0 <= a.slatCdEffPerDeg
    requires aoa1 * aoa1 <= aoa2 * aoa2
    requires Abs(flap1) <= Abs(flap2) && Abs(slat1) <= Abs(slat2)
    ensures a.DragCoefficient(aoa1, flap1, slat1) <= a.DragCoefficient(aoa2, flap2, slat2)
  {
    MulNonNegative(a.cdAoa2Scale, aoa2 * aoa2 - aoa1 * aoa1);
    MulNonNegative(a.flapCdEffPerDeg, Abs(flap2) - Abs(flap1));
    MulNonNegative(a.slatCdEffPerDeg, Abs(slat2) - Abs(slat1));
    assert a.cdAoa2Scale * aoa1 * aoa1 <= a.cdAoa2Scale * aoa2 * aoa2;
    ClampMonotone(
      a.baseCd + a.cdAoa2Scale * aoa1 * aoa1 + a.flapCdEffPerDeg * Abs(flap1) + a.slatCdEffPerDeg * Abs(slat1),
      a.baseCd + a.cdAoa2Scale * aoa2 * aoa2 + a.flapCdEffPerDeg * Abs(flap2) + a.slatCdEffPerDeg * Abs(slat2),
      a.baseCd, MaxCd);
  }
}
