/** A wing: a list of sections sharing one airfoil.  For each section the
    wing computes a lift and a drag force and where they act, then one
    induced-drag force for the whole wing. */
module Wings {
  import opened Wrappers
  import opened Scalars
  import opened Curves
  import opened Airfoils

  /** One spanwise section; `chordwiseShift` is its backward shift relative
      to the previous section. */
  datatype WingSection = WingSection(
    span: real,
    chord: real,
    chordwiseShift: real,
    hasAileron: bool,
    hasFlap: bool,
    hasSlat: bool)

  /** A force along the wing's lift or drag direction and where it acts:
      spanwise towards the tip, chordwise towards the trailing edge. */
  datatype WingForceVec = WingForceVec(force: real, originSpanwise: real, originChordwise: real)

  datatype WingForces = WingForces(
    sectionalLift: seq<WingForceVec>,
    sectionalDrag: seq<WingForceVec>,
    inducedDrag: WingForceVec)

  /** The airspeed (m/s) and angle of attack (degrees) at one section. */
  datatype WingSpeedAoa = WingSpeedAoa(speed: real, aoa: real)

  const DefaultSpanEfficiency: real := 0.85
  const DefaultAirDensity: real := 1.225

  // ---------------------------------------------------------------------
  // Section geometry

  function Area(s: WingSection): real {
    s.span * s.chord
  }

  /** The span of the first `k` sections. */
  function SpanTo(secs: seq<WingSection>, k: nat): real
    requires k <= |secs|
  {
    if k == 0 then 0.0 else SpanTo(secs, k - 1) + secs[k - 1].span
  }

  /** The chordwise shift accumulated over the first `k` sections. */
  function ShiftTo(secs: seq<WingSection>, k: nat): real
    requires k <= |secs|
  {
    if k == 0 then 0.0 else ShiftTo(secs, k - 1) + secs[k - 1].chordwiseShift
  }

  /** The area of the first `k` sections. */
  function AreaTo(secs: seq<WingSection>, k: nat): real
    requires k <= |secs|
  {
    if k == 0 then 0.0 else AreaTo(secs, k - 1) + Area(secs[k - 1])
  }

  /** A section may carry an aileron or a flap, not both. */
  predicate Conflicting(s: WingSection) {
    s.hasAileron && s.hasFlap
  }

  function DigitChar(d: nat): (c: char)
    requires d < 10
    ensures '0' <= c <= '9' && c as int - '0' as int == d
  {
    "0123456789"[d]
  }

  /** The number a string of decimal digits spells, most significant first. */
  function DigitsValue(s: string): nat
    requires forall j :: 0 <= j < |s| ==> '0' <= s[j] <= '9'
  {
    if s == [] then 0
    else DigitsValue(s[..|s| - 1]) * 10 + (s[|s| - 1] as int - '0' as int)
  }

  /** `std::to_string` of a non-negative integer: the decimal digits that
      spell it, with no leading zero. */
  function NatToString(n: nat): (r: string)
    ensures 0 < |r|
    ensures forall j :: 0 <= j < |r| ==> '0' <= r[j] <= '9'
    ensures DigitsValue(r) == n
    ensures |r| > 1 || 0 < n ==> r[0] != '0'
  {
    if n < 10 then [DigitChar(n)]
    else
      var r := NatToString(n / 10) + [DigitChar(n % 10)];
      assert r[..|r| - 1] == NatToString(n / 10);
      r
  }

  function ConflictMessage(i: nat): string {
    "section " + NatToString(i) + " cannot have both aileron and flap"
  }

  /** Different sections give different conflict messages, so the message
      names the section it was raised for. */
  lemma ConflictMessageNamesSection(i: nat, j: nat)
    requires ConflictMessage(i) == ConflictMessage(j)
    ensures i == j
  {
    var prefix := "section ";
    var msg := ConflictMessage(i);
    assert |NatToString(i)| == |NatToString(j)|;
    assert NatToString(i) == msg[|prefix|..|prefix| + |NatToString(i)|];
    assert NatToString(j) == ConflictMessage(j)[|prefix|..|prefix| + |NatToString(j)|];
  }

  // ---------------------------------------------------------------------
  // Per-section arithmetic

  /** What reaches a section's flap input: the aileron deflection if it has
      an aileron plus the flap deflection if it has a flap. */
  function FlapArg(s: WingSection, aileronDeg: real, flapDeg: real): (r: real)
    ensures !s.hasAileron && !s.hasFlap ==> r == 0.0
    ensures s.hasAileron && !s.hasFlap ==> r == aileronDeg
    ensures !s.hasAileron && s.hasFlap ==> r == flapDeg
    ensures s.hasAileron && s.hasFlap ==> r == aileronDeg + flapDeg
  {
    Indicator(s.hasAileron) * aileronDeg + Indicator(s.hasFlap) * flapDeg
  }

  /** What reaches a section's slat input. */
  function SlatArg(s: WingSection, slatDeg: real): (r: real)
    ensures r == (if s.hasSlat then slatDeg else 0.0)
  {
    Indicator(s.hasSlat) * slatDeg
  }

  /** Deflections that every section passes to the airfoil within its
      bounds: an aileron, a flap and their sum within ±45 degrees, and a
      slat within [0, 45]. */
  predicate DeflectionsInRange(aileronDeg: real, flapDeg: real, slatDeg: real) {
    && -45.0 <= aileronDeg <= 45.0 && -45.0 <= flapDeg <= 45.0
    && -45.0 <= aileronDeg + flapDeg <= 45.0 && 0.0 <= slatDeg <= 45.0
  }

  /** Deflections in range reach every section within the airfoil's
      bounds, whatever surfaces the section carries. */
  lemma RoutedDeflectionsInRange(s: WingSection, aileronDeg: real, flapDeg: real, slatDeg: real)
    requires DeflectionsInRange(aileronDeg, flapDeg, slatDeg)
    ensures -45.0 <= FlapArg(s, aileronDeg, flapDeg) <= 45.0
    ensures 0.0 <= SlatArg(s, slatDeg) <= 45.0
  {
  }

  /** `air_density * speed * speed * 0.5`. */
  function DynamicPressure(density: real, speed: real): real {
    density * speed * speed * 0.5
  }

  /** Dynamic pressure is linear in density and quadratic in speed. */
  lemma DynamicPressureScaling(density: real, speed: real, k: real)
    ensures DynamicPressure(k * density, speed) == k * DynamicPressure(density, speed)
    ensures DynamicPressure(density, k * speed) == k * k * DynamicPressure(density, speed)
  {
  }

  /** The force of a coefficient at a speed on an area. */
  function ForceOf(coeff: real, density: real, speed: real, area: real): real {
    coeff * DynamicPressure(density, speed) * area
  }

  /** Section `i`'s lift: at a quarter chord ahead of the section's
      accumulated shift, halfway across its span. */
  function LiftVec(secs: seq<WingSection>, i: nat, cl: real, speed: real, density: real): WingForceVec
    requires i < |secs|
  {
    WingForceVec(
      ForceOf(cl, density, speed, Area(secs[i])),
      SpanTo(secs, i + 1) - secs[i].span * 0.5,
      ShiftTo(secs, i + 1) - secs[i].chord * 0.25)
  }

  /** Section `i`'s drag: at the section's accumulated shift, halfway across
      its span. */
  function DragVec(secs: seq<WingSection>, i: nat, cd: real, speed: real, density: real): WingForceVec
    requires i < |secs|
  {
    WingForceVec(
      ForceOf(cd, density, speed, Area(secs[i])),
      SpanTo(secs, i + 1) - secs[i].span * 0.5,
      ShiftTo(secs, i + 1))
  }

  /** A section's lift as the loop of the source computes it, from the span
      and shift accumulated up to and including the section. */
  function RunningLift(sec: WingSection, cl: real, speed: real, density: real, span: real, shift: real)
    : WingForceVec
  {
    WingForceVec(ForceOf(cl, density, speed, sec.span * sec.chord),
                 span - sec.span * 0.5, shift - sec.chord * 0.25)
  }

  /** A section's drag as the loop of the source computes it. */
  function RunningDrag(sec: WingSection, cd: real, speed: real, density: real, span: real, shift: real)
    : WingForceVec
  {
    WingForceVec(ForceOf(cd, density, speed, sec.span * sec.chord), span - sec.span * 0.5, shift)
  }

  /** Section `i`'s forces as the running sums of the source compute them
      agree with the closed forms over the sections before it. */
  lemma RunningSumForm(secs: seq<WingSection>, i: nat, cl: real, cd: real, speed: real, density: real,
                       span: real, shift: real)
    requires i < |secs|
    requires span == SpanTo(secs, i) + secs[i].span && shift == ShiftTo(secs, i) + secs[i].chordwiseShift
    ensures LiftVec(secs, i, cl, speed, density) == RunningLift(secs[i], cl, speed, density, span, shift)
    ensures DragVec(secs, i, cd, speed, density) == RunningDrag(secs[i], cd, speed, density, span, shift)
  {
    assert SpanTo(secs, i + 1) == span && ShiftTo(secs, i + 1) == shift;
    assert Area(secs[i]) == secs[i].span * secs[i].chord;
  }

  /** The lift coefficient recovered from a section's lift force, 0 where
      the division is 0 / 0 (no dynamic pressure or no area). */
  function SectionCl(lift: real, density: real, speed: real, area: real): (r: real)
    ensures DynamicPressure(density, speed) == 0.0 || area == 0.0 ==> r == 0.0
  {
    var q := DynamicPressure(density, speed);
    if q == 0.0 || area == 0.0 then 0.0 else lift / q / area
  }

  /** Recovering the coefficient from the force gives back the coefficient
      wherever the force is not degenerate. */
  lemma SectionClRecovers(cl: real, density: real, speed: real, area: real)
    requires DynamicPressure(density, speed) != 0.0 && area != 0.0
    ensures SectionCl(ForceOf(cl, density, speed, area), density, speed, area) == cl
  {
    var q := DynamicPressure(density, speed);
    var f := ForceOf(cl, density, speed, area);
    assert f == cl * q * area;
    assert SectionCl(f, density, speed, area) == f / q / area;
    CancelProduct(cl, q, area);
  }

  lemma CancelProduct(a: real, b: real, c: real)
    requires b != 0.0 && c != 0.0
    ensures a * b * c / b / c == a
  {
    assert a * b * c / b == a * c;
  }

  // ---------------------------------------------------------------------
  // Sums over the sections for the induced drag

  /** The area-weighted sum of the first `k` sections' lift coefficients. */
  function ClSum(secs: seq<WingSection>, lifts: seq<WingForceVec>, speedAoa: seq<WingSpeedAoa>,
                 density: real, k: nat): real
    requires k <= |secs| && k <= |lifts| && k <= |speedAoa|
  {
    if k == 0 then 0.0
    else
      var a := Area(secs[k - 1]);
      ClSum(secs, lifts, speedAoa, density, k - 1)
        + SectionCl(lifts[k - 1].force, density, speedAoa[k - 1].speed, a) * a
  }

  /** The area-weighted sum of the first `k` sections' speeds. */
  function SpeedSum(secs: seq<WingSection>, speedAoa: seq<WingSpeedAoa>, k: nat): real
    requires k <= |secs| && k <= |speedAoa|
  {
    if k == 0 then 0.0
    else SpeedSum(secs, speedAoa, k - 1) + speedAoa[k - 1].speed * Area(secs[k - 1])
  }

  /** The induced drag of the whole wing from its sums: the total span, the
      chord-times-span sum, the area-weighted sums of lift coefficients and
      speeds, and the total area.  It is halved for one side and acts at half
      the span, halfway between the first and last drag origins.  Zero total
      span or area, or a zero effective aspect ratio or efficiency, divide by
      zero in the source. */
  function InducedFromSums(span: real, chordSpan: real, clSum: real, speedSum: real, totalArea: real,
                           density: real, sweepDeg: real, spanEfficiency: real, m: Transcendentals,
                           frontChordwise: real, backChordwise: real): (r: Result<WingForceVec, Fault>)
    ensures r.Failure? ==> r.error == NotFinite
    ensures span == 0.0 || totalArea == 0.0 ==> r.Failure?
    ensures r.Success? ==> r.value.originSpanwise == span * 0.5
    ensures r.Success? ==> r.value.originChordwise == (frontChordwise + backChordwise) * 0.5
  {
    if span == 0.0 || totalArea == 0.0 then Failure(NotFinite)
    else
      var meanChord := chordSpan / span;
      if meanChord == 0.0 then Failure(NotFinite)
      else
        var aspectRatio := span / meanChord;
        var meanCl := clSum / totalArea;
        var meanSpeed := speedSum / totalArea;
        var cosSweep := m.cos(Radians(sweepDeg));
        var effectiveAspectRatio := aspectRatio * cosSweep * cosSweep * 2.0 * 1.5;
        var denominator := Pi * effectiveAspectRatio * spanEfficiency;
        if denominator == 0.0 then Failure(NotFinite)
        else
          var cd := meanCl * meanCl / denominator;
          var induced := ForceOf(cd, density, meanSpeed, totalArea);
          Success(WingForceVec(induced / 2.0, span * 0.5, (frontChordwise + backChordwise) * 0.5))
  }

  /** The induced drag of a wing whose sections produced `lifts` and
      `drags`. */
  function InducedDrag(secs: seq<WingSection>, lifts: seq<WingForceVec>, drags: seq<WingForceVec>,
                       speedAoa: seq<WingSpeedAoa>, density: real, sweepDeg: real,
                       spanEfficiency: real, m: Transcendentals): (r: Result<WingForceVec, Fault>)
    requires 0 < |secs| <= |speedAoa| && |lifts| == |secs| && |drags| == |secs|
    ensures r.Failure? ==> r.error == NotFinite
    ensures r.Success? ==> r.value.originSpanwise == SpanTo(secs, |secs|) * 0.5
    ensures r.Success? ==> r.value.originChordwise == (drags[0].originChordwise + drags[|secs| - 1].originChordwise) * 0.5
  {
    InducedFromSums(SpanTo(secs, |secs|), AreaTo(secs, |secs|), ClSum(secs, lifts, speedAoa, density, |secs|),
                    SpeedSum(secs, speedAoa, |secs|), AreaTo(secs, |secs|), density, sweepDeg,
                    spanEfficiency, m, drags[0].originChordwise, drags[|drags| - 1].originChordwise)
  }

  /** The induced drag is defined exactly when the span, the area, the
      cosine of the sweep and the span efficiency are all non-zero. */
  lemma InducedDragDefined(span: real, clSum: real, speedSum: real, totalArea: real, density: real,
                           sweepDeg: real, spanEfficiency: real, m: Transcendentals,
                           frontChordwise: real, backChordwise: real)
    ensures InducedFromSums(span, totalArea, clSum, speedSum, totalArea, density, sweepDeg, spanEfficiency, m,
                            frontChordwise, backChordwise).Success?
            <==> span != 0.0 && totalArea != 0.0 && m.cos(Radians(sweepDeg)) != 0.0 && spanEfficiency != 0.0
  {
    if span != 0.0 && totalArea != 0.0 {
      var meanChord := totalArea / span;
      assert meanChord * span == totalArea;
      var aspectRatio := span / meanChord;
      var c := m.cos(Radians(sweepDeg));
      NonZeroProduct(aspectRatio * c * c * 2.0 * 1.5, Pi, spanEfficiency, c, span, meanChord);
    }
  }

  lemma NonZeroProduct(effective: real, pi: real, e: real, c: real, span: real, meanChord: real)
    requires span != 0.0 && meanChord != 0.0 && pi != 0.0
    requires effective == span / meanChord * c * c * 2.0 * 1.5
    ensures pi * effective * e != 0.0 <==> c != 0.0 && e != 0.0
  {
    var aspectRatio := span / meanChord;
    assert aspectRatio * meanChord == span;
    if c != 0.0 && e != 0.0 {
      NonZeroMul(aspectRatio, c);
      NonZeroMul(aspectRatio * c, c);
      NonZeroMul(pi, effective);
      NonZeroMul(pi * effective, e);
    }
  }

  lemma NonZeroMul(x: real, y: real)
    requires x != 0.0 && y != 0.0
    ensures x * y != 0.0
  {
  }

  // ---------------------------------------------------------------------
  // The wing

  class Wing {
    const airfoil: Airfoil
    const sections: seq<WingSection>
    const spanEfficiency: real

    /** Stores the parts; `Create` is the constructor of the source. */
    constructor (airfoil: Airfoil, sections: seq<WingSection>, spanEfficiency: real)
      ensures this.airfoil == airfoil && this.sections == sections
      ensures this.spanEfficiency == spanEfficiency
    {
      this.airfoil := airfoil;
      this.sections := sections;
      this.spanEfficiency := spanEfficiency;
    }

    /** The constructor of the source: a section with both an aileron and a
        flap is rejected, naming the first such section. */
    static method Create(airfoil: Airfoil, sections: seq<WingSection>,
                         spanEfficiency: real := DefaultSpanEfficiency)
      returns (r: Result<Wing, Fault>)
      ensures r.Failure? <==> exists i :: 0 <= i < |sections| && Conflicting(sections[i])
      ensures r.Failure? ==>
                exists i :: && 0 <= i < |sections| && Conflicting(sections[i])
                            && (forall j :: 0 <= j < i ==> !Conflicting(sections[j]))
                            && r.error == InvalidArgument(ConflictMessage(i))
      ensures r.Success? ==> && fresh(r.value)
                             && r.value.airfoil == airfoil && r.value.sections == sections
                             && r.value.spanEfficiency == spanEfficiency
    {
      var i := 0;
      while i < |sections|
        invariant 0 <= i <= |sections|
        invariant forall j :: 0 <= j < i ==> !Conflicting(sections[j])
      {
        if sections[i].hasAileron && sections[i].hasFlap {
          return Failure(InvalidArgument(ConflictMessage(i)));
        }
        i := i + 1;
      }
      var wing := new Wing(airfoil, sections, spanEfficiency);
      return Success(wing);
    }

    /** The coefficients of section `i` at its speed and angle of attack,
        with the deflections routed to it. */
    function SectionCoeffs(m: Transcendentals, i: nat, sa: WingSpeedAoa,
                           aileronDeg: real, flapDeg: real, slatDeg: real): Result<Coeffs, Fault>
      reads airfoil.clVsAoaCurve
      requires i < |sections|
    {
      airfoil.CalcCoeffs(m, sa.aoa, FlapArg(sections[i], aileronDeg, flapDeg),
                         SlatArg(sections[i], slatDeg))
    }

    /** The lift and drag lists of the first `k` sections; the first failing
        coefficient computation aborts. */
    function Sectional(m: Transcendentals, speedAoa: seq<WingSpeedAoa>, aileronDeg: real,
                       flapDeg: real, slatDeg: real, density: real, k: nat)
      : (r: Result<(seq<WingForceVec>, seq<WingForceVec>), Fault>)
      reads airfoil.clVsAoaCurve
      requires k <= |sections| && k <= |speedAoa|
      ensures r.Success? ==> |r.value.0| == k && |r.value.1| == k
    {
      if k == 0 then Success(([], []))
      else
        var prev :- Sectional(m, speedAoa, aileronDeg, flapDeg, slatDeg, density, k - 1);
        var c :- SectionCoeffs(m, k - 1, speedAoa[k - 1], aileronDeg, flapDeg, slatDeg);
        var speed := speedAoa[k - 1].speed;
        Success((prev.0 + [LiftVec(sections, k - 1, c.cl, speed, density)],
                 prev.1 + [DragVec(sections, k - 1, c.cd, speed, density)]))
    }

    /** What `calc_forces` returns for per-section speeds and angles. */
    function Forces(m: Transcendentals, speedAoa: seq<WingSpeedAoa>, aileronDeg: real,
                    flapDeg: real, slatDeg: real, density: real): (r: Result<WingForces, Fault>)
      reads airfoil.clVsAoaCurve
      requires 0 < |sections| <= |speedAoa|
      ensures r.Success? ==> |r.value.sectionalLift| == |sections| && |r.value.sectionalDrag| == |sections|
    {
      var lists :- Sectional(m, speedAoa, aileronDeg, flapDeg, slatDeg, density, |sections|);
      var induced :- InducedDrag(sections, lists.0, lists.1, speedAoa, density, airfoil.sweepDeg,
                                 spanEfficiency, m);
      Success(WingForces(lists.0, lists.1, induced))
    }

    /** `calc_forces` with one speed and angle per section.  Reading
        `speed_aoa[i]` or `front()` outside the lists is undefined in the
        source, so the wing must have sections and every section a speed. */
    method CalcForces(m: Transcendentals, speedAoa: seq<WingSpeedAoa>, aileronDeg: real := 0.0,
                      flapDeg: real := 0.0, slatDeg: real := 0.0,
                      airDensity: real := DefaultAirDensity)
      returns (r: Result<WingForces, Fault>)
      requires 0 < |sections| <= |speedAoa|
      ensures r.Success? <==> Forces(m, speedAoa, aileronDeg, flapDeg, slatDeg, airDensity).Success?
      ensures r.Success? ==> r.value == Forces(m, speedAoa, aileronDeg, flapDeg, slatDeg, airDensity).value
      ensures r.Failure? ==> r.error == Forces(m, speedAoa, aileronDeg, flapDeg, slatDeg, airDensity).error
    {
      var lifts: seq<WingForceVec> := [];
      var drags: seq<WingForceVec> := [];
      var cumulativeSpan := 0.0;
      var chordwiseShift := 0.0;
      var i := 0;
      while i < |sections|
        invariant 0 <= i <= |sections|
        invariant Sectional(m, speedAoa, aileronDeg, flapDeg, slatDeg, airDensity, i).Success?
        invariant Sectional(m, speedAoa, aileronDeg, flapDeg, slatDeg, airDensity, i).value == (lifts, drags)
        invariant |lifts| == i && |drags| == i
        invariant cumulativeSpan == SpanTo(sections, i) && chordwiseShift == ShiftTo(sections, i)
      {
        var sec := sections[i];
        var coeffs := airfoil.CalcCoeffs(m, speedAoa[i].aoa, FlapArg(sec, aileronDeg, flapDeg),
                                         SlatArg(sec, slatDeg));
        if coeffs.Failure? {
          SectionalStops(m, speedAoa, aileronDeg, flapDeg, slatDeg, airDensity, i, |sections|);
          return Failure(coeffs.error);
        }
        var speed := speedAoa[i].speed;
        cumulativeSpan := cumulativeSpan + sec.span;
        chordwiseShift := chordwiseShift + sec.chordwiseShift;
        RunningStep(m, speedAoa, aileronDeg, flapDeg, slatDeg, airDensity, i, coeffs.value,
                    lifts, drags, cumulativeSpan, chordwiseShift);
        lifts := lifts + [RunningLift(sec, coeffs.value.cl, speed, airDensity, cumulativeSpan, chordwiseShift)];
        drags := drags + [RunningDrag(sec, coeffs.value.cd, speed, airDensity, cumulativeSpan, chordwiseShift)];
        assert SpanTo(sections, i + 1) == cumulativeSpan && ShiftTo(sections, i + 1) == chordwiseShift;
        i := i + 1;
      }

      var induced :- InducedDragOf(lifts, drags, speedAoa, airDensity, cumulativeSpan, m);
      return Success(WingForces(lifts, drags, induced));
    }

    /** The second half of `calc_forces`: the sums over the sections, then
        the induced drag from them, given the span the first half accumulated. */
    method InducedDragOf(lifts: seq<WingForceVec>, drags: seq<WingForceVec>, speedAoa: seq<WingSpeedAoa>,
                         airDensity: real, cumulativeSpan: real, m: Transcendentals)
      returns (r: Result<WingForceVec, Fault>)
      requires 0 < |sections| <= |speedAoa| && |lifts| == |sections| && |drags| == |sections|
      requires cumulativeSpan == SpanTo(sections, |sections|)
      ensures r == InducedDrag(sections, lifts, drags, speedAoa, airDensity, airfoil.sweepDeg, spanEfficiency, m)
    {
      var meanChord, meanCl, meanSpeed, totalArea := AreaWeightedSums(lifts, speedAoa, airDensity);
      r := InducedFromSums(cumulativeSpan, meanChord, meanCl, meanSpeed, totalArea, airDensity,
                           airfoil.sweepDeg, spanEfficiency, m,
                           drags[0].originChordwise, drags[|drags| - 1].originChordwise);
    }

    /** The two summing loops of `calc_forces`: the chord-times-span sum, and
        the area-weighted sums of the sections' lift coefficients and speeds
        with the total area. */
    method AreaWeightedSums(lifts: seq<WingForceVec>, speedAoa: seq<WingSpeedAoa>, airDensity: real)
      returns (meanChord: real, meanCl: real, meanSpeed: real, totalArea: real)
      requires |sections| <= |speedAoa| && |lifts| == |sections|
      ensures meanChord == AreaTo(sections, |sections|) && totalArea == AreaTo(sections, |sections|)
      ensures meanCl == ClSum(sections, lifts, speedAoa, airDensity, |sections|)
      ensures meanSpeed == SpeedSum(sections, speedAoa, |sections|)
    {
      meanChord := 0.0;
      var i := 0;
      while i < |sections|
        invariant 0 <= i <= |sections|
        invariant meanChord == AreaTo(sections, i)
      {
        meanChord := meanChord + sections[i].chord * sections[i].span;
        i := i + 1;
      }

      meanCl, meanSpeed, totalArea := 0.0, 0.0, 0.0;
      i := 0;
      while i < |sections|
        invariant 0 <= i <= |sections|
        invariant meanCl == ClSum(sections, lifts, speedAoa, airDensity, i)
        invariant meanSpeed == SpeedSum(sections, speedAoa, i)
        invariant totalArea == AreaTo(sections, i)
      {
        var secArea := Area(sections[i]);
        var speed := speedAoa[i].speed;
        var secCl := SectionCl(lifts[i].force, airDensity, speed, secArea);
        meanCl := meanCl + secCl * secArea;
        meanSpeed := meanSpeed + speed * secArea;
        totalArea := totalArea + secArea;
        i := i + 1;
      }
    }

    /** `calc_forces` with one speed and angle for every section. */
    method CalcForcesUniform(m: Transcendentals, speed: real, aoaDeg: real, aileronDeg: real := 0.0,
                             flapDeg: real := 0.0, slatDeg: real := 0.0,
                             airDensity: real := DefaultAirDensity)
      returns (r: Result<WingForces, Fault>)
      requires 0 < |sections|
      ensures r == Forces(m, seq(|sections|, _ => WingSpeedAoa(speed, aoaDeg)), aileronDeg,
                          flapDeg, slatDeg, airDensity)
    {
      var speedAoa := seq(|sections|, _ => WingSpeedAoa(speed, aoaDeg));
      r := CalcForces(m, speedAoa, aileronDeg, flapDeg, slatDeg, airDensity);
    }

    /** A wing's induced drag is not negative in air of non-negative density
        when its span efficiency is positive. */
    lemma InducedDragNotNegative(m: Transcendentals, speedAoa: seq<WingSpeedAoa>, aileronDeg: real,
                                 flapDeg: real, slatDeg: real, density: real)
      requires 0 < |sections| <= |speedAoa|
      requires 0.0 <= density && 0.0 < spanEfficiency
      requires Forces(m, speedAoa, aileronDeg, flapDeg, slatDeg, density).Success?
      ensures Forces(m, speedAoa, aileronDeg, flapDeg, slatDeg, density).value.inducedDrag.force >= 0.0
    {
      var lists := Sectional(m, speedAoa, aileronDeg, flapDeg, slatDeg, density, |sections|).value;
      InducedDragNonNegative(SpanTo(sections, |sections|), ClSum(sections, lists.0, speedAoa, density, |sections|),
                             SpeedSum(sections, speedAoa, |sections|), AreaTo(sections, |sections|), density,
                             airfoil.sweepDeg, spanEfficiency, m,
                             lists.1[0].originChordwise, lists.1[|sections| - 1].originChordwise);
    }

    /** One more section: the lists grow by that section's lift and drag. */
    lemma SectionalStep(m: Transcendentals, speedAoa: seq<WingSpeedAoa>, aileronDeg: real, flapDeg: real,
                        slatDeg: real, density: real, i: nat, c: Coeffs)
      requires i < |sections| && i < |speedAoa|
      requires Sectional(m, speedAoa, aileronDeg, flapDeg, slatDeg, density, i).Success?
      requires SectionCoeffs(m, i, speedAoa[i], aileronDeg, flapDeg, slatDeg) == Success(c)
      ensures Sectional(m, speedAoa, aileronDeg, flapDeg, slatDeg, density, i + 1).Success?
      ensures
        var prev := Sectional(m, speedAoa, aileronDeg, flapDeg, slatDeg, density, i).value;
        Sectional(m, speedAoa, aileronDeg, flapDeg, slatDeg, density, i + 1).value
        == (prev.0 + [LiftVec(sections, i, c.cl, speedAoa[i].speed, density)],
            prev.1 + [DragVec(sections, i, c.cd, speedAoa[i].speed, density)])
    {
    }

    /** One iteration of the `calc_forces` loop: with the running sums
        advanced past section `i`, its lift and drag as the loop computes
        them extend the lists of the sections before it. */
    lemma RunningStep(m: Transcendentals, speedAoa: seq<WingSpeedAoa>, aileronDeg: real, flapDeg: real,
                      slatDeg: real, density: real, i: nat, c: Coeffs,
                      lifts: seq<WingForceVec>, drags: seq<WingForceVec>, span: real, shift: real)
      requires i < |sections| && i < |speedAoa|
      requires Sectional(m, speedAoa, aileronDeg, flapDeg, slatDeg, density, i) == Success((lifts, drags))
      requires SectionCoeffs(m, i, speedAoa[i], aileronDeg, flapDeg, slatDeg) == Success(c)
      requires span == SpanTo(sections, i) + sections[i].span
      requires shift == ShiftTo(sections, i) + sections[i].chordwiseShift
      ensures Sectional(m, speedAoa, aileronDeg, flapDeg, slatDeg, density, i + 1)
              == Success((lifts + [RunningLift(sections[i], c.cl, speedAoa[i].speed, density, span, shift)],
                          drags + [RunningDrag(sections[i], c.cd, speedAoa[i].speed, density, span, shift)]))
    {
      RunningSumForm(sections, i, c.cl, c.cd, speedAoa[i].speed, density, span, shift);
      SectionalStep(m, speedAoa, aileronDeg, flapDeg, slatDeg, density, i, c);
    }

    /** Once a section's coefficients fail, the lists fail with the same
        error however many sections are asked for. */
    lemma {:induction false} SectionalStops(m: Transcendentals, speedAoa: seq<WingSpeedAoa>,
                                            aileronDeg: real, flapDeg: real, slatDeg: real,
                                            density: real, i: nat, k: nat)
      requires i < k <= |sections| && k <= |speedAoa|
      requires Sectional(m, speedAoa, aileronDeg, flapDeg, slatDeg, density, i).Success?
      requires SectionCoeffs(m, i, speedAoa[i], aileronDeg, flapDeg, slatDeg).Failure?
      ensures Sectional(m, speedAoa, aileronDeg, flapDeg, slatDeg, density, k)
              == Failure(SectionCoeffs(m, i, speedAoa[i], aileronDeg, flapDeg, slatDeg).error)
    {
      if k > i + 1 {
        SectionalStops(m, speedAoa, aileronDeg, flapDeg, slatDeg, density, i, k - 1);
      }
    }

    /** The lists succeed exactly when every section's coefficients do. */
    lemma {:induction false} SectionalSucceeds(m: Transcendentals, speedAoa: seq<WingSpeedAoa>,
                                               aileronDeg: real, flapDeg: real, slatDeg: real,
                                               density: real, k: nat)
      requires k <= |sections| && k <= |speedAoa|
      ensures Sectional(m, speedAoa, aileronDeg, flapDeg, slatDeg, density, k).Success? <==>
              forall i :: 0 <= i < k ==> SectionCoeffs(m, i, speedAoa[i], aileronDeg, flapDeg, slatDeg).Success?
    {
      if k > 0 {
        SectionalSucceeds(m, speedAoa, aileronDeg, flapDeg, slatDeg, density, k - 1);
      }
    }

    /** Entry `i` of the lists is section `i`'s lift and drag from its own
        coefficients, speed and place along the span. */
    lemma {:induction false} SectionalEntry(m: Transcendentals, speedAoa: seq<WingSpeedAoa>,
                                            aileronDeg: real, flapDeg: real, slatDeg: real,
                                            density: real, k: nat, i: nat)
      requires i < k <= |sections| && k <= |speedAoa|
      requires Sectional(m, speedAoa, aileronDeg, flapDeg, slatDeg, density, k).Success?
      ensures SectionCoeffs(m, i, speedAoa[i], aileronDeg, flapDeg, slatDeg).Success?
      ensures Sectional(m, speedAoa, aileronDeg, flapDeg, slatDeg, density, k).value.0[i]
              == LiftVec(sections, i, SectionCoeffs(m, i, speedAoa[i], aileronDeg, flapDeg, slatDeg).value.cl,
                         speedAoa[i].speed, density)
      ensures Sectional(m, speedAoa, aileronDeg, flapDeg, slatDeg, density, k).value.1[i]
              == DragVec(sections, i, SectionCoeffs(m, i, speedAoa[i], aileronDeg, flapDeg, slatDeg).value.cd,
                         speedAoa[i].speed, density)
    {
      SectionalLast(m, speedAoa, aileronDeg, flapDeg, slatDeg, density, k);
      if i < k - 1 {
        SectionalEntry(m, speedAoa, aileronDeg, flapDeg, slatDeg, density, k - 1, i);
      }
    }

    /** A successful list of `k` sections extends the successful list of
        `k - 1` by section `k - 1`'s lift and drag. */
    lemma SectionalLast(m: Transcendentals, speedAoa: seq<WingSpeedAoa>, aileronDeg: real, flapDeg: real,
                        slatDeg: real, density: real, k: nat)
      requires 0 < k <= |sections| && k <= |speedAoa|
      requires Sectional(m, speedAoa, aileronDeg, flapDeg, slatDeg, density, k).Success?
      ensures Sectional(m, speedAoa, aileronDeg, flapDeg, slatDeg, density, k - 1).Success?
      ensures SectionCoeffs(m, k - 1, speedAoa[k - 1], aileronDeg, flapDeg, slatDeg).Success?
      ensures
        var prev := Sectional(m, speedAoa, aileronDeg, flapDeg, slatDeg, density, k - 1).value;
        var c := SectionCoeffs(m, k - 1, speedAoa[k - 1], aileronDeg, flapDeg, slatDeg).value;
        Sectional(m, speedAoa, aileronDeg, flapDeg, slatDeg, density, k).value
        == (prev.0 + [LiftVec(sections, k - 1, c.cl, speedAoa[k - 1].speed, density)],
            prev.1 + [DragVec(sections, k - 1, c.cd, speedAoa[k - 1].speed, density)])
    {
    }

    /** With deflections in range no section's coefficients reject their
        arguments, so the lists fail, if at all, for an empty lift curve or
        a non-finite value. */
    lemma {:induction false} SectionalNoArgumentFault(m: Transcendentals, speedAoa: seq<WingSpeedAoa>,
                                                      aileronDeg: real, flapDeg: real, slatDeg: real,
                                                      density: real, k: nat)
      requires k <= |sections| && k <= |speedAoa|
      requires DeflectionsInRange(aileronDeg, flapDeg, slatDeg)
      ensures var r := Sectional(m, speedAoa, aileronDeg, flapDeg, slatDeg, density, k);
              r.Failure? ==> r.error == RuntimeError(EmptyMessage) || r.error == NotFinite
    {
      if k > 0 {
        SectionalNoArgumentFault(m, speedAoa, aileronDeg, flapDeg, slatDeg, density, k - 1);
        RoutedDeflectionsInRange(sections[k - 1], aileronDeg, flapDeg, slatDeg);
      }
    }

    /** With deflections in range the wing's forces never fail on an
        argument check. */
    lemma ForcesNoArgumentFault(m: Transcendentals, speedAoa: seq<WingSpeedAoa>, aileronDeg: real,
                                flapDeg: real, slatDeg: real, density: real)
      requires 0 < |sections| <= |speedAoa|
      requires DeflectionsInRange(aileronDeg, flapDeg, slatDeg)
      ensures var r := Forces(m, speedAoa, aileronDeg, flapDeg, slatDeg, density);
              r.Failure? ==> r.error == RuntimeError(EmptyMessage) || r.error == NotFinite
    {
      SectionalNoArgumentFault(m, speedAoa, aileronDeg, flapDeg, slatDeg, density, |sections|);
    }
  }

  // ---------------------------------------------------------------------
  // Properties of the forces

  /** Section `i`'s lift and drag act at the same spanwise point, the lift
      a quarter chord ahead of the drag. */
  lemma LiftAheadOfDrag(secs: seq<WingSection>, i: nat, cl: real, cd: real, speed: real, density: real)
    requires i < |secs|
    ensures LiftVec(secs, i, cl, speed, density).originSpanwise == DragVec(secs, i, cd, speed, density).originSpanwise
    ensures LiftVec(secs, i, cl, speed, density).originChordwise
            == DragVec(secs, i, cd, speed, density).originChordwise - secs[i].chord * 0.25
  {
  }

  /** A section's spanwise origin is the middle of the interval it covers. */
  lemma {:induction false} SpanwiseOriginIsMidpoint(secs: seq<WingSection>, i: nat, cl: real, speed: real, density: real)
    requires i < |secs|
    ensures LiftVec(secs, i, cl, speed, density).originSpanwise
            == (SpanTo(secs, i) + SpanTo(secs, i + 1)) * 0.5
  {
    assert SpanTo(secs, i + 1) == SpanTo(secs, i) + secs[i].span;
  }

  /** Forces are linear in air density. */
  lemma ForceLinearInDensity(coeff: real, density: real, speed: real, area: real, k: real)
    ensures ForceOf(coeff, k * density, speed, area) == k * ForceOf(coeff, density, speed, area)
  {
    DynamicPressureScaling(density, speed, k);
  }

  /** With non-negative air density and positive span efficiency the induced
      drag is not negative, whatever the sign of the area. */
  lemma InducedDragNonNegative(span: real, clSum: real, speedSum: real, totalArea: real, density: real,
                               sweepDeg: real, spanEfficiency: real, m: Transcendentals,
                               frontChordwise: real, backChordwise: real)
    requires 0.0 <= density && 0.0 < spanEfficiency
    requires InducedFromSums(span, totalArea, clSum, speedSum, totalArea, density, sweepDeg, spanEfficiency, m,
                             frontChordwise, backChordwise).Success?
    ensures InducedFromSums(span, totalArea, clSum, speedSum, totalArea, density, sweepDeg, spanEfficiency, m,
                            frontChordwise, backChordwise).value.force >= 0.0
  {
    var meanChord := totalArea / span;
    var aspectRatio := span / meanChord;
    var meanCl := clSum / totalArea;
    var meanSpeed := speedSum / totalArea;
    var cosSweep := m.cos(Radians(sweepDeg));
    var denominator := Pi * (aspectRatio * cosSweep * cosSweep * 2.0 * 1.5) * spanEfficiency;
    var cd := meanCl * meanCl / denominator;
    var positive := DenominatorSign(span, totalArea, cosSweep, spanEfficiency);
    SameSignQuotient(cd, meanCl * meanCl, denominator, positive, totalArea);
    PressureTimesArea(cd, totalArea, density, meanSpeed);
  }

  /** The induced-drag denominator is a non-negative number over the area. */
  lemma DenominatorSign(span: real, area: real, c: real, e: real) returns (p: real)
    requires span != 0.0 && area != 0.0 && 0.0 < e
    ensures 0.0 <= p
    ensures Pi * (span / (area / span) * c * c * 2.0 * 1.5) * e == p / area
  {
    var meanChord := area / span;
    var aspectRatio := span / meanChord;
    assert aspectRatio == span * span / area;
    p := span * span * c * c * 3.0 * Pi * e;
    PositiveFactor(span, c, e);
  }

  /** `cd * q * area >= 0` once `cd * area >= 0` and the density is not
      negative. */
  lemma PressureTimesArea(cd: real, area: real, density: real, speed: real)
    requires 0.0 <= cd * area && 0.0 <= density
    ensures 0.0 <= ForceOf(cd, density, speed, area)
  {
    SquareNonNegative(speed);
    MulNonNegative(density, speed * speed);
    var q := DynamicPressure(density, speed);
    assert 0.0 <= q;
    MulNonNegative(cd * area, q);
    assert ForceOf(cd, density, speed, area) == cd * area * q;
  }

  /** `n / d * a` is not negative when `d * a` is positive and `n` is not
      negative. */
  lemma SameSignQuotient(cd: real, n: real, d: real, p: real, a: real)
    requires a != 0.0 && d != 0.0 && 0.0 <= n && 0.0 <= p
    requires d == p / a && cd == n / d
    ensures 0.0 <= cd * a
  {
    assert cd * d == n;
    assert d * a == p;
    assert p != 0.0;
    assert (cd * a) * p == n * (a * a);
    assert cd * a == n * (a * a) * (1.0 / p);
    SquareNonNegative(a);
    MulNonNegative(n, a * a);
    MulNonNegative(n * (a * a), 1.0 / p);
  }

  lemma PositiveFactor(span: real, c: real, e: real)
    requires span != 0.0 && 0.0 < e
    ensures 0.0 <= span * span * c * c * 3.0 * Pi * e
  {
    SquareNonNegative(span);
    SquareNonNegative(c);
    MulNonNegative(span * span, c * c);
    MulNonNegative(span * span * c * c, 3.0 * Pi * e);
  }

}
