/** Placing a wing in three dimensions: the airspeed and angle of attack each
    section sees from the body's motion, and the wing's forces turned into
    force vectors at points of the body.

    A wing's own frame: it extends along +Y (towards the left), moves towards
    +X and lifts towards +Z.  A right wing is the mirror image, extending
    along -Y.  The mount position and rotation take this frame into the frame
    of the velocities and of the rotation origin. */
module WingFrames {
  import opened Wrappers
  import opened Scalars
  import opened Vectors
  import opened Curves
  import opened Wings

  const Forward: Vec3 := Vec3(1.0, 0.0, 0.0)
  const Left: Vec3 := Vec3(0.0, 1.0, 0.0)
  const Up: Vec3 := Vec3(0.0, 0.0, 1.0)

  /** The length below which `safe_normalize` gives the zero vector (1e-4). */
  const SafeLength: real := 0.0001

  datatype WingForceVec3d = WingForceVec3d(force: Vec3, origin: Vec3)

  datatype WingForces3d = WingForces3d(
    sectionalLift: seq<WingForceVec3d>,
    sectionalDrag: seq<WingForceVec3d>,
    inducedDrag: WingForceVec3d)

  // ---------------------------------------------------------------------
  // Velocities

  /** The velocity of a point of a body moving at `vel` and turning at
      `angVel` about `rotOrigin`. */
  function WingLocalVelocity(point: Vec3, vel: Vec3, angVel: Vec3, rotOrigin: Vec3): Vec3 {
    Add(vel, Cross(angVel, Sub(point, rotOrigin)))
  }

  /** The rotation origin moves with the body, and without rotation every
      point does; every point's extra velocity is orthogonal to the axis of
      rotation and to its offset. */
  lemma LocalVelocityRigid(point: Vec3, vel: Vec3, angVel: Vec3, rotOrigin: Vec3)
    ensures WingLocalVelocity(rotOrigin, vel, angVel, rotOrigin) == vel
    ensures WingLocalVelocity(point, vel, Zero, rotOrigin) == vel
    ensures Dot(Sub(WingLocalVelocity(point, vel, angVel, rotOrigin), vel), angVel) == 0.0
    ensures Dot(Sub(WingLocalVelocity(point, vel, angVel, rotOrigin), vel), Sub(point, rotOrigin)) == 0.0
  {
    assert Sub(rotOrigin, rotOrigin) == Zero;
    var c := Cross(angVel, Sub(point, rotOrigin));
    assert Sub(WingLocalVelocity(point, vel, angVel, rotOrigin), vel) == c;
    CrossOrthogonal(angVel, Sub(point, rotOrigin));
  }

  /** `v` without its component along `dir`: `v - dot(v, dir) * dir`. */
  function InPlane(v: Vec3, dir: Vec3): Vec3 {
    Sub(v, Scale(dir, Dot(v, dir)))
  }

  /** Removing the component along a unit direction leaves a vector
      orthogonal to it. */
  lemma InPlaneOrthogonal(v: Vec3, dir: Vec3)
    requires Dot(dir, dir) == 1.0
    ensures Dot(InPlane(v, dir), dir) == 0.0
  {
    var k := Dot(v, dir);
    assert Dot(InPlane(v, dir), dir) == Dot(v, dir) - k * Dot(dir, dir);
  }

  /** A cosine read off a normalised vector: the fallback when that vector
      is NaN, otherwise the dot product clamped to [-1, 1]. */
  function CosineOr(dir: Vec3, n: NVec, fallback: real): (r: real)
    ensures n.NaN? ==> r == fallback
    ensures n.Num? ==> -1.0 <= r <= 1.0
  {
    if n.NaN? then fallback else Clamp(Dot(dir, n.v), -1.0, 1.0)
  }

  /** The angle of attack in degrees, negated because a wing moving upwards
      meets the air from above. */
  function AngleOfAttack(cosineUp: real, cosineForward: real, m: Transcendentals): real {
    -Degrees(m.atan2(cosineUp, cosineForward))
  }

  /** The airspeed and angle of attack of a velocity `plane` already in the
      wing's plane, given the wing's forward and up directions. */
  function SpeedAoaOf(plane: Vec3, forwardDir: Vec3, upDir: Vec3, m: Transcendentals): WingSpeedAoa {
    var planeDir := Normalize(plane, m);
    var cosineForward := CosineOr(forwardDir, planeDir, 1.0);
    var cosineUp := CosineOr(upDir, planeDir, 0.0);
    WingSpeedAoa(Length(plane, m), AngleOfAttack(cosineUp, cosineForward, m))
  }

  /** The centre of a section, given the span and chordwise shift
      accumulated before it, in the body's frame. */
  function SectionCenter(s: WingSection, spanBefore: real, shiftBefore: real, mountPos: Vec3, mountRot: Quat,
                         isRightWing: bool): Vec3 {
    var y := spanBefore + s.span * 0.5;
    Add(Rotate(mountRot, Vec3(-shiftBefore, if isRightWing then -y else y, 0.0)), mountPos)
  }

  /** What one section sees, given the span and chordwise shift accumulated
      before it and an already normalised mount rotation: its airspeed and
      angle of attack in the wing's plane, and its direction of motion. */
  function SectionSample(s: WingSection, spanBefore: real, shiftBefore: real, linearVelocity: Vec3,
                         angularVelocity: Vec3, rotOrigin: Vec3, mountPos: Vec3, mountRot: Quat,
                         isRightWing: bool, m: Transcendentals): (WingSpeedAoa, NVec)
  {
    var center := SectionCenter(s, spanBefore, shiftBefore, mountPos, mountRot, isRightWing);
    var vel := WingLocalVelocity(center, linearVelocity, angularVelocity, rotOrigin);
    (SpeedAoaOf(InPlane(vel, Rotate(mountRot, Left)), Rotate(mountRot, Forward), Rotate(mountRot, Up), m),
     Normalize(vel, m))
  }

  /** Section `i`'s sample. */
  function SampleAt(secs: seq<WingSection>, i: nat, linearVelocity: Vec3, angularVelocity: Vec3,
                    rotOrigin: Vec3, mountPos: Vec3, mountRot: Quat, isRightWing: bool,
                    m: Transcendentals): (WingSpeedAoa, NVec)
    requires i < |secs|
  {
    SectionSample(secs[i], SpanTo(secs, i), ShiftTo(secs, i), linearVelocity, angularVelocity, rotOrigin,
                  mountPos, mountRot, isRightWing, m)
  }

  /** A section whose velocity has no component in the wing's plane sees no
      airspeed and a zero angle of attack: both cosines fall back to their
      defaults. */
  lemma NoPlaneVelocityNoAoa(forwardDir: Vec3, upDir: Vec3, m: Transcendentals)
    requires Lawful(m)
    ensures SpeedAoaOf(Zero, forwardDir, upDir, m) == WingSpeedAoa(0.0, 0.0)
  {
    assert Length(Zero, m) == 0.0;
    assert AngleOfAttack(0.0, 1.0, m) == 0.0;
  }

  /** Under `Lawful` an airspeed is not negative, and it is zero exactly when
      the in-plane velocity has zero length. */
  lemma AirspeedNonNegative(plane: Vec3, forwardDir: Vec3, upDir: Vec3, m: Transcendentals)
    requires Lawful(m)
    ensures 0.0 <= SpeedAoaOf(plane, forwardDir, upDir, m).speed
    ensures SpeedAoaOf(plane, forwardDir, upDir, m).speed == 0.0 <==> Dot(plane, plane) == 0.0
  {
    SumOfSquaresNonNegative(plane.x, plane.y, plane.z, 0.0);
    SqrtZero(m, Dot(plane, plane));
  }

  // ---------------------------------------------------------------------
  // Speeds and angles of all sections

  /** `wing_sectional_speed_aoa`: the mount rotation is normalised, then each
      section's centre is found from the running span and shift and sampled. */
  method SectionalSpeedAoa(wing: Wing, linearVelocity: Vec3, angularVelocity: Vec3, rotOrigin: Vec3,
                           mountPos: Vec3, mountRot: Quat, isRightWing: bool, m: Transcendentals)
    returns (speedAoa: seq<WingSpeedAoa>, moveDirs: seq<NVec>)
    ensures |speedAoa| == |wing.sections| && |moveDirs| == |wing.sections|
    ensures forall i :: 0 <= i < |wing.sections| ==>
              (speedAoa[i], moveDirs[i])
              == SampleAt(wing.sections, i, linearVelocity, angularVelocity, rotOrigin, mountPos,
                          QuatNormalize(mountRot, m), isRightWing, m)
  {
    var rot := QuatNormalize(mountRot, m);
    speedAoa, moveDirs := [], [];
    var cumulativeSpan := 0.0;
    var chordwiseShift := 0.0;
    var i := 0;
    while i < |wing.sections|
      invariant 0 <= i <= |wing.sections|
      invariant |speedAoa| == i && |moveDirs| == i
      invariant cumulativeSpan == SpanTo(wing.sections, i) && chordwiseShift == ShiftTo(wing.sections, i)
      invariant forall j :: 0 <= j < i ==>
                  (speedAoa[j], moveDirs[j])
                  == SampleAt(wing.sections, j, linearVelocity, angularVelocity, rotOrigin, mountPos, rot,
                              isRightWing, m)
    {
      var sample := SectionSample(wing.sections[i], cumulativeSpan, chordwiseShift, linearVelocity,
                                  angularVelocity, rotOrigin, mountPos, rot, isRightWing, m);
      speedAoa := speedAoa + [sample.0];
      moveDirs := moveDirs + [sample.1];
      cumulativeSpan := cumulativeSpan + wing.sections[i].span;
      chordwiseShift := chordwiseShift + wing.sections[i].chordwiseShift;
      i := i + 1;
    }
  }

  // ---------------------------------------------------------------------
  // Forces in three dimensions

  /** `safe_normalize`: the zero vector unless the length exceeds 1e-4.  A
      NaN vector fails that comparison and also gives the zero vector. */
  function SafeNormalize(v: NVec, m: Transcendentals): (r: Vec3)
    ensures v.NaN? ==> r == Zero
    ensures v.Num? && Length(v.v, m) <= SafeLength ==> r == Zero
  {
    if v.NaN? || Length(v.v, m) <= SafeLength then Zero
    else Scale(v.v, 1.0 / Length(v.v, m))
  }

  /** Under `Lawful` a safely normalised vector is zero or of unit length. */
  lemma SafeNormalizeUnitOrZero(v: NVec, m: Transcendentals)
    requires Lawful(m)
    ensures SafeNormalize(v, m) == Zero || Dot(SafeNormalize(v, m), SafeNormalize(v, m)) == 1.0
    ensures v.Num? && Length(v.v, m) > SafeLength ==> Dot(SafeNormalize(v, m), SafeNormalize(v, m)) == 1.0
  {
    if v.Num? && Length(v.v, m) > SafeLength {
      NormalizeUnit(v.v, m);
      assert Normalize(v.v, m) == Num(SafeNormalize(v, m));
    }
  }

  /** Safe normalisation is a positive multiple of its argument or zero. */
  lemma SafeNormalizeScales(v: Vec3, m: Transcendentals)
    ensures exists k: real :: 0.0 <= k && SafeNormalize(Num(v), m) == Scale(v, k)
  {
    if Length(v, m) <= SafeLength {
      assert SafeNormalize(Num(v), m) == Scale(v, 0.0);
    } else {
      var k := 1.0 / Length(v, m);
      assert SafeNormalize(Num(v), m) == Scale(v, k);
    }
  }

  /** The point a force acts at: its wing-frame origin, mirrored for a right
      wing, carried into the body's frame by the mount. */
  function ForceOrigin(f: WingForceVec, mountPos: Vec3, mountRot: Quat, isRightWing: bool): Vec3 {
    Add(Rotate(mountRot, Vec3(-f.originChordwise, if isRightWing then -f.originSpanwise else f.originSpanwise, 0.0)),
        mountPos)
  }

  /** The direction of lift for a motion: across both the motion (seen in the
      wing's plane) and the span. */
  function LiftDirection(moveDir: Vec3, left: Vec3, m: Transcendentals): Vec3 {
    SafeNormalize(Num(Cross(InPlane(moveDir, left), left)), m)
  }

  /** Removing a multiple of `l` from `d` does not change `d`'s cross product
      with `l`. */
  lemma CrossDropsParallel(d: Vec3, l: Vec3, k: real)
    ensures Cross(Sub(d, Scale(l, k)), l) == Cross(d, l)
  {
  }

  /** The lift direction is orthogonal to the span direction and to the
      motion. */
  lemma LiftDirectionOrthogonal(moveDir: Vec3, left: Vec3, m: Transcendentals)
    ensures Dot(LiftDirection(moveDir, left, m), left) == 0.0
    ensures Dot(LiftDirection(moveDir, left, m), moveDir) == 0.0
  {
    CrossDropsParallel(moveDir, left, Dot(moveDir, left));
    var c := Cross(moveDir, left);
    assert Cross(InPlane(moveDir, left), left) == c;
    CrossOrthogonal(moveDir, left);
    SafeNormalizeScales(c, m);
    var k :| 0.0 <= k && SafeNormalize(Num(c), m) == Scale(c, k);
    DotScale(c, left, k);
    DotScale(c, moveDir, k);
  }

  /** `map_wing_force_to_3d`: a drag acts against the motion, a lift across
      it, each scaled by the force's magnitude. */
  function MapWingForceTo3d(f: WingForceVec, mountPos: Vec3, mountRot: Quat, isDrag: bool, moveDir: NVec,
                            isRightWing: bool, m: Transcendentals): (r: WingForceVec3d)
    ensures r.origin == ForceOrigin(f, mountPos, mountRot, isRightWing)
  {
    var dir := SafeNormalize(moveDir, m);
    WingForceVec3d(Scale(if isDrag then Neg(dir) else LiftDirection(dir, Rotate(mountRot, Left), m), f.force),
                   ForceOrigin(f, mountPos, mountRot, isRightWing))
  }

  /** A lift force is orthogonal to the span and to the direction of motion. */
  lemma LiftOrthogonal(f: WingForceVec, mountPos: Vec3, mountRot: Quat, moveDir: NVec,
                       isRightWing: bool, m: Transcendentals)
    ensures Dot(MapWingForceTo3d(f, mountPos, mountRot, false, moveDir, isRightWing, m).force,
                Rotate(mountRot, Left)) == 0.0
    ensures Dot(MapWingForceTo3d(f, mountPos, mountRot, false, moveDir, isRightWing, m).force,
                SafeNormalize(moveDir, m)) == 0.0
  {
    var left := Rotate(mountRot, Left);
    var dir := SafeNormalize(moveDir, m);
    var lift := LiftDirection(dir, left, m);
    LiftDirectionOrthogonal(dir, left, m);
    DotScale(lift, left, f.force);
    DotScale(lift, dir, f.force);
  }

  /** A drag force points against the direction of motion. */
  lemma DragOpposesMotion(f: WingForceVec, mountPos: Vec3, mountRot: Quat, moveDir: NVec,
                          isRightWing: bool, m: Transcendentals)
    ensures MapWingForceTo3d(f, mountPos, mountRot, true, moveDir, isRightWing, m).force
            == Scale(SafeNormalize(moveDir, m), -f.force)
  {
    var dir := SafeNormalize(moveDir, m);
    assert MapWingForceTo3d(f, mountPos, mountRot, true, moveDir, isRightWing, m).force == Scale(Neg(dir), f.force);
    NegScale(dir, f.force);
  }

  lemma NegScale(v: Vec3, k: real)
    ensures Scale(Neg(v), k) == Scale(v, -k)
  {
  }

  /** A right wing's force acts at the mirror image of its origin: mapping it
      is mapping the left wing's force with the spanwise origin negated. */
  lemma RightWingMirrors(f: WingForceVec, mountPos: Vec3, mountRot: Quat, isDrag: bool, moveDir: NVec,
                         m: Transcendentals)
    ensures MapWingForceTo3d(f, mountPos, mountRot, isDrag, moveDir, true, m)
            == MapWingForceTo3d(f.(originSpanwise := -f.originSpanwise), mountPos, mountRot, isDrag, moveDir,
                                false, m)
  {
  }

  /** `map_wing_forces_to_3d` as a value: every section's lift and drag with
      that section's direction of motion, the induced drag with the mean one. */
  function MapAll(forces: WingForces, mountPos: Vec3, mountRot: Quat, moveDirs: seq<NVec>, mainMoveDir: NVec,
                  isRightWing: bool, m: Transcendentals): (r: WingForces3d)
    requires |forces.sectionalLift| <= |forces.sectionalDrag| && |forces.sectionalLift| <= |moveDirs|
    ensures |r.sectionalLift| == |forces.sectionalLift| && |r.sectionalDrag| == |forces.sectionalLift|
  {
    var n := |forces.sectionalLift|;
    WingForces3d(
      seq(n, i requires 0 <= i < n =>
        MapWingForceTo3d(forces.sectionalLift[i], mountPos, mountRot, false, moveDirs[i], isRightWing, m)),
      seq(n, i requires 0 <= i < n =>
        MapWingForceTo3d(forces.sectionalDrag[i], mountPos, mountRot, true, moveDirs[i], isRightWing, m)),
      MapWingForceTo3d(forces.inducedDrag, mountPos, mountRot, true, mainMoveDir, isRightWing, m))
  }

  /** `map_wing_forces_to_3d`.  Reading a drag or a direction past the end of
      its list is undefined in the source, so the lists must be long enough. */
  method MapWingForcesTo3d(forces: WingForces, mountPos: Vec3, mountRot: Quat, moveDirs: seq<NVec>,
                           mainMoveDir: NVec, isRightWing: bool, m: Transcendentals)
    returns (r: WingForces3d)
    requires |forces.sectionalLift| <= |forces.sectionalDrag| && |forces.sectionalLift| <= |moveDirs|
    ensures r == MapAll(forces, mountPos, mountRot, moveDirs, mainMoveDir, isRightWing, m)
  {
    var lifts: seq<WingForceVec3d> := [];
    var drags: seq<WingForceVec3d> := [];
    var i := 0;
    while i < |forces.sectionalLift|
      invariant 0 <= i <= |forces.sectionalLift|
      invariant |lifts| == i && |drags| == i
      invariant forall j :: 0 <= j < i ==>
                  lifts[j] == MapWingForceTo3d(forces.sectionalLift[j], mountPos, mountRot, false, moveDirs[j],
                                               isRightWing, m)
      invariant forall j :: 0 <= j < i ==>
                  drags[j] == MapWingForceTo3d(forces.sectionalDrag[j], mountPos, mountRot, true, moveDirs[j],
                                               isRightWing, m)
    {
      lifts := lifts + [MapWingForceTo3d(forces.sectionalLift[i], mountPos, mountRot, false, moveDirs[i],
                                         isRightWing, m)];
      drags := drags + [MapWingForceTo3d(forces.sectionalDrag[i], mountPos, mountRot, true, moveDirs[i],
                                         isRightWing, m)];
      i := i + 1;
    }
    var induced := MapWingForceTo3d(forces.inducedDrag, mountPos, mountRot, true, mainMoveDir, isRightWing, m);
    r := WingForces3d(lifts, drags, induced);
  }

  // ---------------------------------------------------------------------
  // The mean direction of motion

  /** `v * k`, NaN staying NaN. */
  function ScaleN(v: NVec, k: real): NVec {
    if v.NaN? then NaN else Num(Scale(v.v, k))
  }

  /** `a + b`, NaN if either is. */
  function AddN(a: NVec, b: NVec): NVec {
    if a.NaN? || b.NaN? then NaN else Num(Add(a.v, b.v))
  }

  /** The area-weighted sum of the first `k` directions of motion. */
  function MoveDirSum(moveDirs: seq<NVec>, secs: seq<WingSection>, k: nat): NVec
    requires k <= |moveDirs| && k <= |secs|
  {
    if k == 0 then Num(Zero) else AddN(MoveDirSum(moveDirs, secs, k - 1), ScaleN(moveDirs[k - 1], Area(secs[k - 1])))
  }

  /** The weighted mean direction of motion: the weighted sum divided by the
      total area.  A zero total area divides by zero (the wing's force
      computation has already failed then) and gives NaN here. */
  function MeanMoveDir(moveDirs: seq<NVec>, secs: seq<WingSection>): NVec
    requires |moveDirs| == |secs|
  {
    var sum := MoveDirSum(moveDirs, secs, |secs|);
    var total := AreaTo(secs, |secs|);
    if sum.NaN? || total == 0.0 then NaN
    else Num(Vec3(sum.v.x / total, sum.v.y / total, sum.v.z / total))
  }

  /** One NaN direction makes the weighted sum NaN. */
  lemma {:induction false} MoveDirSumNaN(moveDirs: seq<NVec>, secs: seq<WingSection>, k: nat, j: nat)
    requires j < k <= |moveDirs| && k <= |secs|
    requires moveDirs[j].NaN?
    ensures MoveDirSum(moveDirs, secs, k).NaN?
  {
    if j < k - 1 {
      MoveDirSumNaN(moveDirs, secs, k - 1, j);
    }
  }

  /** When every section moves the same way, the weighted sum is that
      direction times the area covered. */
  lemma {:induction false} MoveDirSumUniform(moveDirs: seq<NVec>, secs: seq<WingSection>, k: nat, u: Vec3)
    requires k <= |moveDirs| && k <= |secs|
    requires forall j :: 0 <= j < k ==> moveDirs[j] == Num(u)
    ensures MoveDirSum(moveDirs, secs, k) == Num(Scale(u, AreaTo(secs, k)))
  {
    if k > 0 {
      MoveDirSumUniform(moveDirs, secs, k - 1, u);
      ScaleAdds(u, AreaTo(secs, k - 1), Area(secs[k - 1]));
    }
  }

  /** Scaling by two areas in turn and adding is scaling by their sum. */
  lemma ScaleAdds(u: Vec3, a: real, b: real)
    ensures Add(Scale(u, a), Scale(u, b)) == Scale(u, a + b)
  {
  }

  /** The mean of one repeated direction is that direction, and one NaN
      direction makes the mean NaN. */
  lemma MeanMoveDirProperties(moveDirs: seq<NVec>, secs: seq<WingSection>, u: Vec3)
    requires |moveDirs| == |secs|
    ensures (exists j :: 0 <= j < |secs| && moveDirs[j].NaN?) ==> MeanMoveDir(moveDirs, secs).NaN?
    ensures (forall j :: 0 <= j < |secs| ==> moveDirs[j] == Num(u)) && AreaTo(secs, |secs|) != 0.0
            ==> MeanMoveDir(moveDirs, secs) == Num(u)
  {
    if j :| 0 <= j < |secs| && moveDirs[j].NaN? {
      MeanMoveDirNaN(moveDirs, secs, j);
    }
    if (forall j :: 0 <= j < |secs| ==> moveDirs[j] == Num(u)) && AreaTo(secs, |secs|) != 0.0 {
      MeanMoveDirUniform(moveDirs, secs, u);
    }
  }

  lemma {:induction false} MeanMoveDirNaN(moveDirs: seq<NVec>, secs: seq<WingSection>, j: nat)
    requires |moveDirs| == |secs| && j < |secs| && moveDirs[j].NaN?
    ensures MeanMoveDir(moveDirs, secs).NaN?
  {
    MoveDirSumNaN(moveDirs, secs, |secs|, j);
  }

  lemma {:induction false} MeanMoveDirUniform(moveDirs: seq<NVec>, secs: seq<WingSection>, u: Vec3)
    requires |moveDirs| == |secs| && AreaTo(secs, |secs|) != 0.0
    requires forall j :: 0 <= j < |secs| ==> moveDirs[j] == Num(u)
    ensures MeanMoveDir(moveDirs, secs) == Num(u)
  {
    MoveDirSumUniform(moveDirs, secs, |secs|, u);
    MeanOfScaled(u, AreaTo(secs, |secs|));
  }

  /** Dividing a scaled vector by its scale gives it back. */
  lemma MeanOfScaled(u: Vec3, total: real)
    requires total != 0.0
    ensures var s := Scale(u, total); Vec3(s.x / total, s.y / total, s.z / total) == u
  {
    ScaledOverTotal(u.x, total);
    ScaledOverTotal(u.y, total);
    ScaledOverTotal(u.z, total);
  }

  lemma ScaledOverTotal(c: real, total: real)
    requires total != 0.0
    ensures c * total / total == c
  {
  }

  /** The weighted-mean loop of `calc_wing_forces_3d`. */
  method MeanMoveDirOf(moveDirs: seq<NVec>, secs: seq<WingSection>) returns (mean: NVec)
    requires |moveDirs| == |secs|
    ensures mean == MeanMoveDir(moveDirs, secs)
  {
    var sum: NVec := Num(Zero);
    var totalArea := 0.0;
    var i := 0;
    while i < |moveDirs|
      invariant 0 <= i <= |moveDirs|
      invariant sum == MoveDirSum(moveDirs, secs, i) && totalArea == AreaTo(secs, i)
    {
      var area := Area(secs[i]);
      sum := AddN(sum, ScaleN(moveDirs[i], area));
      totalArea := totalArea + area;
      i := i + 1;
    }
    if sum.NaN? || totalArea == 0.0 {
      mean := NaN;
    } else {
      mean := Num(Vec3(sum.v.x / totalArea, sum.v.y / totalArea, sum.v.z / totalArea));
    }
  }

  // ---------------------------------------------------------------------
  // The whole wing

  /** The sections' samples as two lists. */
  function Samples(secs: seq<WingSection>, linearVelocity: Vec3, angularVelocity: Vec3, rotOrigin: Vec3,
                   mountPos: Vec3, mountRot: Quat, isRightWing: bool, m: Transcendentals)
    : (r: (seq<WingSpeedAoa>, seq<NVec>))
    ensures |r.0| == |secs| && |r.1| == |secs|
  {
    (seq(|secs|, i requires 0 <= i < |secs| =>
       SampleAt(secs, i, linearVelocity, angularVelocity, rotOrigin, mountPos, mountRot, isRightWing, m).0),
     seq(|secs|, i requires 0 <= i < |secs| =>
       SampleAt(secs, i, linearVelocity, angularVelocity, rotOrigin, mountPos, mountRot, isRightWing, m).1))
  }

  /** What `calc_wing_forces_3d` computes: the mount rotation is normalised
      (and normalised again by the sampling), the sections sampled, the wing's
      forces computed and mapped with each section's direction of motion and
      the weighted mean one. */
  function WingForces3dOf(wing: Wing, linearVelocity: Vec3, angularVelocity: Vec3, rotOrigin: Vec3,
                          mountPos: Vec3, mountRot: Quat, isRightWing: bool, aileronDeg: real,
                          flapDeg: real, slatDeg: real, airDensity: real, m: Transcendentals)
    : (r: Result<WingForces3d, Fault>)
    reads wing.airfoil.clVsAoaCurve
    requires 0 < |wing.sections|
    ensures r.Success? ==> |r.value.sectionalLift| == |wing.sections| && |r.value.sectionalDrag| == |wing.sections|
  {
    var rot := QuatNormalize(mountRot, m);
    var samples := Samples(wing.sections, linearVelocity, angularVelocity, rotOrigin, mountPos,
                           QuatNormalize(rot, m), isRightWing, m);
    var forces :- wing.Forces(m, samples.0, aileronDeg, flapDeg, slatDeg, airDensity);
    Success(MapAll(forces, mountPos, rot, samples.1, MeanMoveDir(samples.1, wing.sections), isRightWing, m))
  }

  /** With deflections in range the 3D forces of a wing never fail on an
      argument check: the failures left are an empty lift curve and a
      non-finite value. */
  lemma WingForces3dNoArgumentFault(wing: Wing, linearVelocity: Vec3, angularVelocity: Vec3, rotOrigin: Vec3,
                                    mountPos: Vec3, mountRot: Quat, isRightWing: bool, aileronDeg: real,
                                    flapDeg: real, slatDeg: real, airDensity: real, m: Transcendentals)
    requires 0 < |wing.sections|
    requires DeflectionsInRange(aileronDeg, flapDeg, slatDeg)
    ensures var r := WingForces3dOf(wing, linearVelocity, angularVelocity, rotOrigin, mountPos, mountRot,
                                    isRightWing, aileronDeg, flapDeg, slatDeg, airDensity, m);
            r.Failure? ==> r.error == RuntimeError(EmptyMessage) || r.error == NotFinite
  {
    var rot := QuatNormalize(mountRot, m);
    var samples := Samples(wing.sections, linearVelocity, angularVelocity, rotOrigin, mountPos,
                           QuatNormalize(rot, m), isRightWing, m);
    wing.ForcesNoArgumentFault(m, samples.0, aileronDeg, flapDeg, slatDeg, airDensity);
  }

  /** `calc_wing_forces_3d`.  The wing's force computation reads its first
      section, so the wing must have one. */
  method CalcWingForces3d(wing: Wing, linearVelocity: Vec3, angularVelocity: Vec3, rotOrigin: Vec3,
                          mountPos: Vec3, mountRot: Quat, m: Transcendentals, isRightWing: bool := false,
                          aileronDeg: real := 0.0, flapDeg: real := 0.0, slatDeg: real := 0.0,
                          airDensity: real := DefaultAirDensity)
    returns (r: Result<WingForces3d, Fault>)
    requires 0 < |wing.sections|
    ensures r == WingForces3dOf(wing, linearVelocity, angularVelocity, rotOrigin, mountPos, mountRot,
                                isRightWing, aileronDeg, flapDeg, slatDeg, airDensity, m)
  {
    var rot := QuatNormalize(mountRot, m);
    var speedAoa, moveDirs := SectionalSpeedAoa(wing, linearVelocity, angularVelocity, rotOrigin, mountPos,
                                                rot, isRightWing, m);
    ghost var samples := Samples(wing.sections, linearVelocity, angularVelocity, rotOrigin, mountPos,
                                 QuatNormalize(rot, m), isRightWing, m);
    assert speedAoa == samples.0 && moveDirs == samples.1;
    var forces := wing.CalcForces(m, speedAoa, aileronDeg, flapDeg, slatDeg, airDensity);
    if forces.Failure? {
      return Failure(forces.error);
    }
    var mean := MeanMoveDirOf(moveDirs, wing.sections);
    var mapped := MapWingForcesTo3d(forces.value, mountPos, rot, moveDirs, mean, isRightWing, m);
    return Success(mapped);
  }

  /** `gather_wing_forces_3d`: every sectional lift, then every sectional
      drag, then the induced drag. */
  method GatherWingForces3d(forces: WingForces3d) returns (r: seq<WingForceVec3d>)
    ensures r == forces.sectionalLift + forces.sectionalDrag + [forces.inducedDrag]
  {
    r := [];
    var i := 0;
    while i < |forces.sectionalLift|
      invariant 0 <= i <= |forces.sectionalLift|
      invariant r == forces.sectionalLift[..i]
    {
      r := r + [forces.sectionalLift[i]];
      i := i + 1;
    }
    assert forces.sectionalLift[..i] == forces.sectionalLift;
    i := 0;
    while i < |forces.sectionalDrag|
      invariant 0 <= i <= |forces.sectionalDrag|
      invariant r == forces.sectionalLift + forces.sectionalDrag[..i]
    {
      r := r + [forces.sectionalDrag[i]];
      i := i + 1;
    }
    assert forces.sectionalDrag[..i] == forces.sectionalDrag;
    r := r + [forces.inducedDrag];
  }
}
