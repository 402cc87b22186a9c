/** The jet's flight-model step: the pilot's keys set the throttle and the
    aileron deflections, the engine and both halves of the main wing produce
    forces at points of the airframe, and the forces and their torques about
    the centre of mass accelerate and turn the body for one time step.

    The airframe's frame: +X is the nose, +Y the left wing, +Z up.  Forces
    are gathered in that frame and turned into the world frame by the jet's
    attitude `rot`. */
module Jets {
  import opened Wrappers
  import opened Scalars
  import opened Vectors
  import opened Curves
  import opened Wings
  import opened WingFrames

  /** How fast the throttle keys move the throttle, per second. */
  const ThrottleRate: real := 0.5
  const EmptyMass: real := 22500.0
  const MaxFuel: real := 12100.0
  /** The dry thrust at full throttle, in newtons. */
  const MaxThrustDry: real := 153000.0
  /** The fuel level; nothing in the flight model changes it (a full tank). */
  const FuelLevel: real := 1.0
  /** The diagonal entries of the inertia tensor (a placeholder sphere). */
  const Inertia: real := 48000.0

  const CenterOfMass: Vec3 := Vec3(-13.0, 0.0, -0.3)
  const CenterOfThrust: Vec3 := Vec3(-20.0, 0.0, -0.8)
  const LeftWingRootPos: Vec3 := Vec3(-14.4, 2.25, 0.0)
  const RightWingRootPos: Vec3 := Vec3(-14.4, -2.25, 0.0)
  const WingIncidenceDeg: real := 4.0
  /** Degrees of aileron per unit of pitch or roll command. */
  const AileronAuthority: real := 20.0
  /** The angular speed at or below which the attitude is left alone. */
  const MinTurnRate: real := 0.000001

  const YAxis: Vec3 := Vec3(0.0, 1.0, 0.0)

  /** The keys the flight model reads, each down or up:
      left shift and left control move the throttle, Z and X set it to full
      and to idle, W/S pitch down/up, D/A roll right/left, Q/E yaw. */
  datatype Keys = Keys(
    throttleUp: bool, throttleDown: bool, fullThrottle: bool, idle: bool,
    pitchDown: bool, pitchUp: bool, rollRight: bool, rollLeft: bool,
    rudderLeft: bool, rudderRight: bool)

  /** A force and the point of the airframe where it acts, both in the
      airframe's frame. */
  datatype JetForceVec = JetForceVec(force: Vec3, origin: Vec3)

  /** The jet's state of motion: position, attitude, velocity and angular
      velocity (a rotation vector), all in the world frame. */
  datatype Motion = Motion(pos: Vec3, rot: Quat, vel: Vec3, angVel: Vec3)

  // ---------------------------------------------------------------------
  // Controls

  /** The throttle after one step: shift raises it by `0.5 * dt` up to 1,
      control lowers it by as much down to 0, and Z (or else X) overrides
      both with full (or idle). */
  function NextThrottle(level: real, keys: Keys, dt: real): real {
    var raised := if keys.throttleUp then Min(level + ThrottleRate * dt, 1.0) else level;
    var lowered := if keys.throttleDown then Max(raised - ThrottleRate * dt, 0.0) else raised;
    if keys.fullThrottle then 1.0 else if keys.idle then 0.0 else lowered
  }

  /** With a non-negative time step, a throttle in [0, 1] stays in [0, 1]. */
  lemma ThrottleInRange(level: real, keys: Keys, dt: real)
    requires 0.0 <= level <= 1.0 && 0.0 <= dt
    ensures 0.0 <= NextThrottle(level, keys, dt) <= 1.0
  {
  }

  /** Without Z or X, and with a non-negative time step, shift alone never
      lowers a throttle below 1, control alone never raises a non-negative
      one, and with neither key the throttle stays where it is. */
  lemma ThrottleFollowsKeys(level: real, keys: Keys, dt: real)
    requires !keys.fullThrottle && !keys.idle && 0.0 <= dt
    ensures keys.throttleUp && !keys.throttleDown && level <= 1.0 ==> level <= NextThrottle(level, keys, dt)
    ensures keys.throttleDown && !keys.throttleUp && 0.0 <= level ==> NextThrottle(level, keys, dt) <= level
    ensures !keys.throttleUp && !keys.throttleDown ==> NextThrottle(level, keys, dt) == level
  {
  }

  /** +1, 0 or -1 for a pair of opposing keys. */
  function KeyAxis(plus: bool, minus: bool): (r: real)
    ensures r == 1.0 <==> plus && !minus
    ensures r == -1.0 <==> minus && !plus
    ensures r == 0.0 <==> plus == minus
  {
    Indicator(plus) - Indicator(minus)
  }

  function PitchDownRate(keys: Keys): real {
    KeyAxis(keys.pitchDown, keys.pitchUp)
  }

  function RollRightRate(keys: Keys): real {
    KeyAxis(keys.rollRight, keys.rollLeft)
  }

  /** The left wing's aileron: pitch and roll commands add. */
  function LeftAileron(keys: Keys): real {
    PitchDownRate(keys) * AileronAuthority + RollRightRate(keys) * AileronAuthority
  }

  /** The right wing's aileron: the roll command is subtracted. */
  function RightAileron(keys: Keys): real {
    PitchDownRate(keys) * AileronAuthority - RollRightRate(keys) * AileronAuthority
  }

  /** Each aileron deflects at most 40 degrees either way; the two together
      move by the pitch command and against each other by the roll command,
      so the commands can be read back from the deflections. */
  lemma AileronMixing(keys: Keys)
    ensures -40.0 <= LeftAileron(keys) <= 40.0 && -40.0 <= RightAileron(keys) <= 40.0
    ensures LeftAileron(keys) + RightAileron(keys) == 40.0 * PitchDownRate(keys)
    ensures LeftAileron(keys) - RightAileron(keys) == 40.0 * RollRightRate(keys)
  {
  }

  // ---------------------------------------------------------------------
  // Forces

  /** The engine's thrust: along the nose turned by a zero-degree thrust
      angle, scaled by throttle times the dry thrust, at the centre of
      thrust. */
  function ThrustForce(throttle: real, m: Transcendentals): JetForceVec {
    var thrustRot := AngleAxis(Radians(-0.0), YAxis, m);
    JetForceVec(Scale(Rotate(thrustRot, Forward), throttle * MaxThrustDry), CenterOfThrust)
  }

  /** The torque of one force about `center`. */
  function Torque(f: JetForceVec, center: Vec3): Vec3 {
    Cross(Sub(f.origin, center), f.force)
  }

  /** Under `Lawful`, the thrust points along the nose with the throttle
      times the dry thrust. */
  lemma ThrustAlongNose(throttle: real, m: Transcendentals)
    requires Lawful(m)
    ensures ThrustForce(throttle, m).force == Vec3(throttle * MaxThrustDry, 0.0, 0.0)
  {
    NoThrustAngle(m);
    RotateIdentity(Forward);
    ScaleForward(Rotate(AngleAxis(Radians(-0.0), YAxis, m), Forward), throttle * MaxThrustDry);
  }

  lemma ScaleForward(v: Vec3, k: real)
    requires v == Forward
    ensures Scale(v, k) == Vec3(k, 0.0, 0.0)
  {
  }

  /** The thrust angle of zero degrees is no rotation at all. */
  lemma NoThrustAngle(m: Transcendentals)
    requires Lawful(m)
    ensures AngleAxis(Radians(-0.0), YAxis, m) == Identity
  {
  }

  /** The centre of thrust sits 7 behind and 0.5 below the centre of mass,
      so a thrust `t` along the nose pitches the jet about the wing axis
      with a torque of `-0.5 * t` and no roll or yaw. */
  lemma ThrustTorque(t: real)
    ensures Torque(JetForceVec(Vec3(t, 0.0, 0.0), CenterOfThrust), CenterOfMass) == Vec3(0.0, -0.5 * t, 0.0)
  {
  }

  /** A force is orthogonal to its own torque, and one acting at the centre
      has none. */
  lemma TorqueProperties(f: JetForceVec, center: Vec3)
    ensures Dot(Torque(f, center), f.force) == 0.0
    ensures f.origin == center ==> Torque(f, center) == Zero
  {
    CrossOrthogonal(Sub(f.origin, center), f.force);
  }

  function WingRot(m: Transcendentals): Quat {
    AngleAxis(Radians(-WingIncidenceDeg), YAxis, m)
  }

  function Gathered(f: WingForces3d): seq<WingForceVec3d> {
    f.sectionalLift + f.sectionalDrag + [f.inducedDrag]
  }

  function ToJetForces(ws: seq<WingForceVec3d>): (r: seq<JetForceVec>)
    ensures |r| == |ws|
    ensures forall i :: 0 <= i < |ws| ==> r[i].force == ws[i].force && r[i].origin == ws[i].origin
  {
    seq(|ws|, i requires 0 <= i < |ws| => JetForceVec(ws[i].force, ws[i].origin))
  }

  /** One half of the main wing, mounted at `rootPos` with the wing's
      incidence, with the aileron deflection given and no flap or slat, seen
      about the centre of mass in still air of the default density. */
  function HalfWing(wing: Wing, localVel: Vec3, localAngVel: Vec3, rootPos: Vec3, isRightWing: bool,
                    aileronDeg: real, m: Transcendentals): (r: Result<WingForces3d, Fault>)
    reads wing.airfoil.clVsAoaCurve
    requires 0 < |wing.sections|
    ensures r.Success? ==> |Gathered(r.value)| == 2 * |wing.sections| + 1
  {
    WingForces3dOf(wing, localVel, localAngVel, CenterOfMass, rootPos, WingRot(m), isRightWing,
                   aileronDeg, 0.0, 0.0, DefaultAirDensity, m)
  }

  /** `forces` followed by every force of one half of the main wing: its
      sectional lifts, its sectional drags and its induced drag, in that
      order. */
  function WithWingHalf(forces: seq<JetForceVec>, wing: Wing, localVel: Vec3, localAngVel: Vec3, rootPos: Vec3,
                        isRightWing: bool, aileronDeg: real, m: Transcendentals)
    : (r: Result<seq<JetForceVec>, Fault>)
    reads wing.airfoil.clVsAoaCurve
    requires 0 < |wing.sections|
    ensures r.Success? ==> |r.value| == |forces| + 2 * |wing.sections| + 1 && r.value[..|forces|] == forces
  {
    var half :- HalfWing(wing, localVel, localAngVel, rootPos, isRightWing, aileronDeg, m);
    assert (forces + ToJetForces(Gathered(half)))[..|forces|] == forces;
    Success(forces + ToJetForces(Gathered(half)))
  }

  /** Appending a wing half appends its sectional lifts, its sectional
      drags and its induced drag, in that order, or fails as the half does. */
  lemma WithWingHalfContents(forces: seq<JetForceVec>, wing: Wing, localVel: Vec3, localAngVel: Vec3,
                             rootPos: Vec3, isRightWing: bool, aileronDeg: real, m: Transcendentals)
    requires 0 < |wing.sections|
    ensures var r := WithWingHalf(forces, wing, localVel, localAngVel, rootPos, isRightWing, aileronDeg, m);
            var half := HalfWing(wing, localVel, localAngVel, rootPos, isRightWing, aileronDeg, m);
            && (r.Success? <==> half.Success?)
            && (r.Failure? ==> r.error == half.error)
            && (r.Success? ==> r.value == forces + ToJetForces(Gathered(half.value)))
  {
  }

  /** The forces of one step, in the airframe's frame: the thrust, then
      every force of the left half of the main wing, then every force of the
      right half.  The wing sees the velocities turned into the airframe's
      frame by the inverse attitude; the attitude has no inverse only when it
      is the zero quaternion, where the division produces NaN. */
  function ForceList(wing: Wing, throttle: real, rot: Quat, vel: Vec3, angVel: Vec3, keys: Keys,
                     m: Transcendentals): (r: Result<seq<JetForceVec>, Fault>)
    reads wing.airfoil.clVsAoaCurve
    requires 0 < |wing.sections|
    ensures r.Success? ==> 0 < |r.value| && r.value[0] == ThrustForce(throttle, m)
    ensures r.Success? ==> |r.value| == 4 * |wing.sections| + 3
    ensures QuatDot(rot, rot) == 0.0 ==> r == Failure(NotFinite)
  {
    var inv := Inverse(rot);
    if inv.None? then Failure(NotFinite)
    else LocalForceList(wing, ThrustForce(throttle, m), Rotate(inv.value, vel), Rotate(inv.value, angVel), keys, m)
  }

  /** The force list of a non-zero attitude: the thrust, then the left
      half's forces and the right half's forces, each half seeing the
      velocities in the airframe's frame; the first half that fails decides
      the error. */
  lemma ForceListContents(wing: Wing, throttle: real, rot: Quat, vel: Vec3, angVel: Vec3, keys: Keys,
                          m: Transcendentals)
    requires 0 < |wing.sections|
    requires QuatDot(rot, rot) != 0.0
    ensures var r := ForceList(wing, throttle, rot, vel, angVel, keys, m);
            var localVel := Rotate(Inverse(rot).value, vel);
            var localAngVel := Rotate(Inverse(rot).value, angVel);
            var left := HalfWing(wing, localVel, localAngVel, LeftWingRootPos, false, LeftAileron(keys), m);
            var right := HalfWing(wing, localVel, localAngVel, RightWingRootPos, true, RightAileron(keys), m);
            && (r.Success? <==> left.Success? && right.Success?)
            && (left.Failure? ==> r == Failure(left.error))
            && (left.Success? && right.Failure? ==> r == Failure(right.error))
            && (r.Success? ==>
                  r.value == [ThrustForce(throttle, m)] + ToJetForces(Gathered(left.value))
                             + ToJetForces(Gathered(right.value)))
  {
    var inv := Inverse(rot).value;
    LocalForceListContents(wing, ThrustForce(throttle, m), Rotate(inv, vel), Rotate(inv, angVel), keys, m);
  }

  /** The force list in the airframe's frame is the thrust, the left
      half's forces and the right half's forces; the first half that fails
      decides the error. */
  lemma LocalForceListContents(wing: Wing, thrust: JetForceVec, localVel: Vec3, localAngVel: Vec3, keys: Keys,
                               m: Transcendentals)
    requires 0 < |wing.sections|
    ensures var r := LocalForceList(wing, thrust, localVel, localAngVel, keys, m);
            var left := HalfWing(wing, localVel, localAngVel, LeftWingRootPos, false, LeftAileron(keys), m);
            var right := HalfWing(wing, localVel, localAngVel, RightWingRootPos, true, RightAileron(keys), m);
            && (r.Success? <==> left.Success? && right.Success?)
            && (left.Failure? ==> r == Failure(left.error))
            && (left.Success? && right.Failure? ==> r == Failure(right.error))
            && (r.Success? ==>
                  r.value == [thrust] + ToJetForces(Gathered(left.value)) + ToJetForces(Gathered(right.value)))
  {
    var left := HalfWing(wing, localVel, localAngVel, LeftWingRootPos, false, LeftAileron(keys), m);
    WithWingHalfContents([thrust], wing, localVel, localAngVel, LeftWingRootPos, false, LeftAileron(keys), m);
    if left.Success? {
      WithWingHalfContents([thrust] + ToJetForces(Gathered(left.value)), wing, localVel, localAngVel,
                           RightWingRootPos, true, RightAileron(keys), m);
    }
  }

  /** The force list once the velocities are in the airframe's frame: the
      thrust, the left half's forces and the right half's forces; the first
      half that fails decides the error. */
  function LocalForceList(wing: Wing, thrust: JetForceVec, localVel: Vec3, localAngVel: Vec3, keys: Keys,
                          m: Transcendentals): (r: Result<seq<JetForceVec>, Fault>)
    reads wing.airfoil.clVsAoaCurve
    requires 0 < |wing.sections|
    ensures r.Success? ==> 0 < |r.value| && r.value[0] == thrust
    ensures r.Success? ==> |r.value| == 4 * |wing.sections| + 3
  {
    var withLeft :- WithWingHalf([thrust], wing, localVel, localAngVel, LeftWingRootPos,
                                 false, LeftAileron(keys), m);
    assert withLeft[..1] == [thrust];
    var all := WithWingHalf(withLeft, wing, localVel, localAngVel, RightWingRootPos, true,
                            RightAileron(keys), m);
    assert all.Success? ==> all.value[..|withLeft|] == withLeft && all.value[0] == withLeft[..1][0];
    all
  }

  /** The mixed aileron commands are within the airfoil's bounds and no
      flap or slat is set, so a step's force list never fails on an argument
      check: the failures left are an empty lift curve and a non-finite
      value. */
  lemma ForceListNoArgumentFault(wing: Wing, throttle: real, rot: Quat, vel: Vec3, angVel: Vec3, keys: Keys,
                                 m: Transcendentals)
    requires 0 < |wing.sections|
    ensures var r := ForceList(wing, throttle, rot, vel, angVel, keys, m);
            r.Failure? ==> r.error == RuntimeError(EmptyMessage) || r.error == NotFinite
  {
    if QuatDot(rot, rot) != 0.0 {
      var inv := Inverse(rot).value;
      var localVel := Rotate(inv, vel);
      var localAngVel := Rotate(inv, angVel);
      AileronMixing(keys);
      WingForces3dNoArgumentFault(wing, localVel, localAngVel, CenterOfMass, LeftWingRootPos, WingRot(m), false,
                                  LeftAileron(keys), 0.0, 0.0, DefaultAirDensity, m);
      WingForces3dNoArgumentFault(wing, localVel, localAngVel, CenterOfMass, RightWingRootPos, WingRot(m), true,
                                  RightAileron(keys), 0.0, 0.0, DefaultAirDensity, m);
    }
  }

  /** The sum of the forces, added front to back. */
  function SumForces(fs: seq<JetForceVec>): Vec3 {
    if |fs| == 0 then Zero else Add(SumForces(fs[..|fs| - 1]), fs[|fs| - 1].force)
  }

  /** The sum of the forces' torques about `center`, added front to back. */
  function SumTorques(fs: seq<JetForceVec>, center: Vec3): Vec3 {
    if |fs| == 0 then Zero else Add(SumTorques(fs[..|fs| - 1], center), Torque(fs[|fs| - 1], center))
  }

  /** The total force of two lists of forces is the sum of their totals. */
  lemma {:induction false} SumForcesAppend(a: seq<JetForceVec>, b: seq<JetForceVec>)
    ensures SumForces(a + b) == Add(SumForces(a), SumForces(b))
  {
    if |b| == 0 {
      assert a + b == a;
    } else {
      assert (a + b)[..|a + b| - 1] == a + b[..|b| - 1];
      SumForcesAppend(a, b[..|b| - 1]);
    }
  }

  /** The total torque of two lists of forces is the sum of their totals. */
  lemma {:induction false} SumTorquesAppend(a: seq<JetForceVec>, b: seq<JetForceVec>, center: Vec3)
    ensures SumTorques(a + b, center) == Add(SumTorques(a, center), SumTorques(b, center))
  {
    if |b| == 0 {
      assert a + b == a;
    } else {
      assert (a + b)[..|a + b| - 1] == a + b[..|b| - 1];
      SumTorquesAppend(a, b[..|b| - 1], center);
    }
  }

  /** Forces that all act at the centre produce no torque about it. */
  lemma {:induction false} ForcesAtCenterNoTorque(fs: seq<JetForceVec>, center: Vec3)
    requires forall i :: 0 <= i < |fs| ==> fs[i].origin == center
    ensures SumTorques(fs, center) == Zero
  {
    if |fs| > 0 {
      ForcesAtCenterNoTorque(fs[..|fs| - 1], center);
      TorqueProperties(fs[|fs| - 1], center);
    }
  }

  /** Adds up the forces, as the step's first loop does. */
  method TotalForce(fs: seq<JetForceVec>) returns (total: Vec3)
    ensures total == SumForces(fs)
  {
    total := Zero;
    var i := 0;
    while i < |fs|
      invariant 0 <= i <= |fs|
      invariant total == SumForces(fs[..i])
    {
      assert fs[..i + 1][..i] == fs[..i];
      total := Add(total, fs[i].force);
      i := i + 1;
    }
    assert fs[..i] == fs;
  }

  /** Adds up the torques about `center`, as the step's second loop does. */
  method TotalTorque(fs: seq<JetForceVec>, center: Vec3) returns (total: Vec3)
    ensures total == SumTorques(fs, center)
  {
    total := Zero;
    var i := 0;
    while i < |fs|
      invariant 0 <= i <= |fs|
      invariant total == SumTorques(fs[..i], center)
    {
      assert fs[..i + 1][..i] == fs[..i];
      var r := Sub(fs[i].origin, center);
      total := Add(total, Cross(r, fs[i].force));
      i := i + 1;
    }
    assert fs[..i] == fs;
  }

  /** Appends a wing's gathered forces to the list, one by one. */
  method AppendForces(forces: seq<JetForceVec>, ws: seq<WingForceVec3d>) returns (r: seq<JetForceVec>)
    ensures r == forces + ToJetForces(ws)
  {
    r := forces;
    var i := 0;
    while i < |ws|
      invariant 0 <= i <= |ws|
      invariant r == forces + ToJetForces(ws[..i])
    {
      assert ToJetForces(ws[..i + 1]) == ToJetForces(ws[..i]) + [JetForceVec(ws[i].force, ws[i].origin)];
      r := r + [JetForceVec(ws[i].force, ws[i].origin)];
      i := i + 1;
    }
    assert ws[..i] == ws;
  }

  // ---------------------------------------------------------------------
  // Integration

  function TotalMass(): (r: real)
    ensures EmptyMass <= r <= EmptyMass + MaxFuel
  {
    EmptyMass + FuelLevel * MaxFuel
  }

  /** The rotation of one step: a turn by `|angVel| * dt` about the angular
      velocity's direction, or none when the angular speed is at most
      `MinTurnRate`. */
  function TurnOf(angVel: Vec3, dt: real, m: Transcendentals): Option<Quat> {
    var turnRate := Length(angVel, m);
    if turnRate > MinTurnRate then
      var axis := Normalize(angVel, m);
      assert axis.Num?;
      Some(AngleAxis(turnRate * dt, axis.v, m))
    else None
  }

  /** The position of the centre of mass in the world: `get_center_of_mass`. */
  function WorldCenterOfMass(pos: Vec3, rot: Quat): (r: Vec3)
    ensures rot == Identity ==> r == Add(pos, CenterOfMass)
  {
    RotateIdentity(CenterOfMass);
    Add(pos, Rotate(rot, CenterOfMass))
  }

  /** The first half of an explicit Euler step under a total force and
      torque given in the airframe's frame: the accelerations are turned into
      the world frame, the velocity is updated first and then moves the
      position, and the angular velocity is updated. */
  function Accelerated(s: Motion, force: Vec3, torque: Vec3, dt: real): (r: Motion)
    ensures r.rot == s.rot
  {
    var accel := Rotate(s.rot, Scale(force, 1.0 / TotalMass()));
    var angAccel := Rotate(s.rot, Scale(torque, 1.0 / Inertia));
    var vel := Add(s.vel, Scale(accel, dt));
    Motion(Add(s.pos, Scale(vel, dt)), s.rot, vel, Add(s.angVel, Scale(angAccel, dt)))
  }

  /** The second half: a turn, if there is one, rotates the attitude about
      the centre of mass, moving the position to keep that point in place. */
  function Turned(s: Motion, dt: real, m: Transcendentals): (r: Motion)
    ensures r.vel == s.vel && r.angVel == s.angVel
    ensures TurnOf(s.angVel, dt, m).None? ==> r == s
  {
    var turn := TurnOf(s.angVel, dt, m);
    if turn.Some? then
      var comOffset := Rotate(s.rot, CenterOfMass);
      s.(pos := Sub(s.pos, Sub(Rotate(turn.value, comOffset), comOffset)),
         rot := QuatNormalize(QuatMul(turn.value, s.rot), m))
    else s
  }

  /** The second half with a turn `dRot`. */
  lemma TurnedBy(s: Motion, dt: real, m: Transcendentals, dRot: Quat)
    requires TurnOf(s.angVel, dt, m) == Some(dRot)
    ensures var comOffset := Rotate(s.rot, CenterOfMass);
            Turned(s, dt, m) == s.(pos := Sub(s.pos, Sub(Rotate(dRot, comOffset), comOffset)),
                                   rot := QuatNormalize(QuatMul(dRot, s.rot), m))
  {
  }

  /** One step of the jet's motion. */
  function Integrate(s: Motion, force: Vec3, torque: Vec3, dt: real, m: Transcendentals): Motion {
    Turned(Accelerated(s, force, torque, dt), dt, m)
  }

  /** No force leaves the velocity as it was, no torque the angular
      velocity; without a turn the attitude stays and the position moves by
      the new velocity over the step. */
  lemma StepKinematics(s: Motion, force: Vec3, torque: Vec3, dt: real, m: Transcendentals)
    ensures force == Zero ==> Integrate(s, force, torque, dt, m).vel == s.vel
    ensures torque == Zero ==> Integrate(s, force, torque, dt, m).angVel == s.angVel
    ensures var r := Integrate(s, force, torque, dt, m);
            TurnOf(r.angVel, dt, m).None? ==> r.rot == s.rot && r.pos == Add(s.pos, Scale(r.vel, dt))
  {
    if force == Zero {
      assert Scale(Zero, 1.0 / TotalMass()) == Zero;
      RotateZero(s.rot);
    }
    if torque == Zero {
      assert Scale(Zero, 1.0 / Inertia) == Zero;
      RotateZero(s.rot);
    }
  }

  /** A turn is about the centre of mass: the position after the turn, plus
      the centre of mass's offset carried along by the turn, is where the
      centre of mass was before it. */
  lemma TurnAboutCenterOfMass(s: Motion, dt: real, m: Transcendentals)
    requires TurnOf(s.angVel, dt, m).Some?
    ensures var comOffset := Rotate(s.rot, CenterOfMass);
            Add(Turned(s, dt, m).pos, Rotate(TurnOf(s.angVel, dt, m).value, comOffset))
            == WorldCenterOfMass(s.pos, s.rot)
  {
  }

  /** Under `Lawful`, a unit attitude stays a unit quaternion through a
      whole step. */
  lemma AttitudeStaysUnit(s: Motion, force: Vec3, torque: Vec3, dt: real, m: Transcendentals)
    requires Lawful(m) && QuatDot(s.rot, s.rot) == 1.0
    ensures var r := Integrate(s, force, torque, dt, m); QuatDot(r.rot, r.rot) == 1.0
  {
    var a := Accelerated(s, force, torque, dt);
    var turn := TurnOf(a.angVel, dt, m);
    if turn.Some? {
      QuatNormalizeUnit(QuatMul(turn.value, a.rot), m);
    }
  }

  /** Rotating the zero vector gives the zero vector. */
  lemma RotateZero(q: Quat)
    ensures Rotate(q, Zero) == Zero
  {
    assert Cross(Axis(q), Zero) == Zero;
  }

  /** Without force or torque the velocities do not change and the jet
      coasts along its velocity. */
  lemma Coasting(s: Motion, dt: real, m: Transcendentals)
    ensures var r := Integrate(s, Zero, Zero, dt, m); r.vel == s.vel && r.angVel == s.angVel
    ensures Accelerated(s, Zero, Zero, dt).pos == Add(s.pos, Scale(s.vel, dt))
  {
    var a := Accelerated(s, Zero, Zero, dt);
    assert Scale(Zero, 1.0 / TotalMass()) == Zero;
    assert Scale(Zero, 1.0 / Inertia) == Zero;
    RotateZero(s.rot);
    assert a.vel == s.vel;
    assert a.angVel == s.angVel;
  }

  // ---------------------------------------------------------------------
  // The jet

  class Jet {
    const mainWing: Wing
    var pos: Vec3
    var rot: Quat
    var vel: Vec3
    var angVel: Vec3
    var throttleLevel: real
    /** The forces of the last step, kept for drawing. */
    var debugForces: seq<JetForceVec>

    /** A jet at the origin, level, flying at 100 m/s along +X with the
        throttle at idle. */
    constructor (mainWing: Wing)
      ensures this.mainWing == mainWing
      ensures pos == Zero && rot == Identity && vel == Vec3(100.0, 0.0, 0.0) && angVel == Zero
      ensures throttleLevel == 0.0 && debugForces == []
    {
      this.mainWing := mainWing;
      pos, rot, vel, angVel := Zero, Identity, Vec3(100.0, 0.0, 0.0), Zero;
      throttleLevel := 0.0;
      debugForces := [];
    }

    /** `get_center_of_mass`. */
    method GetCenterOfMass() returns (c: Vec3)
      ensures c == WorldCenterOfMass(pos, rot)
    {
      c := pos;
      c := Add(c, Rotate(rot, CenterOfMass));
    }

    /** The forces of one step from the current state and keys: the
        thrust, then each half of the main wing's forces, gathered. */
    method CollectForces(keys: Keys, m: Transcendentals) returns (r: Result<seq<JetForceVec>, Fault>)
      requires 0 < |mainWing.sections|
      ensures r == ForceList(mainWing, throttleLevel, rot, vel, angVel, keys, m)
    {
      var inv := Inverse(rot);
      if inv.None? {
        return Failure(NotFinite);
      }
      r := CollectLocalForces(ThrustForce(throttleLevel, m), Rotate(inv.value, vel), Rotate(inv.value, angVel),
                              keys, m);
    }

    /** The thrust followed by both wing halves, with the velocities already
        in the airframe's frame. */
    method CollectLocalForces(thrust: JetForceVec, localVel: Vec3, localAngVel: Vec3, keys: Keys,
                              m: Transcendentals)
      returns (r: Result<seq<JetForceVec>, Fault>)
      requires 0 < |mainWing.sections|
      ensures r == LocalForceList(mainWing, thrust, localVel, localAngVel, keys, m)
    {
      var withLeft := AddWingHalf([thrust], localVel, localAngVel, LeftWingRootPos, false,
                                  LeftAileron(keys), m);
      if withLeft.Failure? {
        return withLeft;
      }
      r := AddWingHalf(withLeft.value, localVel, localAngVel, RightWingRootPos, true,
                       RightAileron(keys), m);
    }

    /** One half of the main wing: its forces computed, gathered and
        appended to the list. */
    method AddWingHalf(forces: seq<JetForceVec>, localVel: Vec3, localAngVel: Vec3, rootPos: Vec3,
                       isRightWing: bool, aileronDeg: real, m: Transcendentals)
      returns (r: Result<seq<JetForceVec>, Fault>)
      requires 0 < |mainWing.sections|
      ensures r == WithWingHalf(forces, mainWing, localVel, localAngVel, rootPos, isRightWing, aileronDeg, m)
    {
      var half := CalcWingForces3d(mainWing, localVel, localAngVel, CenterOfMass, rootPos, WingRot(m), m,
                                   isRightWing, aileronDeg);
      if half.Failure? {
        return Failure(half.error);
      }
      var gathered := GatherWingForces3d(half.value);
      var appended := AppendForces(forces, gathered);
      return Success(appended);
    }

    /** The first half of the integration: accelerations from the total
        force and torque, then velocity, position and angular velocity.
        `before` is the motion at the call. */
    method Accelerate(totalForce: Vec3, totalTorque: Vec3, dt: real, ghost before: Motion)
      requires before == Motion(pos, rot, vel, angVel)
      modifies this`pos, this`vel, this`angVel
      ensures Motion(pos, rot, vel, angVel) == Accelerated(before, totalForce, totalTorque, dt)
    {
      var totalMass := EmptyMass + FuelLevel * MaxFuel;
      var accel := Scale(totalForce, 1.0 / totalMass);
      var angAccel := Scale(totalTorque, 1.0 / Inertia);
      accel := Rotate(rot, accel);
      angAccel := Rotate(rot, angAccel);

      vel := Add(vel, Scale(accel, dt));
      pos := Add(pos, Scale(vel, dt));
      angVel := Add(angVel, Scale(angAccel, dt));
    }

    /** The second half: a turn about the centre of mass, when the jet turns
        faster than `MinTurnRate`. */
    method Turn(dt: real, m: Transcendentals, ghost before: Motion)
      requires before == Motion(pos, rot, vel, angVel)
      modifies this`pos, this`rot
      ensures Motion(pos, rot, vel, angVel) == Turned(before, dt, m)
    {
      var turn := TurnOf(angVel, dt, m);
      if turn.Some? {
        var dRot := turn.value;
        TurnedBy(before, dt, m, dRot);
        var comOffset := Rotate(rot, CenterOfMass);
        pos := Sub(pos, Sub(Rotate(dRot, comOffset), comOffset));
        rot := QuatNormalize(QuatMul(dRot, rot), m);
      }
    }

    /** The integration of one step under a list of forces: their total
        force and total torque about the centre of mass accelerate the jet,
        then it turns. */
    method ApplyForces(forces: seq<JetForceVec>, dt: real, m: Transcendentals, ghost before: Motion)
      requires before == Motion(pos, rot, vel, angVel)
      modifies this`pos, this`rot, this`vel, this`angVel
      ensures Motion(pos, rot, vel, angVel)
              == Integrate(before, SumForces(forces), SumTorques(forces, CenterOfMass), dt, m)
    {
      var totalForce := TotalForce(forces);
      var totalTorque := TotalTorque(forces, CenterOfMass);
      Accelerate(totalForce, totalTorque, dt, before);
      Turn(dt, m, Accelerated(before, totalForce, totalTorque, dt));
    }

    /** The throttle keys: shift and control move the throttle at
        `ThrottleRate` per second within [0, 1], then Z or X override. */
    method UpdateThrottle(keys: Keys, dt: real)
      modifies this`throttleLevel
      ensures throttleLevel == NextThrottle(old(throttleLevel), keys, dt)
    {
      if keys.throttleUp {
        throttleLevel := throttleLevel + ThrottleRate * dt;
        throttleLevel := Min(throttleLevel, 1.0);
      }
      if keys.throttleDown {
        throttleLevel := throttleLevel - ThrottleRate * dt;
        throttleLevel := Max(throttleLevel, 0.0);
      }
      if keys.fullThrottle {
        throttleLevel := 1.0;
      } else if keys.idle {
        throttleLevel := 0.0;
      }
    }

    /** `update_physics_from_input`: one step of `dt` seconds with the keys
        that are down.  The attitude is normalised and the throttle updated
        first; if a wing's forces cannot be computed, the step stops there
        with the wing's fault and nothing else changes. */
    method UpdatePhysicsFromInput(keys: Keys, dt: real, m: Transcendentals) returns (r: Outcome<Fault>)
      requires 0 < |mainWing.sections|
      modifies this`pos, this`rot, this`vel, this`angVel, this`throttleLevel, this`debugForces
      ensures throttleLevel == NextThrottle(old(throttleLevel), keys, dt)
      ensures r.Pass? <==> ForceList(mainWing, throttleLevel, QuatNormalize(old(rot), m), old(vel), old(angVel),
                                     keys, m).Success?
      ensures r.Fail? ==> r.error == ForceList(mainWing, throttleLevel, QuatNormalize(old(rot), m), old(vel),
                                               old(angVel), keys, m).error
      ensures r.Fail? ==> rot == QuatNormalize(old(rot), m) && pos == old(pos) && vel == old(vel)
                          && angVel == old(angVel) && debugForces == old(debugForces)
      ensures r.Pass? ==> debugForces == ForceList(mainWing, throttleLevel, QuatNormalize(old(rot), m), old(vel),
                                                   old(angVel), keys, m).value
      ensures r.Pass? ==> Motion(pos, rot, vel, angVel)
                          == Integrate(Motion(old(pos), QuatNormalize(old(rot), m), old(vel), old(angVel)),
                                       SumForces(debugForces), SumTorques(debugForces, CenterOfMass), dt, m)
    {
      rot := QuatNormalize(rot, m);
      UpdateThrottle(keys, dt);
      ghost var before := Motion(old(pos), QuatNormalize(old(rot), m), old(vel), old(angVel));
      ghost var expected := ForceList(mainWing, throttleLevel, rot, vel, angVel, keys, m);
      r := Advance(keys, dt, m, before, expected);
    }

    /** The rest of the step once the attitude and throttle are set: the
        forces are collected and kept for drawing, then integrated.
        `before` is the motion at the call and `expected` the force list
        it leads to. */
    method Advance(keys: Keys, dt: real, m: Transcendentals, ghost before: Motion,
                   ghost expected: Result<seq<JetForceVec>, Fault>)
      returns (r: Outcome<Fault>)
      requires 0 < |mainWing.sections|
      requires before == Motion(pos, rot, vel, angVel)
      requires expected == ForceList(mainWing, throttleLevel, rot, vel, angVel, keys, m)
      modifies this`pos, this`rot, this`vel, this`angVel, this`debugForces
      ensures r.Pass? <==> expected.Success?
      ensures r.Fail? ==> r.error == expected.error
      ensures r.Fail? ==> Motion(pos, rot, vel, angVel) == before && debugForces == old(debugForces)
      ensures r.Pass? ==> debugForces == expected.value
      ensures r.Pass? ==> Motion(pos, rot, vel, angVel)
                          == Integrate(before, SumForces(debugForces), SumTorques(debugForces, CenterOfMass), dt, m)
    {
      var forces := CollectForces(keys, m);
      if forces.Failure? {
        return Fail(forces.error);
      }
      debugForces := forces.value;
      ApplyForces(forces.value, dt, m, before);
      return Pass;
    }
  }
}
