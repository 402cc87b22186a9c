# Flight model core, in Dafny

This project models the aerodynamics and rigid-body step of a small jet
flight simulator, together with the companion tool that edits the lift
curves the simulator reads:

- **Curves** (`src/dynamics/curve.hpp`): a lift curve stored as evenly spaced
  normalised samples. It has x and y ranges and linear interpolation
  (`sample`). It is loaded from a whitespace-separated text file whose
  header holds the control-point count and the sample count.
- **Airfoils** (`src/dynamics/airfoil.hpp`): an airfoil built around a copy of
  a lift curve. The constructor scans the curve every 0.1 degrees for its
  stall peaks. `calc_coeffs` computes lift and drag coefficients, applying
  the slat, flap (with smoothstep fade-out past stall) and sweep effects, and
  a clamped drag polar.
- **Wings** (`src/dynamics/wing.hpp`): a wing made of spanwise sections. The
  constructor rejects a section that has both an aileron and a flap.
  `calc_forces` computes each section's lift and drag, where each acts, and
  one induced-drag force for the whole wing.
- **WingFrames** (`src/dynamics/wing_3d_helper.hpp`): places a wing in three
  dimensions. It finds each section's airspeed and angle of attack from the
  body's motion, and maps the wing's forces to force vectors at points of the
  body.
- **Jets** (`src/entity/jet.cpp`): one physics step of the jet. The throttle
  keys and control keys set the throttle and ailerons. Thrust and both wing
  halves produce forces. Their total force and torque about the centre of
  mass drive an explicit Euler step, which then rotates about the centre of
  mass.
- **SplineTool** (`tools/spline_generator/cubic_spline.py`): the interactive
  control-point editor. It covers picking, adding, removing and dragging
  points, which keeps the list sorted by x. It also covers the interpolation
  fallbacks for fewer than three points, and loading and saving the curve
  file. The save format is proved to read back both through the tool's own
  loader and through `Curve.LoadFromFile`.

Supporting modules: `Wrappers` (Option, Result, Outcome and the `Fault`
kinds), `Scalars` (clamp, mix, smoothstep, angles, and the
`Transcendentals` bundle), and `Vectors` (3-vectors, quaternions, and
normalisation that may yield NaN).

Modelling conventions:

- Real arithmetic stands in for `float`.
- `cos`, `sin`, `sqrt` and `atan2` are fields of a `Transcendentals`
  value passed as a parameter. The predicate `Lawful` states the only facts
  the proofs assume about them. Examples: a square root is non-negative and
  squares back; the cosine of 0 is 1.
- A C++ exception becomes `Failure` carrying the source's message.
- A division the source leaves unguarded, whose result would be infinite or
  NaN, becomes `Failure(NotFinite)`.
- NaN that the source tests for explicitly (`std::isnan`, `safe_normalize`)
  is an explicit branch.
- Undefined behaviour (such as `front()` of an empty vector or an
  out-of-range index) becomes a precondition.

## Model

| member | source | states |
|---|---|---|
| Scalars.Clamp | src/dynamics/airfoil.hpp:73-74 | `glm::clamp`: inside [lo, hi] when lo <= hi; identity inside; the bound that was passed; hi when the bounds are crossed |
| Scalars.ClampIdempotent | src/dynamics/curve.hpp:44 | clamping twice is clamping once |
| Scalars.ClampMonotone | src/dynamics/curve.hpp:44 | clamping preserves order |
| Scalars.Mix | src/dynamics/curve.hpp:51 | `glm::mix` gives a at t = 0, b at t = 1, and lies between a and b for t in [0, 1] |
| Scalars.Smoothstep | src/dynamics/airfoil.hpp:95-104 | `glm::smoothstep` is undefined only when both edges and x coincide; otherwise in [0, 1], 0 below the lower edge and 1 above the upper |
| Scalars.Abs | src/dynamics/airfoil.hpp:116-117 | `std::abs` is non-negative and is x or -x |
| Vectors.CrossOrthogonal | src/dynamics/wing_3d_helper.hpp:128-129 | a cross product is orthogonal to both its factors |
| Vectors.RotateIdentity | src/entity/jet.cpp:133-137 | the identity quaternion rotates nothing |
| Vectors.Inverse | src/entity/jet.cpp:197-198 | `glm::inverse` of a quaternion is undefined exactly for the zero quaternion and is the conjugate for a unit one |
| Vectors.QuatNormalize | src/entity/jet.cpp:153 | `glm::normalize` of a quaternion of zero length gives the identity |
| Vectors.QuatNormalizeUnit | src/entity/jet.cpp:153 | a normalised quaternion has unit norm |
| Vectors.AngleAxis | src/entity/jet.cpp:188-190 | a rotation by angle zero is the identity |
| Vectors.NormalizeUnit | src/dynamics/wing_3d_helper.hpp:78 | `glm::normalize` is NaN exactly for the zero vector, and of unit length otherwise |
| Curves.Locate | src/dynamics/curve.hpp:48-50 | the low index plus the fraction is exactly `u * (n - 1)`, the fraction is in [0, 1), and the high index is the next one, capped at the last sample where the fraction is 0; position 1 lands on the last sample |
| Curves.LocateGridPoint | src/dynamics/curve.hpp:48-50 | a position on the k-th grid point selects sample k with fraction 0 |
| Curves.Unit | src/dynamics/curve.hpp:44-45 | inside the domain the result is `(x - x_min) / (x_max - x_min)`; clamping then normalising lands in [0, 1], with 0 at or below x_min and 1 at or above x_max |
| Curves.Interpolate | src/dynamics/curve.hpp:48-51 | the interpolated value lies between the two neighbouring samples; its exact value is stated by InterpolateAffine |
| Curves.InterpolateAffine | src/dynamics/curve.hpp:47-51 | interpolation is linear: a table sampling a line at its indices reads back that line at `u * (n - 1)` |
| Curves.Values | src/dynamics/curve.hpp:33-36 | the numbers read, one per token |
| Curves.ReadReal | src/dynamics/curve.hpp:29-35 | `operator>>` on a float: a failed stream is left alone; a number is read and consumed; a word sets the value to 0 and fails; end of input fails and keeps the value |
| Curves.Fill | src/dynamics/curve.hpp:33-36 | the fill loop writes the first k entries and keeps the rest |
| Curves.Resize | src/dynamics/curve.hpp:33 | `std::vector::resize` keeps the old prefix and pads with zeros |
| Curves.ReadHeader | src/dynamics/curve.hpp:25-26 | the header is two counts; a non-numeric sample count fails the stream and leaves the count at 0 |
| Curves.Loaded | src/dynamics/curve.hpp:25-36 | the loaded data has as many entries as the header's sample count |
| Curves.SkipNumeric | src/dynamics/curve.hpp:28-31 | skipping k numbers advances the stream by k and does not fail it |
| Curves.FillNumeric | src/dynamics/curve.hpp:33-36 | reading k numbers consumes k tokens and stores their values in order |
| Curves.LoadWellFormed | src/dynamics/curve.hpp:10-38 | a well-formed file loads exactly its sample values |
| Curves.Curve.constructor | src/dynamics/curve.hpp:7-8 | a new curve has the ranges [0, 1] x [0, 1] and no data |
| Curves.Curve.Copy | src/dynamics/airfoil.hpp:44 | a copy carries the ranges and data |
| Curves.Curve.Sample | src/dynamics/curve.hpp:40-54 | empty data throws "Curve data is empty."; otherwise fails only on a zero-width x range |
| Curves.Curve.SetXRange | src/dynamics/curve.hpp:56-59 | sets the x range and changes nothing else |
| Curves.Curve.SetYRange | src/dynamics/curve.hpp:61-64 | sets the y range and changes nothing else |
| Curves.Curve.LoadFromFile | src/dynamics/curve.hpp:10-38 | an unopenable file throws with the path and leaves the data; otherwise the data becomes what the stream reads, and the ranges never change |
| Curves.SampleClamps | src/dynamics/curve.hpp:44 | sampling outside the range equals sampling at the nearer end |
| Curves.SameUnitSameSample | src/dynamics/curve.hpp:44-53 | the sample depends on x only through its normalised position |
| Curves.SampleEnds | src/dynamics/curve.hpp:40-54 | the ends of the range give the first and last samples, denormalised |
| Curves.UnitAtGridPoint | src/dynamics/curve.hpp:45 | the k-th grid point normalises to k / (n - 1) |
| Curves.InterpolateAtGridPoint | src/dynamics/curve.hpp:48-51 | interpolation at k / (n - 1) returns sample k exactly |
| Curves.SampleAtGridPoint | src/dynamics/curve.hpp:40-54 | sampling at the k-th grid point returns sample k, denormalised |
| Curves.SampleInRange | src/dynamics/curve.hpp:51-53 | normalised data gives samples inside [y_min, y_max] |
| Airfoils.ScanCountBound | src/dynamics/airfoil.hpp:49 | the scan's loop condition holds for exactly its first ScanCount steps |
| Airfoils.ScanFails | src/dynamics/airfoil.hpp:49-59 | the scan fails exactly when it takes a step and the curve cannot be sampled, with that error |
| Airfoils.ScanPeaks | src/dynamics/airfoil.hpp:49-59 | the kept maximum and minimum bound every sample, bracket 0, and are where they were first reached, or stay at their initial 0 |
| Airfoils.Airfoil.Create | src/dynamics/airfoil.hpp:31-68 | the constructor copies the curve, sets its ranges, and stores the scan's peaks and the parameters; fails exactly on empty data or a zero angle range |
| Airfoils.Airfoil.ScanCurve | src/dynamics/airfoil.hpp:49-59 | the scan loop computes the scan's peaks |
| Airfoils.Airfoil.CurveScale | src/dynamics/airfoil.hpp:87-89 | the slat scale is undefined exactly when the curve maximum is 0; otherwise it times the maximum is the maximum plus the slat gain, it is 0 exactly when that sum is, and it is 1 without slats |
| Airfoils.Airfoil.Stretched | src/dynamics/airfoil.hpp:91 | `sample(aoa / scale) * scale`: empty data throws; scale 1 is a plain sample; scale 0 at a non-zero angle saturates the clamp and gives 0; scale 0 at angle 0 is NaN; any other failure is NotFinite |
| Airfoils.Airfoil.FlapEffectiveness | src/dynamics/airfoil.hpp:94-104 | the flap factor lies in [0, 1]: full before stall, none past the curve's end, on both sides |
| Airfoils.Airfoil.DragCoefficient | src/dynamics/airfoil.hpp:115-118 | the drag coefficient is clamped to [base_cd, 1.5] |
| Airfoils.Airfoil.CalcCoeffs | src/dynamics/airfoil.hpp:70-121 | the flap check fires before the slat check, each with its message; empty data throws and every other failure is NotFinite; it succeeds exactly when every step is finite, and then cl is the stretched curve plus the flap term, times cos(sweep) for a positive sweep, and cd is the drag at the clamped angle |
| Airfoils.Airfoil.CoeffsAt | src/dynamics/airfoil.hpp:75-118 | the same checks, failures, lift and drag, for an angle already clamped |
| Airfoils.CoeffsClampAoa | src/dynamics/airfoil.hpp:73-74 | only the clamped angle of attack matters |
| Airfoils.CleanWingReadsCurve | src/dynamics/airfoil.hpp:85-118 | with no slat and no flap, the lift coefficient is the curve read at the clamped angle, times cos(sweep) for a positive sweep; a failing sample fails the same way |
| Airfoils.CancelledStretchLeavesFlapLift | src/dynamics/airfoil.hpp:85-110 | slats that cancel the curve maximum leave only the flap's lift at a non-zero angle, still finite |
| Airfoils.DragMonotone | src/dynamics/airfoil.hpp:115-118 | the drag does not decrease as the squared angle or the deflection magnitudes grow |
| Wings.NatToString | src/dynamics/wing.hpp:56-58 | `std::to_string` of a count is a non-empty string of decimal digits that spell the count, without a leading zero |
| Wings.ConflictMessageNamesSection | src/dynamics/wing.hpp:56-58 | two sections' conflict messages are equal only for the same section index |
| Wings.FlapArg | src/dynamics/wing.hpp:96-99 | a section's flap input is its aileron deflection, its flap deflection, their sum, or 0, as it carries them |
| Wings.RoutedDeflectionsInRange | src/dynamics/wing.hpp:96-100 | deflections in range reach every section inside the airfoil's bounds |
| Wings.SlatArg | src/dynamics/wing.hpp:100 | a section's slat input is the slat deflection only if it has a slat |
| Wings.DynamicPressureScaling | src/dynamics/wing.hpp:105-106 | the dynamic pressure is linear in density and quadratic in speed |
| Wings.RunningSumForm | src/dynamics/wing.hpp:94-127 | a section's lift and drag built from the running span and shift sums, as the loop of `calc_forces` does, equal the closed forms over the sections before it |
| Wings.SectionCl | src/dynamics/wing.hpp:146-150 | a NaN coefficient from 0/0 becomes 0 |
| Wings.SectionClRecovers | src/dynamics/wing.hpp:146-150 | dividing the lift back gives the section's coefficient wherever it is defined |
| Wings.InducedFromSums | src/dynamics/wing.hpp:132-187 | a zero span or area is NotFinite; the induced drag acts at half the span, midway between the first and last drag origins |
| Wings.InducedDrag | src/dynamics/wing.hpp:129-187 | the induced drag of the section lists fails only as NotFinite, and acts at half the span, midway between the first and last drag origins |
| Wings.InducedDragDefined | src/dynamics/wing.hpp:132-179 | the induced drag is defined exactly when span, area, cosine of sweep and span efficiency are non-zero |
| Wings.Wing.constructor | src/dynamics/wing.hpp:43-52 | stores the airfoil, the sections and the span efficiency |
| Wings.Wing.Create | src/dynamics/wing.hpp:43-61 | fails exactly when some section has both an aileron and a flap, naming the first such section |
| Wings.Wing.Sectional | src/dynamics/wing.hpp:94-127 | the loop yields one lift and one drag per section |
| Wings.Wing.Forces | src/dynamics/wing.hpp:79-190 | a successful result has one lift and one drag per section |
| Wings.Wing.CalcForces | src/dynamics/wing.hpp:79-190 | the method computes `Forces`, success, value and error alike |
| Wings.Wing.InducedDragOf | src/dynamics/wing.hpp:129-187 | the second half of the method computes the induced drag of the sums |
| Wings.Wing.AreaWeightedSums | src/dynamics/wing.hpp:132-156 | the summing loops compute the total area, the area-weighted lift coefficient and the area-weighted speed |
| Wings.Wing.CalcForcesUniform | src/dynamics/wing.hpp:63-77 | the uniform overload is the general one with the same speed and angle at every section |
| Wings.Wing.InducedDragNotNegative | src/dynamics/wing.hpp:172-179 | a wing's induced drag is not negative for non-negative density and positive span efficiency |
| Wings.Wing.SectionalStep | src/dynamics/wing.hpp:94-127 | one more loop iteration appends that section's lift and drag |
| Wings.Wing.SectionalStops | src/dynamics/wing.hpp:94-127 | the first failing section's error propagates unchanged |
| Wings.Wing.SectionalSucceeds | src/dynamics/wing.hpp:94-127 | the loop succeeds exactly when every section's coefficients do |
| Wings.Wing.SectionalEntry | src/dynamics/wing.hpp:94-127 | entry i is section i's lift and drag from its own coefficients and place |
| Wings.Wing.SectionalNoArgumentFault | src/dynamics/wing.hpp:94-101 | with deflections in range the section loop never fails an argument check |
| Wings.Wing.ForcesNoArgumentFault | src/dynamics/wing.hpp:79-190 | with deflections in range the wing's forces fail only on empty data or NotFinite |
| Wings.LiftAheadOfDrag | src/dynamics/wing.hpp:111-122 | a section's lift and drag share a spanwise point, with the lift a quarter chord ahead |
| Wings.SpanwiseOriginIsMidpoint | src/dynamics/wing.hpp:108-120 | a section's spanwise origin is the middle of the span it covers |
| Wings.ForceLinearInDensity | src/dynamics/wing.hpp:103-106 | forces are linear in air density |
| Wings.InducedDragNonNegative | src/dynamics/wing.hpp:172-179 | the induced drag is not negative for non-negative density and positive efficiency, whatever the sign of the area |
| WingFrames.LocalVelocityRigid | src/dynamics/wing_3d_helper.hpp:18-22 | the velocity equals `vel` at the rotation origin and everywhere when the angular velocity is zero; a point's extra velocity is orthogonal to the rotation axis and to its offset |
| WingFrames.InPlaneOrthogonal | src/dynamics/wing_3d_helper.hpp:79-81 | the in-plane velocity is orthogonal to the span direction |
| WingFrames.CosineOr | src/dynamics/wing_3d_helper.hpp:83-93 | a NaN cosine falls back, and the rest is clamped to [-1, 1] |
| WingFrames.NoPlaneVelocityNoAoa | src/dynamics/wing_3d_helper.hpp:79-104 | no in-plane velocity gives zero speed and zero angle of attack |
| WingFrames.AirspeedNonNegative | src/dynamics/wing_3d_helper.hpp:82 | the airspeed is non-negative, and zero exactly when the in-plane velocity is zero |
| WingFrames.SectionalSpeedAoa | src/dynamics/wing_3d_helper.hpp:36-104 | the loop samples every section at its centre with the normalised mount rotation |
| WingFrames.SafeNormalize | src/dynamics/wing_3d_helper.hpp:106-112 | NaN or a length at most 1e-4 gives the zero vector |
| WingFrames.SafeNormalizeUnitOrZero | src/dynamics/wing_3d_helper.hpp:106-112 | the result is zero or of unit length, and of unit length whenever the input is longer than 1e-4 |
| WingFrames.SafeNormalizeScales | src/dynamics/wing_3d_helper.hpp:106-112 | the result is a non-negative multiple of its argument |
| WingFrames.LiftDirectionOrthogonal | src/dynamics/wing_3d_helper.hpp:125-130 | the lift direction is orthogonal to the span and to the motion |
| WingFrames.MapWingForceTo3d | src/dynamics/wing_3d_helper.hpp:114-143 | the force acts at the section's mounted origin; its direction is stated in LiftOrthogonal, DragOpposesMotion and RightWingMirrors |
| WingFrames.LiftOrthogonal | src/dynamics/wing_3d_helper.hpp:114-143 | a mapped lift force is orthogonal to the span and to the motion |
| WingFrames.DragOpposesMotion | src/dynamics/wing_3d_helper.hpp:114-143 | a mapped drag force points against the motion |
| WingFrames.RightWingMirrors | src/dynamics/wing_3d_helper.hpp:133-139 | a right wing's force acts at the left wing's origin mirrored across the span |
| WingFrames.MapAll | src/dynamics/wing_3d_helper.hpp:145-185 | one mapped lift and one mapped drag per section |
| WingFrames.MapWingForcesTo3d | src/dynamics/wing_3d_helper.hpp:145-185 | the loop maps each section with its own motion direction, and the induced drag with the mean |
| WingFrames.MoveDirSumNaN | src/dynamics/wing_3d_helper.hpp:216-223 | one NaN direction makes the weighted sum NaN |
| WingFrames.MoveDirSumUniform | src/dynamics/wing_3d_helper.hpp:216-223 | a uniform direction sums to that direction times the area |
| WingFrames.MeanMoveDirProperties | src/dynamics/wing_3d_helper.hpp:216-223 | the mean of one repeated direction is that direction, and one NaN makes the mean NaN |
| WingFrames.MeanMoveDirOf | src/dynamics/wing_3d_helper.hpp:216-223 | the loop computes the weighted mean direction |
| WingFrames.WingForces3dOf | src/dynamics/wing_3d_helper.hpp:187-233 | on success, one lift and one drag per section |
| WingFrames.WingForces3dNoArgumentFault | src/dynamics/wing_3d_helper.hpp:187-233 | with deflections in range the 3D forces fail only on empty data or NotFinite |
| WingFrames.CalcWingForces3d | src/dynamics/wing_3d_helper.hpp:187-233 | the method computes `WingForces3dOf` |
| WingFrames.GatherWingForces3d | src/dynamics/wing_3d_helper.hpp:235-251 | all lifts, then all drags, then the induced drag |
| Jets.ThrottleInRange | src/entity/jet.cpp:156-168 | the throttle stays in [0, 1] |
| Jets.ThrottleFollowsKeys | src/entity/jet.cpp:156-163 | the throttle-up key never lowers the throttle, the throttle-down key never raises it, and neither key leaves it unchanged |
| Jets.KeyAxis | src/entity/jet.cpp:169-177 | +1, -1 or 0 exactly as one, the other, or neither or both keys are down |
| Jets.AileronMixing | src/entity/jet.cpp:169-177 | each aileron stays within 40 degrees; their sum is the pitch command and their difference the roll command |
| Jets.ThrustAlongNose | src/entity/jet.cpp:186-194 | the thrust points along the nose with throttle times the dry thrust |
| Jets.NoThrustAngle | src/entity/jet.cpp:188-190 | the zero thrust angle is no rotation |
| Jets.ThrustTorque | src/entity/jet.cpp:186-194 | thrust `t` gives the torque (0, -0.5 t, 0) about the centre of mass |
| Jets.TorqueProperties | src/entity/jet.cpp:243-248 | a force is orthogonal to its torque, and has none at the centre |
| Jets.ToJetForces | src/entity/jet.cpp:211-213 | one force per gathered wing force, with the same force and origin |
| Jets.HalfWing | src/entity/jet.cpp:199-227 | a wing half's forces: 2n + 1 gathered forces, for the wing at its root, with the incidence, about the centre of mass |
| Jets.WithWingHalf | src/entity/jet.cpp:199-230 | a wing half appends 2n + 1 forces and keeps the list before them; which forces they are is stated in WithWingHalfContents |
| Jets.WithWingHalfContents | src/entity/jet.cpp:207-214 | appending a half appends its lifts, drags and induced drag, or fails exactly as the half does, with its error |
| Jets.ForceList | src/entity/jet.cpp:186-230 | the thrust comes first, then 4n + 2 wing forces; a zero attitude quaternion is NotFinite; the forces themselves are stated in ForceListContents |
| Jets.ForceListContents | src/entity/jet.cpp:186-230 | for a non-zero attitude: the thrust, the left half's forces and the right half's forces, each half seeing the velocities in the airframe's frame; it fails exactly when a half does, the left half's error first |
| Jets.ForceListNoArgumentFault | src/entity/jet.cpp:196-230 | the mixed aileron commands stay in range, so the step never fails an argument check |
| Jets.LocalForceList | src/entity/jet.cpp:199-230 | the thrust comes first, then 4n + 2 wing forces; the forces themselves are stated in LocalForceListContents |
| Jets.LocalForceListContents | src/entity/jet.cpp:199-230 | the thrust, the left half's forces, the right half's forces; the first failing half decides the error |
| Jets.SumForcesAppend | src/entity/jet.cpp:238-241 | the total force is additive over concatenation |
| Jets.SumTorquesAppend | src/entity/jet.cpp:243-248 | the total torque is additive over concatenation |
| Jets.ForcesAtCenterNoTorque | src/entity/jet.cpp:243-248 | forces at the centre have no torque |
| Jets.TotalForce | src/entity/jet.cpp:238-241 | the loop computes the sum of the forces |
| Jets.TotalTorque | src/entity/jet.cpp:243-248 | the loop computes the sum of the torques |
| Jets.AppendForces | src/entity/jet.cpp:211-213 | the loop appends the gathered forces in order |
| Jets.WorldCenterOfMass | src/entity/jet.cpp:133-137 | at the identity attitude, the centre of mass is the position plus its offset |
| Jets.TotalMass | src/entity/jet.cpp:250 | the mass lies between the empty mass and the empty mass plus a full tank |
| Jets.Accelerated | src/entity/jet.cpp:265-277 | the first half of the step leaves the attitude unchanged |
| Jets.Turned | src/entity/jet.cpp:278-286 | the turn changes neither velocity, and nothing at all when the angular speed is too low |
| Jets.TurnedBy | src/entity/jet.cpp:278-286 | a turn rotates the attitude and moves the position to keep the centre of mass |
| Jets.TurnAboutCenterOfMass | src/entity/jet.cpp:278-286 | the centre of mass stays put through a turn |
| Jets.AttitudeStaysUnit | src/entity/jet.cpp:265-286 | a unit attitude stays unit through a step |
| Jets.StepKinematics | src/entity/jet.cpp:265-286 | no force keeps the velocity, no torque the angular velocity; without a turn the attitude stays and the position moves by the new velocity |
| Jets.Coasting | src/entity/jet.cpp:265-286 | without force and torque, the velocities do not change and the position advances along the velocity |
| Jets.Jet.constructor | src/entity/jet.hpp:48-53 | the jet starts at the origin, level, at 100 m/s along +X, at idle |
| Jets.Jet.GetCenterOfMass | src/entity/jet.cpp:133-137 | returns the world centre of mass |
| Jets.Jet.CollectForces | src/entity/jet.cpp:186-230 | computes `ForceList` |
| Jets.Jet.CollectLocalForces | src/entity/jet.cpp:199-230 | computes `LocalForceList` |
| Jets.Jet.AddWingHalf | src/entity/jet.cpp:199-230 | computes `WithWingHalf` |
| Jets.Jet.Accelerate | src/entity/jet.cpp:265-277 | updates the motion to `Accelerated` |
| Jets.Jet.Turn | src/entity/jet.cpp:278-286 | updates the motion to `Turned` |
| Jets.Jet.ApplyForces | src/entity/jet.cpp:238-286 | the motion becomes the integration under the total force and torque |
| Jets.Jet.UpdateThrottle | src/entity/jet.cpp:156-168 | the throttle becomes `NextThrottle` |
| Jets.Jet.UpdatePhysicsFromInput | src/entity/jet.cpp:152-288 | normalises the attitude and updates the throttle; a wing fault is reported and the motion is unchanged; otherwise it records the forces and integrates under them |
| Jets.Jet.Advance | src/entity/jet.cpp:186-288 | after the attitude and throttle are set: fault, or forces recorded and integrated |
| SplineTool.Insert | tools/spline_generator/cubic_spline.py:111-118 | inserting adds exactly the point |
| SplineTool.SortByX | tools/spline_generator/cubic_spline.py:118 | `list.sort(key=x)` returns a permutation |
| SplineTool.InsertSorted | tools/spline_generator/cubic_spline.py:116-118 | insertion keeps a list sorted |
| SplineTool.SortByXSorted | tools/spline_generator/cubic_spline.py:118 | the sort's result is sorted by x |
| SplineTool.SortByXStable | tools/spline_generator/cubic_spline.py:118 | the sort is stable: points of equal x keep their order |
| SplineTool.SortByXOfSorted | tools/spline_generator/cubic_spline.py:118 | sorting a sorted list changes nothing |
| SplineTool.ScreenToCurve | tools/spline_generator/cubic_spline.py:78-81 | the left edge maps to x = 0 and the bottom edge to y = 0, and only they |
| SplineTool.CurveToScreen | tools/spline_generator/cubic_spline.py:83-86 | x = 0 maps to the left edge and y = 1 to the top edge |
| SplineTool.ScreenCurveRoundTrip | tools/spline_generator/cubic_spline.py:78-86 | a pixel mapped to curve coordinates and back is the same pixel |
| SplineTool.UnitSquareOnScreen | tools/spline_generator/cubic_spline.py:83-86 | the unit square is drawn inside the window |
| SplineTool.Trunc | tools/spline_generator/cubic_spline.py:83-86 | `int()` truncates toward zero |
| SplineTool.ClampUnit | tools/spline_generator/cubic_spline.py:115 | `max(0, min(1, v))` lies in [0, 1] and is the identity inside |
| SplineTool.PointAt | tools/spline_generator/cubic_spline.py:100-109 | the first point within the radius, or none if no point is |
| SplineTool.IndexOf | tools/spline_generator/cubic_spline.py:227-230 | the first-match loop: the first occurrence, none exactly when absent |
| SplineTool.Linspace | tools/spline_generator/cubic_spline.py:25-26 | `np.linspace` gives n values |
| SplineTool.LinspaceEvenlySpaced | tools/spline_generator/cubic_spline.py:25-26 | from a to b in equal steps |
| SplineTool.Interpolation | tools/spline_generator/cubic_spline.py:12-43 | fewer than two points give empty lists; two or more give n abscissas, and n samples for two points or for a spline that keeps lengths |
| SplineTool.TwoPointsGiveLine | tools/spline_generator/cubic_spline.py:24-28 | two points give the straight line between them |
| SplineTool.ParsePoints | tools/spline_generator/cubic_spline.py:172-181 | a successful parse yields one point per line |
| SplineTool.ParseControlPoints | tools/spline_generator/cubic_spline.py:154-181 | an empty file is EmptyFile; a success had a two-integer header, as many points as the header's positive count, and enough lines for them |
| SplineTool.ParsePointsStops | tools/spline_generator/cubic_spline.py:172-181 | the first bad line's error is final |
| SplineTool.Fixed6 | tools/spline_generator/cubic_spline.py:325-329 | `:.6f` is within half a millionth of the value |
| SplineTool.FlattenAppend | tools/spline_generator/cubic_spline.py:321-329 | the file's token stream is the concatenation of its lines |
| SplineTool.ParseSavedPoints | tools/spline_generator/cubic_spline.py:172-181 | the saved point lines parse back to the rounded points |
| SplineTool.SaveThenLoadPoints | tools/spline_generator/cubic_spline.py:148-191 | loading a saved file returns the saved points, rounded to six decimals |
| SplineTool.SaveThenLoadCurve | src/dynamics/curve.hpp:10-38 | the simulator loads a saved file's samples, rounded to six decimals |
| SplineTool.SavedFileWellFormed | tools/spline_generator/cubic_spline.py:321-329 | a saved file is a well-formed curve file |
| SplineTool.SaveHasSamples | tools/spline_generator/cubic_spline.py:304-310 | two or more points always give 1000 abscissas, so the empty-curve branch is dead, and 1000 samples when the spline gives one value per abscissa (KeepsLength) |
| SplineTool.AddedPoint | tools/spline_generator/cubic_spline.py:111-118 | the clamped point lies in the unit square; the list grows by exactly it and is sorted |
| SplineTool.RemovedPoint | tools/spline_generator/cubic_spline.py:120-123 | removal drops exactly that point and keeps the order |
| SplineTool.DraggedPoint | tools/spline_generator/cubic_spline.py:244-264 | the dragged list swaps the point, is sorted, and contains the new point |
| SplineTool.SplinePlayground.constructor | tools/spline_generator/cubic_spline.py:47-76 | the points come from a file that parses, and are otherwise (0,0) and (1,1); nothing is being dragged |
| SplineTool.SplinePlayground.GetPointAtPosition | tools/spline_generator/cubic_spline.py:100-109 | the loop finds `PointAt` |
| SplineTool.SplinePlayground.AddControlPoint | tools/spline_generator/cubic_spline.py:111-118 | the points become the old ones plus the clamped click, sorted |
| SplineTool.SplinePlayground.RemoveControlPoint | tools/spline_generator/cubic_spline.py:120-123 | drops the point at a valid index, and does nothing otherwise |
| SplineTool.SplinePlayground.Repoint | tools/spline_generator/cubic_spline.py:227-230 | the dragged index follows the point after re-sorting |
| SplineTool.SplinePlayground.Press | tools/spline_generator/cubic_spline.py:203-233 | a hit starts dragging it with the click offset; a miss adds the point and drags it |
| SplineTool.SplinePlayground.RightClick | tools/spline_generator/cubic_spline.py:235-238 | removes the point hit, if any |
| SplineTool.SplinePlayground.Release | tools/spline_generator/cubic_spline.py:240-242 | ends the drag |
| SplineTool.SplinePlayground.Drag | tools/spline_generator/cubic_spline.py:244-264 | without a drag nothing changes; a stale index fails with the `IndexError` message; otherwise the point moves, the list is re-sorted, and the drag follows it |
| SplineTool.SplinePlayground.MoveTo | tools/spline_generator/cubic_spline.py:257-264 | moves one point, re-sorts, and finds it again |
| SplineTool.SplinePlayground.LoadCurveFromFile | tools/spline_generator/cubic_spline.py:148-191 | succeeds exactly when the file parses, taking its points; otherwise reports the parse error and keeps the points |
| SplineTool.SplinePlayground.SaveCurveToFile | tools/spline_generator/cubic_spline.py:297-338 | nothing is written for fewer than two points; otherwise the header, the points and the samples, and with a spline that keeps lengths the header announces 1000 samples and the file has 1 + n + 1000 lines |

## Left out

- Drawing is not modelled: OpenGL, pygame rendering, cameras, the skybox and debug-force arrows (`jet.cpp` draw code, `draw_spline`, the 200-sample preview). Only the debug force list is kept.
- Window events and key polling are not modelled; keys arrive as a `Keys` value and mouse positions as `Pixel`s.
- IEEE `float` is not modelled: arithmetic is on reals, without rounding. A NaN or infinity the source does not test for becomes `Failure(NotFinite)`, and one it does test for is an explicit branch. One infinity is carried through instead: slats that cancel the curve maximum give a zero stretch, the angle divided by it is infinite, and `glm::clamp` turns that into the end of the curve's domain (Airfoils.Airfoil.Stretched).
- `cos`, `sin`, `sqrt` and `atan2` are uninterpreted parameters; `Lawful` names the only facts the proofs assume about them.
- Curves.Curve.LoadFromFile: the header must be a non-negative integer followed by a non-negative integer or a word (a word reads as 0 and fails the stream). Other headers are excluded: in the source a negative count wraps in `size_t`, and a word as the first token leaves `num_samples` unread. A decimal count is read up to its decimal point, and its fraction is left for the next read; the token model cannot express a token split this way.
- Curves.Curve.LoadFromFile: file text is modelled as a sequence of classified tokens (integer, decimal, word). Line structure and the text form of numbers are not modelled.
- Airfoils.Airfoil.ScanCurve: the scan's angle is `-max + 0.1 k`, computed exactly. The source accumulates 0.1 in `float`, so the last step may differ.
- Jets: fuel use is not modelled (fuel stays full). The inertia tensor is the source's placeholder sphere.
- Wings.Wing: the wing holds its airfoil by reference, while the source copies it (and its curve) into the wing. No modelled operation changes an airfoil after a wing is built, so the two agree.
- Jets.Jet.UpdatePhysicsFromInput: the step's `dt` and the attitude are taken as given. The clock that produces `dt` is not modelled.
- SplineTool.Interpolation: the `scipy` cubic spline and the `np.interp` fallback for three or more points are a `Spline` parameter. Only the fewer-than-two and two-point cases are computed. The one-value-per-abscissa property of scipy and `np.interp` is the predicate `KeepsLength`; the sample counts for three or more points are stated under it.
- SplineTool.ParseControlPoints: a token such as `nan` or `inf` is a word and a parse error, although Python's `float` would accept it.
- SplineTool.Fixed6: `f"{v:.6f}"` rounds ties upward. Python rounds the exact binary value, which is at most one unit in the sixth decimal different.
- SplineTool.ScreenToCurve: a zero window size raises `ZeroDivisionError` in the source; the model requires a non-zero size. SplineTool.SplinePlayground.Press and SplineTool.SplinePlayground.Drag carry the same requirement on every path, including a hit in Press and a no-drag call of Drag, where the source never divides.
- SplineTool.SplinePlayground.Drag: the source's `IndexError` ends the program; the model returns `Fail` with its message and changes nothing.
- SplineTool.SplinePlayground.SaveCurveToFile: the timestamped file name and write errors (`except Exception`) are not modelled. The file is returned as lines of tokens.
- SplineTool.SplinePlayground.LoadCurveFromFile: an unreadable file is `file == None`, so the exception handler's message text is not modelled.
- SplineTool: `sqrt` in the click distance is replaced by comparing squared distances, which is equivalent for integer pixels.
