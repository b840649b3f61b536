# Satellite attitude simulator — verified model of the attitude core

This project models the attitude core of a console simulator of an ideal cube satellite in Dafny. The satellite has three reaction wheels, one each for roll, pitch and yaw. It turns its camera, which looks along its local +z axis, toward a target point given in global cartesian coordinates. The turn is in four steps:

- The target is projected into the body frame through the rotation matrix `rot_mat`.
- A minimal roll is chosen from the target's local azimuth, and then a single pitch or yaw through its local polar angle.
- Each turn is flown as a bang-coast-bang profile of a reaction wheel: accelerate at full torque, coast at the wheel's saturation speed, decelerate.
- The optical zoom is ramped to the target's distance, and both turns are premultiplied into `rot_mat`. `rot_mat_T` is then rebuilt as its transpose.

The model follows the source file by file:

| file | module | form |
|---|---|---|
| `numerics.dfy` | `Numerics` | The value of pi, `abs`, the sign `x/|x|`, C's `fmod`. `<cmath>` is passed as a `MathLib` value of functions, with its laws stated as predicates. |
| `frames.dfy` | `Frames` | Pure 3x3 matrix algebra, plus the routines of `Helper_Functions.cpp` as methods over `array2<real>` with their loops. |
| `planner.dfy` | `Planner` | `compute_efficient_roll`, as a pure function with its minimality and sector lemmas. |
| `reaction_wheel.dfy` | `ReactionWheels` | The `Reaction_Wheel` class: its constructor and `compute_maneuver`. |
| `location.dfy` | `Locations` | The `Location` class, whose methods change its nine coordinates in place, plus `convert_to_spherical`. |
| `kinematics.dfy` | `Kinematics` | The motion laws that `execute_maneuver` and `adjust_zoom` evaluate at each elapsed time, and what those laws guarantee. |
| `cube_sat.dfy` | `CubeSats` | The `Ideal_Cube_Sat` class. Its time-driven loops are `while` loops over a clock parameter, and `reorient` is split into the stages of the source. |

How the model treats the source's environment:

- **Reals and `<cmath>`.** Doubles are modelled as reals. The `<cmath>` functions are an uninterpreted `MathLib`. Every result that depends on them names the law it uses:
  - `Pythagorean`: sin² + cos² = 1.
  - `SqrtSound`: the square root of a non-negative number is a non-negative root.
  - `Atan2Range`: atan2 lies in (-pi, pi].
  - `TrigSymmetry`: sin is odd, cos is even, and both are 2 pi periodic.
  - `SphericalInverse`: rebuilding a non-zero point from its spherical coordinates gives it back. This one is assumed whole, as described under "Left out".
- **Clocks.** The wall clock (`std::chrono`) becomes a parameter `clock: nat -> real`: the elapsed time read on the n-th pass. `Kinematics.Clock` asks only that every reading is non-negative and that every bound is eventually passed, so every loop ends. Readings need not be monotone: `std::chrono::high_resolution_clock` is not guaranteed steady, and a tick whose reading falls back into an earlier phase is modelled as the source does it.
- **String labels.** The labels `"Roll"`, `"Pitch"`, `"Yaw"` and `"r"`, `"theta"`, `"phi"` become the enumerations `Axis` and `Coord`.

## Model

| member | source | states |
|---|---|---|
| Numerics.Sign | Reaction_Wheel.cpp:48-51 | `angle / abs(angle)` is ±1, and multiplying it by the magnitude gives the angle back. |
| Numerics.NormalizedAngle | Location.cpp:83 | For an atan2 value in (-pi, pi], `fmod(a + 2pi, 2pi)` lies in [0, 2pi): it is a + 2pi when a is negative and a otherwise. |
| Numerics.Fmod | Location.cpp:83 | C's `fmod`: `a` minus `b` times the quotient `a / b` truncated toward zero. Its range on atan2 values is stated by `NormalizedAngle`. |
| Numerics.SqrtUnique | Reaction_Wheel.cpp:66 | Under the sqrt law, the square root is the unique non-negative root. |
| Frames.ComputeRotationMatrix | Helper_Functions.cpp:46-61 | The array holds exactly `Rotation(axis, angle)`: for a negative angle, 2 pi is added first, then the pitch, yaw or roll matrix of the source's layout is written. |
| Frames.RotationPeriodic | Helper_Functions.cpp:46-61 | Given 2 pi periodicity of sin and cos, the shift of a negative angle is harmless: for every angle, the matrix built is the plane rotation by the cosine and sine of the angle as given. |
| Frames.RotationFixesAxis | Helper_Functions.cpp:52-60 | Each axis rotation leaves its own axis vector fixed. |
| Frames.RotationOrthonormal | Helper_Functions.cpp:52-60 | Given sin² + cos² = 1, every matrix `compute_rotation_matrix` builds is orthonormal: R·Rᵗ = Rᵗ·R = I. |
| Frames.RotationTranspose | Helper_Functions.cpp:46-61 | Given that sin is odd, cos even and both periodic, the transpose of the rotation by a is the rotation by -a. |
| Frames.MultiplyRotMats | Helper_Functions.cpp:64-81 | After clearing and accumulating, the output array holds the matrix product of the two inputs, and the inputs are unchanged. |
| Frames.ApplyMul | Helper_Functions.cpp:64-81 | Applying a product is applying the factors right to left. |
| Frames.MulAssociative | Helper_Functions.cpp:64-81 | The matrix product is associative. |
| Frames.IdentityNeutral | Ideal_Cube_Sat.cpp:45-52 | The identity matrix the satellite starts with is neutral for the product on both sides. |
| Frames.TransposeInvolution | Helper_Functions.cpp:95-103 | Transposing twice gives the matrix back. |
| Frames.ApplyIdentity | Helper_Functions.cpp:106-117 | Applying the identity leaves every vector unchanged. |
| Frames.IdentityOrthonormal | Ideal_Cube_Sat.cpp:45-52 | The initial identity rotation is orthonormal, which the satellite's invariant needs from construction on. |
| Frames.TransposeMul | Helper_Functions.cpp:95-103 | (AB)ᵗ = BᵗAᵗ. |
| Frames.OrthonormalMul | Helper_Functions.cpp:64-81 | Products of orthonormal matrices are orthonormal, so premultiplying rotations keeps `rot_mat` a rotation. |
| Frames.OrthonormalInverse | Helper_Functions.cpp:95-103 | For an orthonormal R, applying Rᵗ after R restores every vector. |
| Frames.OrthonormalNonZero | Helper_Functions.cpp:106-117 | An orthonormal matrix maps a non-zero vector to a non-zero vector. |
| Frames.CopyRotMat | Helper_Functions.cpp:84-92 | The output holds the input's old entries, and the input is unchanged, even where the two arrays are the same one. |
| Frames.TransposeRotMat | Helper_Functions.cpp:95-103 | The output holds the transpose of the unchanged input. |
| Frames.ApplyRotation | Helper_Functions.cpp:106-117 | The new (x, y, z) is the matrix applied to the old one, with every row reading the original coordinates. |
| Planner.EfficientRoll | Helper_Functions.cpp:4-43 | The offset plus the roll gives the azimuth back. The follow-up is yaw or pitch, and its sign is ±1. |
| Planner.RollIsMinimal | Helper_Functions.cpp:27-32 | For every azimuth in [0, 2pi), the roll is at most pi/4 in magnitude, and no whole number of quarter turns is nearer the azimuth than the chosen offset. |
| Planner.FollowUpAngle | Ideal_Cube_Sat.cpp:144 | The angle of the follow-up rotation: the plan's sign times the target's local polar angle. `Reorient` states the matrix built with it. |
| Planner.OffsetDecidesFollowUp | Helper_Functions.cpp:28-32 | The offset is k quarter turns for some k in 0..4. The follow-up is yaw exactly when k is even, and its sign is -1 exactly for k = 1 or 2. |
| Planner.BoundaryFirstSector | Helper_Functions.cpp:28 | The edge pi/4 belongs to the first sector: roll pi/4, offset 0, yaw, sign +1. |
| Planner.BoundarySecondSector | Helper_Functions.cpp:29 | The edge 3pi/4 belongs to the second sector: roll pi/4, offset pi/2, pitch, sign -1. |
| Planner.TargetOnXAxis | Helper_Functions.cpp:28 | A zero azimuth asks for no roll and a positive yaw. |
| Planner.NegativeAzimuthUnbounded | Helper_Functions.cpp:28 | A negative azimuth falls into the first sector unchanged, so the roll is not bounded by pi/4 there. |
| ReactionWheels.ReactionWheel.constructor | Reaction_Wheel.cpp:14-32 | Torque 0.012 and momentum 0.03, saturation 0, peak acceleration torque/inertia, and the derived time, speed and angle. |
| ReactionWheels.ConstructedConstants | Reaction_Wheel.cpp:17-31 | The constants a wheel is built with give a saturation time of 2.5 s, a peak speed of 0.03/I and a saturation angle of 0.0375/I. |
| ReactionWheels.SaturationSweep | Reaction_Wheel.cpp:22-31 | The saturation angle is half the peak speed times the saturation time, and all three quantities are positive. |
| ReactionWheels.ReactionWheel.ComputeManeuver | Reaction_Wheel.cpp:35-70 | Acceleration and deceleration last equally long. A zero angle gives an all-zero profile and keeps the previous acceleration. Otherwise the acceleration is full torque with the angle's sign. |
| ReactionWheels.TrapezoidProfile | Reaction_Wheel.cpp:54-62 | Beyond twice the saturation angle, both ramps last the saturation time, and the coast is the positive remainder divided by the peak speed. |
| ReactionWheels.TriangleProfile | Reaction_Wheel.cpp:63-69 | Up to twice the saturation angle, there is no coast, t²·α_max = |angle| and 0 < t <= the saturation time. The ramp takes the full saturation time exactly at the boundary. |
| ReactionWheels.PeakSpeedBounded | Reaction_Wheel.cpp:35-70 | The durations are non-negative, the ramp time is at most the saturation time, and the peak speed α·t_accel never exceeds the wheel's peak speed. |
| ReactionWheels.ProfileSweepsAngle | Reaction_Wheel.cpp:35-70 | Every planned profile sweeps exactly the commanded angle and ends at rest. |
| Locations.ToSpherical | Location.cpp:78-84 | ρ is positive with ρ² = x² + y² + z², and under the atan2 range law, φ lies in [0, 2pi). |
| Locations.FromSpherical | Location.cpp:72-74 | The local cartesian point rebuilt from (ρ, θ, φ): (ρ sin θ cos φ, ρ sin θ sin φ, ρ cos θ). `UpdateLocalSpherical` states it as its new local point. |
| Locations.WithCoordCharacterized | Location.cpp:61-63 | Replacing a selected spherical coordinate keeps the other two, and the selected one then reads the new value. |
| Locations.Location.constructor | Location.cpp:4-16 | The global point is (x, y, z), the local point equals it, and the spherical coordinates are those of the local point. |
| Locations.Location.ComputeLocalCoords | Location.cpp:19-31 | The local point is the matrix applied to the unchanged global point, and the spherical coordinates are recomputed from it. |
| Locations.Location.RotateLocalCoords | Location.cpp:34-43 | The local point becomes (0, 0, ρ) and the global point stays. For positive ρ, the recomputed radius is ρ again. |
| Locations.Location.ComputeGlobalCoords | Location.cpp:46-55 | The global point is the transpose matrix applied to the local point, and the local coordinates are unchanged. |
| Locations.Location.UpdateLocalSpherical | Location.cpp:58-75 | Exactly the selected spherical coordinate changes, the local cartesian point is rebuilt from the three spherical values, and the global point stays. |
| Locations.LocalGlobalRoundTrip | Location.cpp:19-55 | For an orthonormal matrix and its transpose, projecting into the local frame and back restores the global point. |
| Kinematics.PhaseAt | Ideal_Cube_Sat.cpp:182-225 | The phase at an elapsed time: start-up before 1 s, then accelerating, coasting and decelerating for their durations, complete afterwards. Its order is stated by `PhasesInOrder` and its end by `CompleteAfterPlan`. |
| Kinematics.AngleAt | Ideal_Cube_Sat.cpp:191-233 | The coordinate value each phase assigns at an elapsed time. `MotionContinuous`, `CompleteAfterPlan` and `WheelPlanArrives` state its properties. |
| Kinematics.OmegaAt | Ideal_Cube_Sat.cpp:194-230 | The angular velocity each phase assigns, before the sign convention. Its bound is stated by `SpeedWithinLimits`. |
| Kinematics.Saturation | Ideal_Cube_Sat.cpp:248-250 | The saturation percentage: the result times the peak speed is 100 times the speed. |
| Kinematics.PhasesInOrder | Ideal_Cube_Sat.cpp:182-234 | As elapsed time grows, the phase only advances: start-up, accelerating, coasting, decelerating, complete. |
| Kinematics.CompleteAfterPlan | Ideal_Cube_Sat.cpp:225-233 | The maneuver is complete exactly after 1 + t_accel + t_coast + t_decel seconds. From then on, the angle is the offset plus the profile's sweep and the speed is the final one. |
| Kinematics.MotionContinuous | Ideal_Cube_Sat.cpp:191-223 | Angle and speed agree where the phases meet. |
| Kinematics.WheelPlanArrives | Ideal_Cube_Sat.cpp:175-234 | Once a planned maneuver has run its course, the coordinate is exactly offset + commanded angle and the speed is zero. |
| Kinematics.WheelPlansWithinLimits | Reaction_Wheel.cpp:35-70 | Every planned profile stays within the wheel's peak speed. |
| Kinematics.SpeedWithinLimits | Ideal_Cube_Sat.cpp:186-233 | A profile within the limits never asks for more than the peak speed in any phase. |
| Kinematics.SaturationWithinRange | Ideal_Cube_Sat.cpp:243-250 | With either sign convention, the saturation percentage stays in [-100, 100]. |
| Kinematics.ZoomDuration | Ideal_Cube_Sat.cpp:268-271 | The zoom time is non-negative, and the time multiplied by the rate is the radius change. |
| Kinematics.ZoomRadiusAt | Ideal_Cube_Sat.cpp:287-300 | The radius `adjust_zoom` assigns at an elapsed time: a linear ramp from the start while the zoom lasts, the target afterwards. `ZoomRamp` and `ZoomReachesTarget` state its properties. |
| Kinematics.ZoomReachesTarget | Ideal_Cube_Sat.cpp:294-300 | After the zoom time, the radius is the target's. |
| Kinematics.ZoomRamp | Ideal_Cube_Sat.cpp:287-300 | While zooming, the radius moves away from the start at exactly the zoom rate, and it never leaves the interval between start and target. |
| CubeSats.Signed | Ideal_Cube_Sat.cpp:243-245 | The sign convention: roll speeds are kept, other speeds are multiplied by the maneuver's sign. `SignedMagnitude` states that it keeps the magnitude. |
| CubeSats.SignedMagnitude | Ideal_Cube_Sat.cpp:243-245 | The sign convention never changes the magnitude of the angular velocity. |
| CubeSats.TickWithinBounds | Ideal_Cube_Sat.cpp:237-251 | A tick of a bounded profile leaves the axis speed within the peak and the saturation in [-100, 100]. |
| CubeSats.AimedReturns | Ideal_Cube_Sat.cpp:89 | Under the spherical round-trip law, rebuilding the target's local spherical coordinates and applying the transpose gives its global point. |
| CubeSats.IdealCubeSat.constructor | Ideal_Cube_Sat.cpp:10-53 | Mass 16, size 0.2, inertia m·s²/6 and zoom rate 1.5. There are three wheels, each with torque 0.012, momentum 0.03 and peak acceleration 0.012/inertia, so their derived constants agree too. Both points are at (0, 0, 1), the body is at rest and both matrices are the identity. The object invariant holds. |
| CubeSats.IdealCubeSat.SetTarget | Ideal_Cube_Sat.cpp:82 | The target is a new point at the given global coordinates, and the rest of the state keeps its invariant. |
| CubeSats.IdealCubeSat.ManeuverTick | Ideal_Cube_Sat.cpp:182-251 | One pass of the loop. In start-up nothing moves. Later, the selected coordinate takes the phase's angle, the local and global points are recomputed, and the axis speed takes the signed phase speed and its saturation. Other axes are untouched, and bounds are preserved. |
| CubeSats.IdealCubeSat.RecordVelocity | Ideal_Cube_Sat.cpp:243-250 | The axis speed is the phase speed with the sign convention, except for roll. The wheel's saturation is 100·ω/ω_max, and only that axis changes. |
| CubeSats.IdealCubeSat.ExecuteManeuver | Ideal_Cube_Sat.cpp:160-262 | Only the selected coordinate changes. For a well-formed profile, it ends at offset + sweep with the final speed and saturation, and the points are consistent with the frames. |
| CubeSats.IdealCubeSat.ManeuverLoop | Ideal_Cube_Sat.cpp:175-261 | The loop runs until the elapsed time reaches the profile's length plus 2 s, and ends in the state of its last tick. |
| CubeSats.IdealCubeSat.AdjustZoom | Ideal_Cube_Sat.cpp:265-316 | The current point ends with the target's radius and unchanged angles, and its global point is consistent with the transpose in force. |
| CubeSats.IdealCubeSat.ZoomTick | Ideal_Cube_Sat.cpp:287-303 | One zoom pass sets the radius to the ramp value at the elapsed time and recomputes the local and global points. |
| CubeSats.IdealCubeSat.PlanAndExecute | Ideal_Cube_Sat.cpp:101-118 | A planned maneuver leaves the coordinate at offset + angle, with the local point rebuilt from the spherical one and the global point from the local one. The axis ends at rest with zero saturation, and the other axes' speeds are untouched. |
| CubeSats.IdealCubeSat.Maneuvers | Ideal_Cube_Sat.cpp:97-126 | The roll and follow-up leave the current point at the target's local polar angle and azimuth, with its radius unchanged, and with its local point rebuilt from those and its global point from the local one. Both axes used end at rest, and the unused axis keeps its speed and its wheel's saturation. |
| CubeSats.IdealCubeSat.CommitRotations | Ideal_Cube_Sat.cpp:131-152 | `rot_mat` becomes R_next(sign·θ)·R_roll(roll)·old `rot_mat`, `rot_mat_T` is its transpose, and the rotation stays orthonormal. |
| CubeSats.IdealCubeSat.FlyToTarget | Ideal_Cube_Sat.cpp:86-129 | The target's local point is the old `rot_mat` applied to its unchanged global point, and its spherical coordinates are derived from that. The current point ends with exactly the target's local spherical coordinates. Its local point is rebuilt from them, and its global point is the transpose in force applied to that. The axes used end at rest, and the unused axis keeps its speed and its wheel's saturation. |
| CubeSats.IdealCubeSat.Settle | Ideal_Cube_Sat.cpp:131-156 | After the commit, both points sit on the local +z axis at the target's distance, and their global points and the speeds stay. |
| CubeSats.IdealCubeSat.Reorient | Ideal_Cube_Sat.cpp:86-157 | The new `rot_mat` is the planned roll and follow-up premultiplied into the old one, and both points end at (0, 0, ρ). Under the spherical round-trip law, the current point's global position becomes the target's. The axes used end at rest, the unused axis keeps its speed and its wheel's saturation, and the bounds are kept. |

## Left out

- Console output is not modelled: `print_info`, the messages, `Console_Manager` and `main.cpp`. The satellite's observable state is modelled instead.
- Frame pacing is not modelled: the FPS and the sleep after every pass take no part in the computation.
- `get_new_target` talks to the console. Only its assignment of a new target is modelled, as `SetTarget`. The console's refusal of the origin (Console_Manager.cpp:33) becomes the precondition that the target is non-zero.
- `determine_focused_planet` in Helper_Functions.cpp is not part of this model. It is only used for display.
- Floating point is modelled as exact reals. Rounding, NaN and infinities are out of scope.
- The branches of `compute_efficient_roll`, `reorient` and `update_local_spherical` that end the program are left out. On reals, with labels drawn from `Axis` and `Coord`, none of them can be reached.
- The `angle` parameter of `execute_maneuver` is never read by the source, and the model omits it.
- ReactionWheels.ReactionWheel.ComputeManeuver: for a zero angle, the source leaves `alpha` unwritten. The model returns the caller's previous acceleration (`alphaBefore`) instead.
- Reorient, Maneuvers: for the roll, that previous acceleration is the local `alpha` of `reorient`, which is never initialised (Ideal_Cube_Sat.cpp:100). When the roll angle is zero, as for a target at local azimuth 0 (`Planner.TargetOnXAxis`), `compute_maneuver` leaves it unwritten (Reaction_Wheel.cpp:38-45). `execute_maneuver` then reads it in its complete phase (Ideal_Cube_Sat.cpp:230-233), which is undefined behaviour in C++. The model takes it as the arbitrary parameter `alphaBefore`, so its contracts hold whatever value the read yields. With all durations zero, that value is multiplied only by zero.
- Locations.ToSpherical, Locations.SphericalInverse: the round trip between `convert_to_spherical` and the rebuild in `update_local_spherical` is assumed whole, as a law of `MathLib`, and not derived. Deriving it would need pointwise laws that the model does not state: cos(acos u) = u with sin(acos u) >= 0 on [-1, 1], and the polar identities sqrt(x² + y²)·cos(atan2(y, x)) = x and sqrt(x² + y²)·sin(atan2(y, x)) = y. `TrigSymmetry` would then absorb the program's own `fmod(φ + 2π, 2π)` shift, and the division z/ρ would be handled through `SqrtSound`. Assuming the law whole also assumes those program-level steps.
- CubeSats.IdealCubeSat.Reorient: the model does not prove that the new `rot_mat` maps the target onto the local +z axis. That needs the trigonometric addition formulas, which are not among the `MathLib` laws. What is proved is the matrix the source builds and where the source puts both points.
- Frames.MultiplyRotMats: requires the output array to differ from both inputs. The routine clears its output before reading the inputs, and every caller passes a temporary.
- Frames.TransposeRotMat: requires distinct arrays. Called in place, the routine writes `out[0][1]` before it reads that entry again for `out[1][0]`, and likewise for the other off-diagonal pairs. The result would be a symmetric matrix rather than the transpose. Every caller passes a separate temporary.

## Notes on the design and the source

The model follows the source wherever its behaviour differs from the intent stated in its comments:

- **Negative azimuths.** `compute_efficient_roll` accepts a negative azimuth into its first sector rather than halting. `convert_to_spherical` never produces one.
- **Zoom and the rotation matrix.** `adjust_zoom` runs before the new rotation is committed, so the current point's global coordinates during the zoom use the old `rot_mat_T`. `AdjustZoom` and `FlyToTarget` state this.
- **Zero angle.** A zero angle leaves `alpha` unwritten, as described under "Left out".
