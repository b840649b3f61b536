/** The satellite of Ideal_Cube_Sat.cpp: a uniform 16 kg cube with one reaction wheel per axis,
    a rotation matrix from the global frame into its body frame (and its transpose), the point
    its camera looks at and the point it is told to look at. Reorienting plans a roll and one
    pitch or yaw maneuver, plays both back against a clock, zooms to the target's distance and
    commits the two rotations to the matrix. */
module CubeSats {
  import opened Numerics
  import opened Frames
  import opened Planner
  import opened ReactionWheels
  import opened Locations
  import opened Kinematics

  /** The sign convention execute_maneuver applies to the velocity of a pitch or yaw maneuver;
      roll velocities are kept as computed. */
  function Signed(axis: Axis, sign: int, omega: real): real {
    if axis == Roll then omega else omega * sign as real
  }

  lemma SignedMagnitude(axis: Axis, sign: int, omega: real)
    requires sign == 1 || sign == -1
    ensures Abs(Signed(axis, sign, omega)) == Abs(omega)
  {
  }

  /** The velocity a tick past start-up assigns, and the saturation written for it, stay within
      the wheel's bounds when the plan is within its limits and the velocity before was. */
  lemma TickWithinBounds(axis: Axis, sign: int, p: Profile, omegaMax: real, t: real, before: real)
    requires omegaMax > 0.0 && WithinLimits(p, omegaMax) && (sign == 1 || sign == -1)
    requires Abs(before) <= omegaMax
    ensures var omega := Signed(axis, sign, if PhaseAt(p, t) == Startup then before else OmegaAt(p, t));
      Abs(omega) <= omegaMax && -100.0 <= Saturation(omega, omegaMax) <= 100.0
  {
    var w := if PhaseAt(p, t) == Startup then before else OmegaAt(p, t);
    if PhaseAt(p, t) != Startup {
      SpeedWithinLimits(p, omegaMax, t);
    }
    SignedMagnitude(axis, sign, w);
    FractionBounded(Signed(axis, sign, w), omegaMax);
  }

  /** All three durations of a plan are non-negative. */
  predicate NonNegative(p: Profile) {
    p.tAccel >= 0.0 && p.tCoast >= 0.0 && p.tDecel >= 0.0
  }

  /** A fresh 3x3 identity matrix, as the constructor writes rot_mat and rot_mat_T. */
  method NewIdentity() returns (a: array2<real>)
    ensures fresh(a) && Is3x3(a) && Get(a) == Identity()
  {
    a := new real[3, 3];
    a[0, 0], a[1, 0], a[2, 0] := 1.0, 0.0, 0.0;
    a[0, 1], a[1, 1], a[2, 1] := 0.0, 1.0, 0.0;
    a[0, 2], a[1, 2], a[2, 2] := 0.0, 0.0, 1.0;
  }

  /** The target's local spherical coordinates under rotation `r`, for a target at global `g`. */
  ghost function Aimed(m: MathLib, r: Mat3, g: Vec3): Spherical
    requires SqrtSound(m) && Orthonormal(r) && g != Zero
  {
    OrthonormalNonZero(r, g);
    ToSpherical(m, Apply(r, g))
  }

  /** Rebuilding the aimed coordinates and mapping them back with the transpose gives the target's
      global point. */
  lemma AimedReturns(m: MathLib, r: Mat3, g: Vec3)
    requires SphericalInverse(m) && Orthonormal(r) && g != Zero
    ensures Apply(Transpose(r), FromSpherical(m, Aimed(m, r, g))) == g
  {
    OrthonormalNonZero(r, g);
    OrthonormalInverse(r, g);
  }

  class IdealCubeSat {
    const mass: real
    const size: real
    const inertia: real
    const zoomRate: real
    var omegaRoll: real
    var omegaPitch: real
    var omegaYaw: real
    /** rot_mat: global coordinates to local ones; rot_mat_T: back. */
    const rotMat: array2<real>
    const rotMatT: array2<real>
    const wheelRoll: ReactionWheel
    const wheelPitch: ReactionWheel
    const wheelYaw: ReactionWheel
    const currPoint: Location
    var targPoint: Location

    function Wheel(axis: Axis): ReactionWheel {
      match axis
      case Roll => wheelRoll
      case Pitch => wheelPitch
      case Yaw => wheelYaw
    }

    function Omega(axis: Axis): real
      reads this
    {
      match axis
      case Roll => omegaRoll
      case Pitch => omegaPitch
      case Yaw => omegaYaw
    }

    /** The object invariant: the two matrices are 3x3, distinct, transposes of each other, and
        the rotation is orthonormal; the wheels are three distinct wheels with their derived
        constants; the two points are distinct and the target is not the origin. */
    ghost predicate Valid()
      reads this, rotMat, rotMatT, targPoint
    {
      Is3x3(rotMat) && Is3x3(rotMatT) && rotMat != rotMatT
      && Get(rotMatT) == Transpose(Get(rotMat)) && Orthonormal(Get(rotMat))
      && wheelRoll != wheelPitch && wheelRoll != wheelYaw && wheelPitch != wheelYaw
      && wheelRoll.Derived() && wheelPitch.Derived() && wheelYaw.Derived()
      && currPoint != targPoint && targPoint.Global() != Zero
      && zoomRate > 0.0
    }

    /** The velocity about `axis` is within its wheel's peak, and the wheel's saturation is a
        percentage in [-100, 100]. */
    ghost predicate AxisBounded(axis: Axis)
      reads this, Wheel(axis)
    {
      Abs(Omega(axis)) <= Wheel(axis).maxSatOmega && -100.0 <= Wheel(axis).saturation <= 100.0
    }

    ghost predicate Bounded()
      reads this, wheelRoll, wheelPitch, wheelYaw
    {
      AxisBounded(Roll) && AxisBounded(Pitch) && AxisBounded(Yaw)
    }

    /** The state a tick at elapsed time `t` past start-up leaves: the coordinate at the phase's
        angle, the local point recomputed from the spherical one and the global point from the
        local one, and the axis's velocity and saturation those of the phase. */
    ghost predicate TickState(m: MathLib, axis: Axis, sign: int, coord: Coord, offset: real, p: Profile, t: real)
      reads this, currPoint, rotMatT, Wheel(axis)
      requires Is3x3(rotMatT) && Wheel(axis).Derived()
    {
      CoordOf(currPoint.LocalSpherical(), coord) == AngleAt(p, offset, t)
      && currPoint.Local() == FromSpherical(m, currPoint.LocalSpherical())
      && currPoint.Global() == Apply(Get(rotMatT), currPoint.Local())
      && Omega(axis) == Signed(axis, sign, OmegaAt(p, t))
      && Wheel(axis).saturation == Saturation(Omega(axis), Wheel(axis).maxSatOmega)
    }

    /** The satellite at rest with both points at global (0, 0, 1) and the body frame equal to
        the global one. */
    constructor (m: MathLib)
      requires SqrtSound(m)
      ensures Valid() && Bounded()
      ensures mass == 16.0 && size == 0.2 && inertia == mass * (size * size) / 6.0
      ensures zoomRate == 1.5
      ensures wheelRoll.maxSatAlpha == wheelPitch.maxSatAlpha == wheelYaw.maxSatAlpha == 0.012 / inertia
      ensures wheelRoll.maxTorque == wheelPitch.maxTorque == wheelYaw.maxTorque == 0.012
      ensures wheelRoll.maxAngularMomentum == wheelPitch.maxAngularMomentum == wheelYaw.maxAngularMomentum == 0.03
      ensures omegaRoll == 0.0 && omegaPitch == 0.0 && omegaYaw == 0.0
      ensures wheelRoll.saturation == 0.0 && wheelPitch.saturation == 0.0 && wheelYaw.saturation == 0.0
      ensures Get(rotMat) == Identity() && Get(rotMatT) == Identity()
      ensures currPoint.Global() == Vec3(0.0, 0.0, 1.0) && currPoint.Local() == currPoint.Global()
      ensures currPoint.LocalSpherical() == ToSpherical(m, currPoint.Local())
      ensures targPoint.Global() == Vec3(0.0, 0.0, 1.0) && targPoint.Local() == targPoint.Global()
      ensures targPoint.LocalSpherical() == ToSpherical(m, targPoint.Local())
    {
      var i := 16.0 * (0.2 * 0.2) / 6.0;
      mass := 16.0;
      size := 0.2;
      inertia := i;
      wheelRoll := new ReactionWheel(i);
      wheelPitch := new ReactionWheel(i);
      wheelYaw := new ReactionWheel(i);
      currPoint := new Location(m, 0.0, 0.0, 1.0);
      targPoint := new Location(m, 0.0, 0.0, 1.0);
      omegaRoll, omegaPitch, omegaYaw := 0.0, 0.0, 0.0;
      zoomRate := 1.5;
      var r := NewIdentity();
      var rT := NewIdentity();
      rotMat, rotMatT := r, rT;
      new;
      assert mass * (size * size) == 16.0 * (0.2 * 0.2);
      IdentityOrthonormal();
      assert Transpose(Identity()) == Identity();
      SaturationSweep(wheelRoll);
      SaturationSweep(wheelPitch);
      SaturationSweep(wheelYaw);
      assert Valid();
      assert AxisBounded(Roll) && AxisBounded(Pitch) && AxisBounded(Yaw);
    }

    /** The assignment of get_new_target: the target becomes a new point at global (x, y, z).
        The console never accepts the origin. */
    method SetTarget(m: MathLib, x: real, y: real, z: real)
      requires Valid() && SqrtSound(m) && Vec3(x, y, z) != Zero
      modifies this
      ensures fresh(targPoint)
      ensures targPoint.Global() == Vec3(x, y, z) && targPoint.Local() == targPoint.Global()
      ensures targPoint.LocalSpherical() == ToSpherical(m, targPoint.Local())
      ensures omegaRoll == old(omegaRoll) && omegaPitch == old(omegaPitch) && omegaYaw == old(omegaYaw)
      ensures Valid()
    {
      targPoint := new Location(m, x, y, z);
    }

    /** One pass of the loop of execute_maneuver at elapsed time `t`: outside start-up the
        selected coordinate of the current point takes the angle of the phase and the axis's
        velocity the velocity of the phase; once start-up has ended the global point follows
        the local one, the sign convention is applied and the wheel's saturation is updated. */
    method ManeuverTick(m: MathLib, axis: Axis, sign: int, coord: Coord, offset: real, p: Profile, t: real,
                        startupBefore: bool) returns (startup: bool)
      requires Valid()
      modifies this, currPoint, Wheel(axis)
      ensures Valid() && targPoint == old(targPoint)
      ensures startup == (startupBefore && PhaseAt(p, t) == Startup)
      ensures PhaseAt(p, t) == Startup ==>
        currPoint.LocalSpherical() == old(currPoint.LocalSpherical()) && currPoint.Local() == old(currPoint.Local())
      ensures PhaseAt(p, t) != Startup ==>
        currPoint.LocalSpherical() == WithCoord(old(currPoint.LocalSpherical()), coord, AngleAt(p, offset, t))
        && currPoint.Local() == FromSpherical(m, currPoint.LocalSpherical())
      ensures startup ==>
        currPoint.Global() == old(currPoint.Global()) && Omega(axis) == old(Omega(axis))
        && Wheel(axis).saturation == old(Wheel(axis).saturation)
      ensures !startup ==>
        currPoint.Global() == Apply(Get(rotMatT), currPoint.Local())
        && Omega(axis) == Signed(axis, sign, if PhaseAt(p, t) == Startup then old(Omega(axis)) else OmegaAt(p, t))
        && Wheel(axis).saturation == Saturation(Omega(axis), Wheel(axis).maxSatOmega)
      ensures forall b: Axis :: b != axis ==> Omega(b) == old(Omega(b))
      ensures old(Bounded()) && WithinLimits(p, Wheel(axis).maxSatOmega) && (sign == 1 || sign == -1) ==> Bounded()
      ensures PhaseAt(p, t) != Startup ==> TickState(m, axis, sign, coord, offset, p, t)
    {
      ghost var before := Omega(axis);
      startup := startupBefore && PhaseAt(p, t) == Startup;
      if PhaseAt(p, t) != Startup {
        currPoint.UpdateLocalSpherical(m, coord, AngleAt(p, offset, t));
      }
      if !startup {
        currPoint.ComputeGlobalCoords(rotMatT);
        RecordVelocity(axis, sign, if PhaseAt(p, t) == Startup then Omega(axis) else OmegaAt(p, t));
        if old(Bounded()) && WithinLimits(p, Wheel(axis).maxSatOmega) && (sign == 1 || sign == -1) {
          SaturationSweep(Wheel(axis));
          TickWithinBounds(axis, sign, p, Wheel(axis).maxSatOmega, t, before);
        }
      }
    }

    /** The bookkeeping at the end of a tick past start-up: the axis's velocity takes `omega`
        under the sign convention, and the wheel's saturation is set to match. */
    method RecordVelocity(axis: Axis, sign: int, omega: real)
      requires Valid()
      modifies this, Wheel(axis)
      ensures Valid() && targPoint == old(targPoint)
      ensures Omega(axis) == Signed(axis, sign, omega)
      ensures Wheel(axis).saturation == Saturation(Omega(axis), Wheel(axis).maxSatOmega)
      ensures forall b: Axis :: b != axis ==> Omega(b) == old(Omega(b))
    {
      var signed := omega;
      if axis != Roll {
        signed := omega * sign as real;
      }
      SaturationSweep(Wheel(axis));
      var w := Wheel(axis);
      w.saturation := 100.0 * signed / w.maxSatOmega;
      match axis {
        case Roll => omegaRoll := signed;
        case Pitch => omegaPitch := signed;
        case Yaw => omegaYaw := signed;
      }
    }

    /** execute_maneuver: the loop samples `clock` until the plan's durations plus two seconds
        have elapsed, one tick per reading. The coordinates other than `coord` and the other
        axes never change; once the loop ends (for a plan with non-negative durations) the
        coordinate has turned from `offset` through the plan's sweep, the axis has the plan's
        final velocity (under the sign convention), the wheel's saturation matches it, and the
        global point follows the local one. A plan within the wheel's limits keeps every
        velocity and saturation within bounds all along. */
    method ExecuteManeuver(m: MathLib, axis: Axis, sign: int, coord: Coord, offset: real, p: Profile,
                           clock: nat -> real)
      requires Valid() && Clock(clock)
      modifies this, currPoint, Wheel(axis)
      ensures Valid() && targPoint == old(targPoint)
      ensures SameExcept(currPoint.LocalSpherical(), old(currPoint.LocalSpherical()), coord)
      ensures forall b: Axis :: b != axis ==> Omega(b) == old(Omega(b))
      ensures NonNegative(p) ==>
        CoordOf(currPoint.LocalSpherical(), coord) == offset + Sweep(p)
        && Omega(axis) == Signed(axis, sign, FinalOmega(p))
        && Wheel(axis).saturation == Saturation(Omega(axis), Wheel(axis).maxSatOmega)
        && currPoint.Local() == FromSpherical(m, currPoint.LocalSpherical())
        && currPoint.Global() == Apply(Get(rotMatT), currPoint.Local())
      ensures old(Bounded()) && WithinLimits(p, Wheel(axis).maxSatOmega) && (sign == 1 || sign == -1) ==> Bounded()
    {
      var tLast := ManeuverLoop(m, axis, sign, coord, offset, p, clock);
      if NonNegative(p) {
        CompleteAfterPlan(p, offset, tLast);
      }
    }

    /** The loop of execute_maneuver; `tLast` is the last clock reading, the one that ended it. */
    method ManeuverLoop(m: MathLib, axis: Axis, sign: int, coord: Coord, offset: real, p: Profile,
                        clock: nat -> real) returns (tLast: real)
      requires Valid() && Clock(clock)
      modifies this, currPoint, Wheel(axis)
      ensures Valid() && targPoint == old(targPoint)
      ensures tLast >= p.tAccel + p.tCoast + p.tDecel + 2.0
      ensures SameExcept(currPoint.LocalSpherical(), old(currPoint.LocalSpherical()), coord)
      ensures forall b: Axis :: b != axis ==> Omega(b) == old(Omega(b))
      ensures tLast >= 1.0 ==> TickState(m, axis, sign, coord, offset, p, tLast)
      ensures old(Bounded()) && WithinLimits(p, Wheel(axis).maxSatOmega) && (sign == 1 || sign == -1) ==> Bounded()
    {
      tLast := 0.0;
      var startup := true;
      var i: nat := 0;
      var end := p.tAccel + p.tCoast + p.tDecel + 2.0;
      assert Reaches(clock, end);
      ghost var n0: nat :| clock(n0) >= end;
      ghost var limited := old(Bounded()) && WithinLimits(p, Wheel(axis).maxSatOmega) && (sign == 1 || sign == -1);
      while tLast < end
        invariant Valid() && targPoint == old(targPoint)
        invariant i <= n0 + 1 && (tLast < end ==> i <= n0)
        invariant SameExcept(currPoint.LocalSpherical(), old(currPoint.LocalSpherical()), coord)
        invariant forall b: Axis :: b != axis ==> Omega(b) == old(Omega(b))
        invariant tLast >= 1.0 ==> TickState(m, axis, sign, coord, offset, p, tLast)
        invariant limited ==> Bounded()
        decreases n0 + 1 - i
      {
        tLast := clock(i);
        i := i + 1;
        ghost var sph := currPoint.LocalSpherical();
        startup := ManeuverTick(m, axis, sign, coord, offset, p, tLast, startup);
        WithCoordCharacterized(sph, currPoint.LocalSpherical(), coord, AngleAt(p, offset, tLast));
      }
    }

    /** adjust_zoom: the loop samples `clock` until the zoom time plus one second has elapsed;
        the current point's radius ramps linearly from its old value and ends at the target's
        radius, with its angles kept and its global point following the local one. */
    method AdjustZoom(m: MathLib, clock: nat -> real)
      requires Valid() && Clock(clock)
      modifies currPoint
      ensures Valid()
      ensures currPoint.LocalSpherical() == old(currPoint.LocalSpherical()).(rho := targPoint.localR)
      ensures currPoint.Local() == FromSpherical(m, currPoint.LocalSpherical())
      ensures currPoint.Global() == Apply(Get(rotMatT), currPoint.Local())
    {
      var rZoom := targPoint.localR - currPoint.localR;
      var tZoom := Abs(rZoom) / zoomRate;
      var tElapsed := 0.0;
      var rStart := currPoint.localR;
      ghost var rTarget := targPoint.localR;
      var i: nat := 0;
      assert Reaches(clock, tZoom + 1.0);
      ghost var n0: nat :| clock(n0) >= tZoom + 1.0;
      while tElapsed < tZoom + 1.0
        invariant Valid() && targPoint.localR == rTarget
        invariant i <= n0 + 1 && (tElapsed < tZoom + 1.0 ==> i <= n0)
        invariant i == 0 ==> tElapsed == 0.0
        invariant tElapsed >= 0.0
        invariant SameExcept(currPoint.LocalSpherical(), old(currPoint.LocalSpherical()), R)
        invariant i > 0 ==>
          currPoint.localR == ZoomRadiusAt(rStart, rTarget, zoomRate, tElapsed)
          && currPoint.Local() == FromSpherical(m, currPoint.LocalSpherical())
          && currPoint.Global() == Apply(Get(rotMatT), currPoint.Local())
        decreases n0 + 1 - i
      {
        tElapsed := clock(i);
        i := i + 1;
        ZoomTick(m, rStart, rZoom, tZoom, tElapsed);
      }
      ZoomReachesTarget(rStart, rTarget, zoomRate, tElapsed);
    }

    /** One pass of adjust_zoom's loop at elapsed time `t`: the ramped radius while zooming, the
        target's radius afterwards, then the global point from the local one. */
    method ZoomTick(m: MathLib, rStart: real, rZoom: real, tZoom: real, t: real)
      requires Valid() && t >= 0.0
      requires rZoom == targPoint.localR - rStart && tZoom == ZoomDuration(rStart, targPoint.localR, zoomRate)
      modifies currPoint
      ensures Valid() && targPoint.localR == old(targPoint.localR)
      ensures currPoint.localR == ZoomRadiusAt(rStart, targPoint.localR, zoomRate, t)
      ensures SameExcept(currPoint.LocalSpherical(), old(currPoint.LocalSpherical()), R)
      ensures currPoint.Local() == FromSpherical(m, currPoint.LocalSpherical())
      ensures currPoint.Global() == Apply(Get(rotMatT), currPoint.Local())
    {
      ghost var r := ZoomRadiusAt(rStart, targPoint.localR, zoomRate, t);
      if t < tZoom {
        assert r == rStart + rZoom * t / tZoom;
        currPoint.UpdateLocalSpherical(m, R, rStart + rZoom * t / tZoom);
      } else {
        currPoint.UpdateLocalSpherical(m, R, targPoint.localR);
      }
      currPoint.ComputeGlobalCoords(rotMatT);
    }

    /** One maneuver of reorient: the wheel of `axis` plans the turn through `angle` with
        compute_maneuver and execute_maneuver flies it. The coordinate ends at `offset + angle`,
        the axis at rest with zero saturation. */
    method PlanAndExecute(m: MathLib, axis: Axis, sign: int, coord: Coord, offset: real, angle: real,
                          alphaBefore: real, clock: nat -> real) returns (alpha: real)
      requires Valid() && SqrtSound(m) && Clock(clock) && (sign == 1 || sign == -1)
      modifies this, currPoint, Wheel(axis)
      ensures Valid() && targPoint == old(targPoint)
      ensures alpha == Wheel(axis).ComputeManeuver(m, angle, alphaBefore).alpha
      ensures SameExcept(currPoint.LocalSpherical(), old(currPoint.LocalSpherical()), coord)
      ensures CoordOf(currPoint.LocalSpherical(), coord) == offset + angle
      ensures currPoint.Local() == FromSpherical(m, currPoint.LocalSpherical())
      ensures currPoint.Global() == Apply(Get(rotMatT), currPoint.Local())
      ensures Omega(axis) == 0.0 && Wheel(axis).saturation == 0.0
      ensures forall b: Axis :: b != axis ==> Omega(b) == old(Omega(b))
      ensures old(Bounded()) ==> Bounded()
    {
      var p := Wheel(axis).ComputeManeuver(m, angle, alphaBefore);
      WheelPlansWithinLimits(Wheel(axis), m, angle, alphaBefore);
      ProfileSweepsAngle(Wheel(axis), m, angle, alphaBefore);
      ExecuteManeuver(m, axis, sign, coord, offset, p, clock);
      alpha := p.alpha;
    }

    /** The two maneuvers of reorient: the roll compute_efficient_roll picks for the target's
        local azimuth, then a pitch or yaw through the target's local polar angle (the source's
        third branch, which ends the program, is unreachable: the planner only picks pitch or
        yaw). The current point ends at the target's angles, keeps its radius, and both axes
        used end at rest. */
    method Maneuvers(m: MathLib, alphaBefore: real, rollClock: nat -> real, nextClock: nat -> real)
      returns (plan: RollPlan)
      requires Valid() && SqrtSound(m) && Clock(rollClock) && Clock(nextClock)
      modifies this, currPoint, wheelRoll, wheelPitch, wheelYaw
      ensures Valid() && targPoint == old(targPoint)
      ensures plan == EfficientRoll(targPoint.localPhi)
      ensures currPoint.LocalSpherical() == old(currPoint.LocalSpherical()).(theta := targPoint.localTheta, phi := targPoint.localPhi)
      ensures currPoint.Local() == FromSpherical(m, currPoint.LocalSpherical())
      ensures currPoint.Global() == Apply(Get(rotMatT), currPoint.Local())
      ensures Omega(Roll) == 0.0 && Omega(plan.next) == 0.0
      ensures Wheel(Roll).saturation == 0.0 && Wheel(plan.next).saturation == 0.0
      ensures forall b: Axis :: b != Roll && b != plan.next ==>
        Omega(b) == old(Omega(b)) && Wheel(b).saturation == old(Wheel(b).saturation)
      ensures old(Bounded()) ==> Bounded()
    {
      plan := EfficientRoll(targPoint.localPhi);
      var alpha := PlanAndExecute(m, Roll, 1, Phi, plan.offset, plan.roll, alphaBefore, rollClock);
      alpha := PlanAndExecute(m, plan.next, plan.sign, Theta, 0.0, targPoint.localTheta, alpha, nextClock);
    }

    /** The matrix update at the end of reorient: the roll rotation and then the follow-up
        rotation are premultiplied into rot_mat through temporary matrices, and rot_mat_T is
        rebuilt as its transpose. The rotation stays orthonormal. */
    method CommitRotations(m: MathLib, roll: real, next: Axis, angle: real)
      requires Valid() && Pythagorean(m)
      modifies rotMat, rotMatT
      ensures Valid()
      ensures Get(rotMat) == Mul(Rotation(m, next, angle), Mul(Rotation(m, Roll, roll), old(Get(rotMat))))
    {
      var maneuver := new real[3, 3];
      var temp := new real[3, 3];
      var tempT := new real[3, 3];
      ghost var r0 := Get(rotMat);
      ComputeRotationMatrix(maneuver, m, roll, Roll);
      MultiplyRotMats(maneuver, rotMat, temp);
      CopyRotMat(temp, rotMat);
      ComputeRotationMatrix(maneuver, m, angle, next);
      MultiplyRotMats(maneuver, rotMat, temp);
      CopyRotMat(temp, rotMat);
      TransposeRotMat(rotMat, tempT);
      CopyRotMat(tempT, rotMatT);
      RotationOrthonormal(m, Roll, roll);
      RotationOrthonormal(m, next, angle);
      OrthonormalMul(Rotation(m, Roll, roll), r0);
      OrthonormalMul(Rotation(m, next, angle), Mul(Rotation(m, Roll, roll), r0));
    }

    /** The part of reorient before the matrices change: the target is projected into the body
        frame, the two maneuvers are planned from its local angles and flown, and the zoom is
        adjusted. The current point ends with exactly the target's local spherical coordinates,
        and its global point is computed with the transpose in force. */
    method FlyToTarget(m: MathLib, alphaBefore: real, rollClock: nat -> real, nextClock: nat -> real,
                       zoomClock: nat -> real) returns (plan: RollPlan)
      requires Valid() && SqrtSound(m) && Clock(rollClock) && Clock(nextClock) && Clock(zoomClock)
      modifies this, currPoint, targPoint, wheelRoll, wheelPitch, wheelYaw
      ensures Valid() && targPoint == old(targPoint)
      ensures targPoint.LocalSpherical() == Aimed(m, Get(rotMat), old(targPoint.Global()))
      ensures targPoint.Global() == old(targPoint.Global())
      ensures plan == EfficientRoll(targPoint.localPhi)
      ensures targPoint.Local() == Apply(old(Get(rotMat)), old(targPoint.Global()))
      ensures currPoint.LocalSpherical() == targPoint.LocalSpherical()
      ensures currPoint.Local() == FromSpherical(m, currPoint.LocalSpherical())
      ensures currPoint.Global() == Apply(Get(rotMatT), FromSpherical(m, currPoint.LocalSpherical()))
      ensures Omega(Roll) == 0.0 && Omega(plan.next) == 0.0
      ensures Wheel(Roll).saturation == 0.0 && Wheel(plan.next).saturation == 0.0
      ensures forall b: Axis :: b != Roll && b != plan.next ==>
        Omega(b) == old(Omega(b)) && Wheel(b).saturation == old(Wheel(b).saturation)
      ensures old(Bounded()) ==> Bounded()
    {
      OrthonormalNonZero(Get(rotMat), targPoint.Global());
      targPoint.ComputeLocalCoords(m, rotMat);
      plan := Maneuvers(m, alphaBefore, rollClock, nextClock);
      AdjustZoom(m, zoomClock);
    }

    /** reorient: after flying to the target, the roll and then the follow-up rotation are
        committed to rot_mat, and both points are put on the new local +z axis at the target's
        distance. The current point's global point is where the body frame in force during the
        maneuvers places the target's local spherical coordinates. */
    method Reorient(m: MathLib, alphaBefore: real, rollClock: nat -> real, nextClock: nat -> real,
                    zoomClock: nat -> real)
      requires Valid() && Sound(m) && Clock(rollClock) && Clock(nextClock) && Clock(zoomClock)
      modifies this, rotMat, rotMatT, currPoint, targPoint, wheelRoll, wheelPitch, wheelYaw
      ensures Valid() && targPoint == old(targPoint)
      ensures var s := Aimed(m, old(Get(rotMat)), old(targPoint.Global()));
        var plan := EfficientRoll(s.phi);
        Get(rotMat) == Mul(Rotation(m, plan.next, FollowUpAngle(plan, s.theta)), Mul(Rotation(m, Roll, plan.roll), old(Get(rotMat))))
        && currPoint.Global() == Apply(old(Get(rotMatT)), FromSpherical(m, s))
        && currPoint.Local() == Vec3(0.0, 0.0, s.rho) && targPoint.Local() == Vec3(0.0, 0.0, s.rho)
        && Omega(Roll) == 0.0 && Omega(plan.next) == 0.0
        && Wheel(Roll).saturation == 0.0 && Wheel(plan.next).saturation == 0.0
        && (forall b: Axis :: b != Roll && b != plan.next ==>
              Omega(b) == old(Omega(b)) && Wheel(b).saturation == old(Wheel(b).saturation))
      ensures targPoint.Global() == old(targPoint.Global())
      ensures currPoint.LocalSpherical() == ToSpherical(m, currPoint.Local())
      ensures targPoint.LocalSpherical() == ToSpherical(m, targPoint.Local())
      ensures old(Bounded()) ==> Bounded()
      ensures SphericalInverse(m) ==> currPoint.Global() == targPoint.Global()
    {
      ghost var r0, g0 := Get(rotMat), targPoint.Global();
      var plan := FlyToTarget(m, alphaBefore, rollClock, nextClock, zoomClock);
      Settle(m, plan.roll, plan.next, FollowUpAngle(plan, targPoint.localTheta));
      if SphericalInverse(m) {
        AimedReturns(m, r0, g0);
      }
    }

    /** The end of reorient: the rotations are committed and both points, which now have the
        same distance, are put on the local +z axis at that distance; the global points stay. */
    method Settle(m: MathLib, roll: real, next: Axis, angle: real)
      requires Valid() && Pythagorean(m) && SqrtSound(m)
      requires currPoint.localR == targPoint.localR > 0.0
      modifies rotMat, rotMatT, currPoint, targPoint
      ensures Valid()
      ensures Get(rotMat) == Mul(Rotation(m, next, angle), Mul(Rotation(m, Roll, roll), old(Get(rotMat))))
      ensures currPoint.Local() == Vec3(0.0, 0.0, old(targPoint.localR)) && targPoint.Local() == currPoint.Local()
      ensures currPoint.Global() == old(currPoint.Global()) && targPoint.Global() == old(targPoint.Global())
      ensures currPoint.LocalSpherical() == ToSpherical(m, currPoint.Local())
      ensures targPoint.LocalSpherical() == ToSpherical(m, targPoint.Local())
      ensures Bounded() == old(Bounded())
      ensures forall b: Axis :: Omega(b) == old(Omega(b)) && Wheel(b).saturation == old(Wheel(b).saturation)
    {
      CommitRotations(m, roll, next, angle);
      currPoint.RotateLocalCoords(m);
      targPoint.RotateLocalCoords(m);
    }
  }
}
