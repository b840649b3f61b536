/** The reaction wheel of Reaction_Wheel.cpp: one per axis, with fixed motor limits, the constants
    derived from them, a saturation percentage the simulator writes, and the bang-bang motion plan
    (accelerate, coast, decelerate) for a commanded angle. */
module ReactionWheels {
  import opened Numerics

  /** A motion plan: accelerate for `tAccel` at the signed rate `alpha`, coast for `tCoast`,
      decelerate for `tDecel`. */
  datatype Profile = Profile(tAccel: real, tCoast: real, tDecel: real, alpha: real)

  /** The angle a profile turns the satellite through, as the simulator's final tick computes it:
      the accelerating, coasting and decelerating contributions. */
  function Sweep(p: Profile): real {
    p.alpha * p.tAccel * p.tAccel / 2.0 + p.alpha * p.tAccel * p.tCoast
      + (p.alpha * p.tAccel * p.tDecel - p.alpha * p.tDecel * p.tDecel / 2.0)
  }

  /** The angular velocity left at the end of a profile. */
  function FinalOmega(p: Profile): real {
    p.alpha * p.tAccel - p.alpha * p.tDecel
  }

  class ReactionWheel {
    const maxTorque: real
    const maxAngularMomentum: real
    const timeToMaxMomentum: real
    const maxSatAlpha: real
    const maxSatOmega: real
    const maxSatThetaAcc: real
    var saturation: real

    /** The derived constants: the time to saturate at full torque, the peak velocity reached by
        then and the angle swept while getting there. */
    ghost predicate Derived() {
      maxTorque > 0.0 && maxAngularMomentum > 0.0 && maxSatAlpha > 0.0
      && timeToMaxMomentum == maxAngularMomentum / maxTorque
      && maxSatOmega == maxSatAlpha * timeToMaxMomentum
      && maxSatThetaAcc == 0.5 * maxSatAlpha * timeToMaxMomentum * timeToMaxMomentum
    }

    constructor (satInertia: real)
      requires satInertia > 0.0
      ensures maxTorque == 0.012 && maxAngularMomentum == 0.03
      ensures maxSatAlpha == maxTorque / satInertia
      ensures saturation == 0.0
      ensures Derived()
    {
      maxTorque := 0.012;
      maxAngularMomentum := 0.03;
      saturation := 0.0;
      timeToMaxMomentum := 0.03 / 0.012;
      maxSatAlpha := 0.012 / satInertia;
      maxSatOmega := (0.012 / satInertia) * (0.03 / 0.012);
      maxSatThetaAcc := 0.5 * (0.012 / satInertia) * (0.03 / 0.012) * (0.03 / 0.012);
    }

    /** compute_maneuver. A zero angle gets three zero durations and leaves `alpha` as it was
        (`alphaBefore`); otherwise `alpha` is full acceleration in the direction of the angle, and
        the profile is a trapezoid when the angle exceeds twice the saturation sweep and a
        triangle otherwise. */
    function ComputeManeuver(m: MathLib, angle: real, alphaBefore: real): (p: Profile)
      requires Derived()
      ensures p.tAccel == p.tDecel
      ensures angle == 0.0 ==> p == Profile(0.0, 0.0, 0.0, alphaBefore)
      ensures angle != 0.0 ==> p.alpha == maxSatAlpha * Sign(angle)
    {
      if angle == 0.0 then Profile(0.0, 0.0, 0.0, alphaBefore)
      else
        var angleAbs := Abs(angle);
        var alpha := maxSatAlpha * (angle / angleAbs);
        if angleAbs > maxSatThetaAcc * 2.0 then
          Profile(timeToMaxMomentum, (angleAbs - maxSatThetaAcc * 2.0) / maxSatOmega, timeToMaxMomentum, alpha)
        else
          var t := m.sqrt(angleAbs / maxSatAlpha);
          Profile(t, 0.0, t, alpha)
    }
  }

  /** The constants the program's wheels get: 2.5 s to saturate, whatever the inertia. */
  lemma ConstructedConstants(w: ReactionWheel, satInertia: real)
    requires satInertia > 0.0 && w.Derived()
    requires w.maxTorque == 0.012 && w.maxAngularMomentum == 0.03 && w.maxSatAlpha == w.maxTorque / satInertia
    ensures w.timeToMaxMomentum == 2.5
    ensures w.maxSatOmega == 0.03 / satInertia
    ensures w.maxSatThetaAcc == 0.0375 / satInertia
  {
  }

  /** Saturating takes exactly twice the saturation sweep divided by the peak velocity: the
      saturation sweep is half of peak velocity times saturation time. */
  lemma SaturationSweep(w: ReactionWheel)
    requires w.Derived()
    ensures w.maxSatThetaAcc == 0.5 * w.maxSatOmega * w.timeToMaxMomentum
    ensures w.timeToMaxMomentum > 0.0 && w.maxSatOmega > 0.0 && w.maxSatThetaAcc > 0.0
  {
  }

  /** A large angle: full acceleration to saturation, a positive coast at peak velocity for the
      remaining angle, and full deceleration. */
  lemma TrapezoidProfile(w: ReactionWheel, m: MathLib, angle: real, alphaBefore: real)
    requires w.Derived()
    requires Abs(angle) > 2.0 * w.maxSatThetaAcc
    ensures var p := w.ComputeManeuver(m, angle, alphaBefore);
      p.tAccel == p.tDecel == w.timeToMaxMomentum
      && p.tCoast == (Abs(angle) - 2.0 * w.maxSatThetaAcc) / w.maxSatOmega
      && p.tCoast > 0.0
  {
    SaturationSweep(w);
    var p := w.ComputeManeuver(m, angle, alphaBefore);
    assert Abs(angle) - 2.0 * w.maxSatThetaAcc > 0.0;
  }

  /** A small non-zero angle: no coast, and accelerating for `t` at full rate covers half the
      angle (t^2 * alpha_max == |angle|); so `t` never exceeds the saturation time, and reaches
      it exactly at the boundary |angle| == 2 * saturation sweep. */
  lemma TriangleProfile(w: ReactionWheel, m: MathLib, angle: real, alphaBefore: real)
    requires w.Derived() && SqrtSound(m)
    requires angle != 0.0 && Abs(angle) <= 2.0 * w.maxSatThetaAcc
    ensures var p := w.ComputeManeuver(m, angle, alphaBefore);
      p.tCoast == 0.0
      && p.tAccel * p.tAccel * w.maxSatAlpha == Abs(angle)
      && 0.0 < p.tAccel <= w.timeToMaxMomentum
      && (p.tAccel == w.timeToMaxMomentum <==> Abs(angle) == 2.0 * w.maxSatThetaAcc)
  {
    TriangleTime(m, Abs(angle), w.maxSatAlpha, w.timeToMaxMomentum, w.maxSatThetaAcc);
  }

  /** The arithmetic of the triangular profile: t = sqrt(A / alpha) with 0 < A <= 2 theta and
      theta = alpha T^2 / 2. */
  lemma TriangleTime(m: MathLib, A: real, alpha: real, T: real, theta: real)
    requires SqrtSound(m)
    requires alpha > 0.0 && T > 0.0 && theta == 0.5 * alpha * T * T
    requires 0.0 < A <= 2.0 * theta
    ensures var t := m.sqrt(A / alpha);
      t * t * alpha == A && 0.0 < t <= T && (t == T <==> A == 2.0 * theta)
  {
    var q := A / alpha;
    var t := m.sqrt(q);
    assert q * alpha == A;
    assert t * t == q;
    SqrtPositive(m, q);
    var TT := T * T;
    assert 2.0 * theta == TT * alpha;
    DivideBound(A, TT, alpha);
    SqrtUnique(m, TT, T);
    SqrtMonotone(m, q, TT);
    if t == T {
      assert q == TT;
    }
    if A == 2.0 * theta {
      assert q == TT;
    }
  }

  lemma DivideBound(x: real, y: real, c: real)
    requires c > 0.0 && x <= y * c
    ensures x / c <= y
  {
  }

  /** The peak velocity of any plan, alpha * t_accel, stays within the wheel's peak velocity;
      every duration is non-negative and acceleration never lasts longer than saturation. */
  lemma PeakSpeedBounded(w: ReactionWheel, m: MathLib, angle: real, alphaBefore: real)
    requires w.Derived() && SqrtSound(m)
    ensures var p := w.ComputeManeuver(m, angle, alphaBefore);
      0.0 <= p.tAccel <= w.timeToMaxMomentum && p.tCoast >= 0.0 && p.tDecel >= 0.0
      && (angle != 0.0 ==> Abs(p.alpha) == w.maxSatAlpha)
      && (angle != 0.0 ==> Abs(p.alpha) * p.tAccel <= w.maxSatOmega)
  {
    var p := w.ComputeManeuver(m, angle, alphaBefore);
    if angle != 0.0 {
      if Abs(angle) > 2.0 * w.maxSatThetaAcc {
        TrapezoidProfile(w, m, angle, alphaBefore);
      } else {
        TriangleProfile(w, m, angle, alphaBefore);
        MulMonotone(w.maxSatAlpha, p.tAccel, w.timeToMaxMomentum);
      }
    }
  }

  lemma MulMonotone(c: real, x: real, y: real)
    requires c >= 0.0 && x <= y
    ensures c * x <= c * y
  {
  }

  /** Every plan is a complete maneuver: it stops (the final velocity is zero) having turned
      through exactly the commanded angle. */
  lemma ProfileSweepsAngle(w: ReactionWheel, m: MathLib, angle: real, alphaBefore: real)
    requires w.Derived() && SqrtSound(m)
    ensures FinalOmega(w.ComputeManeuver(m, angle, alphaBefore)) == 0.0
    ensures Sweep(w.ComputeManeuver(m, angle, alphaBefore)) == angle
  {
    var p := w.ComputeManeuver(m, angle, alphaBefore);
    if angle == 0.0 {
      SymmetricSweep(p.alpha, 0.0, 0.0, p);
    } else if Abs(angle) > 2.0 * w.maxSatThetaAcc {
      TrapezoidSweepsAngle(w, m, angle, alphaBefore);
    } else {
      TriangleSweepsAngle(w, m, angle, alphaBefore);
    }
  }

  lemma TrapezoidSweepsAngle(w: ReactionWheel, m: MathLib, angle: real, alphaBefore: real)
    requires w.Derived() && Abs(angle) > 2.0 * w.maxSatThetaAcc
    ensures FinalOmega(w.ComputeManeuver(m, angle, alphaBefore)) == 0.0
    ensures Sweep(w.ComputeManeuver(m, angle, alphaBefore)) == angle
  {
    var p := w.ComputeManeuver(m, angle, alphaBefore);
    var s, T := Sign(angle), w.timeToMaxMomentum;
    TrapezoidProfile(w, m, angle, alphaBefore);
    SymmetricSweep(p.alpha, T, p.tCoast, p);
    TrapezoidSweep(w.maxSatAlpha, T, s, Abs(angle), p.tCoast, p.alpha);
    assert Sweep(p) == s * Abs(angle);
  }

  lemma TriangleSweepsAngle(w: ReactionWheel, m: MathLib, angle: real, alphaBefore: real)
    requires w.Derived() && SqrtSound(m)
    requires angle != 0.0 && Abs(angle) <= 2.0 * w.maxSatThetaAcc
    ensures FinalOmega(w.ComputeManeuver(m, angle, alphaBefore)) == 0.0
    ensures Sweep(w.ComputeManeuver(m, angle, alphaBefore)) == angle
  {
    var p := w.ComputeManeuver(m, angle, alphaBefore);
    var s := Sign(angle);
    TriangleProfile(w, m, angle, alphaBefore);
    SymmetricSweep(p.alpha, p.tAccel, 0.0, p);
    TriangleSweep(w.maxSatAlpha, s, p.tAccel, Abs(angle), p.alpha);
    assert Sweep(p) == s * Abs(angle);
  }

  /** A profile that decelerates as long as it accelerates ends at rest, having swept
      alpha t^2 + alpha t t_coast. */
  lemma SymmetricSweep(a: real, t: real, tc: real, p: Profile)
    requires p.alpha == a && p.tAccel == t && p.tDecel == t && p.tCoast == tc
    ensures FinalOmega(p) == 0.0
    ensures Sweep(p) == a * t * t + a * t * tc
  {
  }

  /** The trapezoid's sweep: with alpha = s M, t = T and t_coast = (A - M T^2) / (M T), the
      sweep is s A. */
  lemma TrapezoidSweep(M: real, T: real, s: real, A: real, tc: real, a: real)
    requires M > 0.0 && T > 0.0 && a == M * s
    requires tc == (A - 2.0 * (0.5 * M * T * T)) / (M * T)
    ensures a * T * T + a * T * tc == s * A
  {
    var omega := M * T;
    assert omega > 0.0;
    assert omega * tc == A - M * T * T;
    assert a * T * tc == s * (omega * tc);
    assert a * T * T == s * (M * T * T);
  }

  /** The triangle's sweep: with alpha = s M, t^2 M = A and no coast, the sweep is s A. */
  lemma TriangleSweep(M: real, s: real, t: real, A: real, a: real)
    requires a == M * s && t * t * M == A
    ensures a * t * t + a * t * 0.0 == s * A
  {
    assert a * t * t == s * (t * t * M);
  }
}
