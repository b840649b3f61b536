/** The motion the simulator plays back in real time (Ideal_Cube_Sat.cpp): for a maneuver, the
    phase, angular velocity and angle at an elapsed time; for the optical zoom, the radius at an
    elapsed time. The loops of the satellite sample these with a clock. */
module Kinematics {
  import opened Numerics
  import opened ReactionWheels

  /** A clock reading elapsed seconds: each reading is non-negative, and every bound is passed
      eventually, which is what ends the real-time loops. */
  ghost predicate Clock(clock: nat -> real) {
    (forall n: nat :: clock(n) >= 0.0) && (forall b: real :: Reaches(clock, b))
  }

  ghost predicate Reaches(clock: nat -> real, b: real) {
    exists n: nat :: clock(n) >= b
  }

  /** The stages of execute_maneuver: one second of start-up message, then the three motion
      phases, then the completed maneuver (shown for one more second). */
  datatype Phase = Startup | Accelerating | Coasting | Decelerating | Complete

  function PhaseRank(ph: Phase): nat {
    match ph
    case Startup => 0
    case Accelerating => 1
    case Coasting => 2
    case Decelerating => 3
    case Complete => 4
  }

  /** The phase at elapsed time `t`. */
  function PhaseAt(p: Profile, t: real): Phase {
    if t < 1.0 then Startup
    else if t < 1.0 + p.tAccel then Accelerating
    else if t < 1.0 + p.tAccel + p.tCoast then Coasting
    else if t < 1.0 + p.tAccel + p.tCoast + p.tDecel then Decelerating
    else Complete
  }

  /** The angle of each phase after `s` seconds in it, for a maneuver starting at `offset`. */
  function AccelAngle(p: Profile, offset: real, s: real): real {
    offset + p.alpha * s * s / 2.0
  }

  function CoastAngle(p: Profile, offset: real, s: real): real {
    offset + p.alpha * p.tAccel * p.tAccel / 2.0 + p.alpha * p.tAccel * s
  }

  function DecelAngle(p: Profile, offset: real, s: real): real {
    offset + p.alpha * p.tAccel * p.tAccel / 2.0 + p.alpha * p.tAccel * p.tCoast
      + (p.alpha * p.tAccel * s - p.alpha * s * s / 2.0)
  }

  /** The angular velocity of each phase after `s` seconds in it. */
  function AccelOmega(p: Profile, s: real): real {
    p.alpha * s
  }

  function CoastOmega(p: Profile): real {
    p.alpha * p.tAccel
  }

  function DecelOmega(p: Profile, s: real): real {
    p.alpha * p.tAccel - p.alpha * s
  }

  /** The angle execute_maneuver assigns at elapsed time `t` (not used during start-up). */
  function AngleAt(p: Profile, offset: real, t: real): real {
    match PhaseAt(p, t)
    case Startup => offset
    case Accelerating => AccelAngle(p, offset, t - 1.0)
    case Coasting => CoastAngle(p, offset, t - p.tAccel - 1.0)
    case Decelerating => DecelAngle(p, offset, t - p.tAccel - p.tCoast - 1.0)
    case Complete => DecelAngle(p, offset, p.tDecel)
  }

  /** The angular velocity execute_maneuver assigns at elapsed time `t`, before the sign
      convention of the axis (not used during start-up). */
  function OmegaAt(p: Profile, t: real): real {
    match PhaseAt(p, t)
    case Startup => 0.0
    case Accelerating => AccelOmega(p, t - 1.0)
    case Coasting => CoastOmega(p)
    case Decelerating => DecelOmega(p, t - p.tAccel - p.tCoast - 1.0)
    case Complete => DecelOmega(p, p.tDecel)
  }

  /** The wheel's saturation percentage for an angular velocity. */
  function Saturation(omega: real, omegaMax: real): (r: real)
    requires omegaMax > 0.0
    ensures r * omegaMax == 100.0 * omega
  {
    100.0 * omega / omegaMax
  }

  /** A plan the wheel can fly: non-negative durations, deceleration as long as acceleration,
      and a peak velocity within `omegaMax`. */
  ghost predicate WithinLimits(p: Profile, omegaMax: real) {
    0.0 <= p.tAccel && p.tAccel == p.tDecel && 0.0 <= p.tCoast && Abs(p.alpha) * p.tAccel <= omegaMax
  }

  /** Every plan compute_maneuver makes is within the wheel's limits. */
  lemma WheelPlansWithinLimits(w: ReactionWheel, m: MathLib, angle: real, alphaBefore: real)
    requires w.Derived() && SqrtSound(m)
    ensures WithinLimits(w.ComputeManeuver(m, angle, alphaBefore), w.maxSatOmega)
  {
    PeakSpeedBounded(w, m, angle, alphaBefore);
    SaturationSweep(w);
    var p := w.ComputeManeuver(m, angle, alphaBefore);
    if angle == 0.0 {
      assert Abs(p.alpha) * p.tAccel == 0.0;
    }
  }

  /** The phases come in order: as time goes on the phase never goes back. */
  lemma PhasesInOrder(p: Profile, t1: real, t2: real)
    requires p.tAccel >= 0.0 && p.tCoast >= 0.0 && p.tDecel >= 0.0
    requires t1 <= t2
    ensures PhaseRank(PhaseAt(p, t1)) <= PhaseRank(PhaseAt(p, t2))
  {
  }

  /** Once the three motion phases have elapsed the maneuver is complete, and it has turned
      through the whole sweep of the plan and left the final velocity of the plan. */
  lemma CompleteAfterPlan(p: Profile, offset: real, t: real)
    requires p.tAccel >= 0.0 && p.tCoast >= 0.0 && p.tDecel >= 0.0
    ensures PhaseAt(p, t) == Complete <==> t >= 1.0 + p.tAccel + p.tCoast + p.tDecel
    ensures PhaseAt(p, t) == Complete ==>
      AngleAt(p, offset, t) == offset + Sweep(p) && OmegaAt(p, t) == FinalOmega(p)
  {
  }

  /** The motion has no jumps: each phase starts with the angle and velocity the previous one
      ends with, and the completed maneuver holds the values deceleration ends with. */
  lemma MotionContinuous(p: Profile, offset: real)
    ensures AccelAngle(p, offset, p.tAccel) == CoastAngle(p, offset, 0.0)
    ensures AccelOmega(p, p.tAccel) == CoastOmega(p)
    ensures CoastAngle(p, offset, p.tCoast) == DecelAngle(p, offset, 0.0)
    ensures CoastOmega(p) == DecelOmega(p, 0.0)
  {
  }

  /** A wheel plan ends at rest, turned through exactly the commanded angle. */
  lemma WheelPlanArrives(w: ReactionWheel, m: MathLib, angle: real, alphaBefore: real, offset: real, t: real)
    requires w.Derived() && SqrtSound(m)
    requires var p := w.ComputeManeuver(m, angle, alphaBefore);
      t >= 1.0 + p.tAccel + p.tCoast + p.tDecel
    ensures var p := w.ComputeManeuver(m, angle, alphaBefore);
      PhaseAt(p, t) == Complete && AngleAt(p, offset, t) == offset + angle && OmegaAt(p, t) == 0.0
  {
    var p := w.ComputeManeuver(m, angle, alphaBefore);
    WheelPlansWithinLimits(w, m, angle, alphaBefore);
    CompleteAfterPlan(p, offset, t);
    ProfileSweepsAngle(w, m, angle, alphaBefore);
  }

  /** Within the limits, the angular velocity never exceeds `omegaMax` in magnitude. */
  lemma SpeedWithinLimits(p: Profile, omegaMax: real, t: real)
    requires WithinLimits(p, omegaMax)
    ensures Abs(OmegaAt(p, t)) <= omegaMax
  {
    var u := OmegaAsFraction(p, t);
    var omega := OmegaAt(p, t);
    ScaledBelow(p.alpha, u, p.tAccel);
    assert Abs(omega) == Abs(p.alpha * u);
  }

  /** At every instant the velocity is alpha times some time within [0, t_accel]. */
  lemma OmegaAsFraction(p: Profile, t: real) returns (u: real)
    requires 0.0 <= p.tAccel && p.tAccel == p.tDecel && 0.0 <= p.tCoast
    ensures 0.0 <= u <= p.tAccel && OmegaAt(p, t) == p.alpha * u
  {
    var a, ta := p.alpha, p.tAccel;
    match PhaseAt(p, t)
    case Startup =>
      u := 0.0;
    case Accelerating =>
      u := t - 1.0;
    case Coasting =>
      u := ta;
    case Decelerating =>
      var s := t - ta - p.tCoast - 1.0;
      u := ta - s;
      Distribute(a, ta, s);
    case Complete =>
      u := 0.0;
  }

  lemma Distribute(a: real, b: real, c: real)
    ensures a * b - a * c == a * (b - c)
  {
  }

  /** |a * s| <= |a| * t for 0 <= s <= t. */
  lemma ScaledBelow(a: real, s: real, t: real)
    requires 0.0 <= s <= t
    ensures Abs(a * s) <= Abs(a) * t
  {
    AbsProduct(a, s);
    var d := t - s;
    var q := Abs(a) * d;
    SignedProduct(Abs(a), d, q);
    assert Abs(a) * t == Abs(a) * s + q;
  }

  lemma AbsProduct(a: real, s: real)
    requires s >= 0.0
    ensures Abs(a * s) == Abs(a) * s
  {
    var p := a * s;
    if a < 0.0 {
      var q := (-a) * s;
      SignedProduct(-a, s, q);
      assert p == -q;
    } else {
      SignedProduct(a, s, p);
    }
  }

  /** A product of non-negative reals is non-negative. */
  lemma SignedProduct(a: real, b: real, p: real)
    requires a >= 0.0 && b >= 0.0 && p == a * b
    ensures p >= 0.0
  {
    if a > 0.0 && b > 0.0 {
      ProductPositive(a, b, p);
    }
  }

  /** So the saturation percentage written during a maneuver stays within [-100, 100], with
      either sign convention. */
  lemma SaturationWithinRange(p: Profile, omegaMax: real, t: real, sign: real)
    requires omegaMax > 0.0 && WithinLimits(p, omegaMax)
    requires sign == 1.0 || sign == -1.0
    ensures -100.0 <= Saturation(OmegaAt(p, t) * sign, omegaMax) <= 100.0
  {
    SpeedWithinLimits(p, omegaMax, t);
    FractionBounded(OmegaAt(p, t) * sign, omegaMax);
  }

  /** |x| <= c gives -100 <= 100 x / c <= 100. */
  lemma FractionBounded(x: real, c: real)
    requires c > 0.0 && Abs(x) <= c
    ensures -100.0 <= 100.0 * x / c <= 100.0
  {
    var f := x / c;
    assert f * c == x;
    if f > 1.0 {
      var e := f - 1.0;
      ProductPositive(e, c, e * c);
      assert false;
    }
    if f < -1.0 {
      var e := -1.0 - f;
      ProductPositive(e, c, e * c);
      assert false;
    }
    assert 100.0 * x / c == 100.0 * f;
  }

  /** How long adjust_zoom ramps: the radius change at `rate` per second. */
  function ZoomDuration(rStart: real, rTarget: real, rate: real): (d: real)
    requires rate > 0.0
    ensures d >= 0.0 && d * rate == Abs(rTarget - rStart)
  {
    Abs(rTarget - rStart) / rate
  }

  /** The radius adjust_zoom assigns at elapsed time `t`: a linear ramp from `rStart` while the
      zoom lasts, the target afterwards. */
  function ZoomRadiusAt(rStart: real, rTarget: real, rate: real, t: real): real
    requires rate > 0.0 && t >= 0.0
  {
    var rZoom := rTarget - rStart;
    var tZoom := ZoomDuration(rStart, rTarget, rate);
    if t < tZoom then rStart + rZoom * t / tZoom else rTarget
  }

  /** After the zoom time the radius is the target's. */
  lemma ZoomReachesTarget(rStart: real, rTarget: real, rate: real, t: real)
    requires rate > 0.0 && t >= ZoomDuration(rStart, rTarget, rate)
    ensures ZoomRadiusAt(rStart, rTarget, rate, t) == rTarget
  {
  }

  /** The radius moves at exactly `rate` while zooming, and never leaves the interval between
      the start and the target. */
  lemma ZoomRamp(rStart: real, rTarget: real, rate: real, t: real)
    requires rate > 0.0 && t >= 0.0
    ensures var r := ZoomRadiusAt(rStart, rTarget, rate, t);
      (t < ZoomDuration(rStart, rTarget, rate) ==> Abs(r - rStart) == rate * t)
      && (rStart <= rTarget ==> rStart <= r <= rTarget)
      && (rTarget <= rStart ==> rTarget <= r <= rStart)
  {
    var tZoom := ZoomDuration(rStart, rTarget, rate);
    if t < tZoom {
      RampInterior(rStart, rTarget, tZoom, rate, t, ZoomRadiusAt(rStart, rTarget, rate, t));
    }
  }

  /** The ramp at a time `t` inside a zoom of duration `tZoom`. */
  lemma RampInterior(rStart: real, rTarget: real, tZoom: real, rate: real, t: real, r: real)
    requires rate > 0.0 && 0.0 <= t < tZoom && tZoom * rate == Abs(rTarget - rStart)
    requires r == rStart + (rTarget - rStart) * t / tZoom
    ensures Abs(r - rStart) == rate * t
    ensures rStart <= rTarget ==> rStart <= r <= rTarget
    ensures rTarget <= rStart ==> rTarget <= r <= rStart
  {
    var rZoom := rTarget - rStart;
    var f := t / tZoom;
    FractionBelowOne(t, tZoom, f);
    ScaleQuotient(rZoom, t, tZoom, f);
    RampStep(rZoom, f, rate, tZoom, t);
  }

  lemma FractionBelowOne(t: real, d: real, f: real)
    requires 0.0 <= t < d && f == t / d
    ensures 0.0 <= f < 1.0 && f * d == t
  {
  }

  lemma ScaleQuotient(x: real, t: real, d: real, f: real)
    requires d > 0.0 && f == t / d
    ensures x * t / d == x * f
  {
  }

  /** The step `rZoom * f` with f = t / tZoom in [0, 1): its magnitude is `rate * t`, and it
      stays between zero and `rZoom`. */
  lemma RampStep(rZoom: real, f: real, rate: real, tZoom: real, t: real)
    requires rate > 0.0 && 0.0 <= f < 1.0 && tZoom > 0.0
    requires f * tZoom == t && tZoom * rate == Abs(rZoom)
    ensures Abs(rZoom * f) == rate * t
    ensures rZoom >= 0.0 ==> 0.0 <= rZoom * f <= rZoom
    ensures rZoom <= 0.0 ==> rZoom <= rZoom * f <= 0.0
  {
    var step := rZoom * f;
    AbsProduct(rZoom, f);
    assert Abs(rZoom) * f == rate * t by {
      assert Abs(rZoom) * f == (tZoom * rate) * f;
      assert (tZoom * rate) * f == (f * tZoom) * rate;
    }
    ScaledBelow(rZoom, f, 1.0);
    if rZoom >= 0.0 {
      SignedProduct(rZoom, f, step);
    } else {
      var q := (-rZoom) * f;
      SignedProduct(-rZoom, f, q);
      assert step == -q;
    }
  }
}
