/** The maneuver planner of Helper_Functions.cpp (compute_efficient_roll): from the target's local
    azimuth it picks the roll of least magnitude that brings the target into the plane of a single
    pitch or yaw maneuver, which then finishes the alignment. */
module Planner {
  import opened Numerics
  import opened Frames

  /** The roll angle, the azimuth offset left after rolling, the follow-up maneuver and the sign
      with which that maneuver turns through the target's polar angle. */
  datatype RollPlan = RollPlan(roll: real, offset: real, next: Axis, sign: int)

  /** `k` quarter turns. */
  function QuarterTurns(k: int): real {
    k as real * (PI / 2.0)
  }

  /** compute_efficient_roll. The sectors are closed at their upper edge; the final `else` of the
      source, which ends the program, cannot be reached by a real azimuth. */
  function EfficientRoll(phi: real): (p: RollPlan)
    ensures p.offset + p.roll == phi
    ensures p.next == Yaw || p.next == Pitch
    ensures p.sign == 1 || p.sign == -1
  {
    var choice :=
      if phi <= PI / 4.0 then RollPlan(phi, 0.0, Yaw, 1)
      else if phi <= 3.0 * PI / 4.0 then RollPlan(phi - PI / 2.0, 0.0, Pitch, -1)
      else if phi <= 5.0 * PI / 4.0 then RollPlan(phi - PI, 0.0, Yaw, -1)
      else if phi <= 7.0 * PI / 4.0 then RollPlan(phi - 3.0 * PI / 2.0, 0.0, Pitch, 1)
      else if phi > 7.0 * PI / 4.0 then RollPlan(phi - 2.0 * PI, 0.0, Yaw, 1)
      else assert false; RollPlan(0.0, 0.0, Yaw, 1);
    choice.(offset := phi - choice.roll)
  }

  /** The signed angle of the follow-up maneuver for a target at polar angle `theta`. */
  function FollowUpAngle(p: RollPlan, theta: real): real {
    p.sign as real * theta
  }

  /** Minimum-roll property: for an azimuth in [0, 2 pi) the roll is at most an eighth of a turn,
      and no whole number of quarter turns is closer to the azimuth than the chosen offset. */
  lemma {:induction false} RollIsMinimal(phi: real)
    requires 0.0 <= phi < 2.0 * PI
    ensures Abs(EfficientRoll(phi).roll) <= PI / 4.0
    ensures forall k: int :: Abs(EfficientRoll(phi).roll) <= Abs(phi - QuarterTurns(k))
  {
    var p := EfficientRoll(phi);
    forall k: int
      ensures Abs(p.roll) <= Abs(phi - QuarterTurns(k))
    {
      if k <= 0 {
        assert QuarterTurns(k) <= QuarterTurns(0);
      } else if k >= 4 {
        assert QuarterTurns(k) >= QuarterTurns(4);
      } else {
        assert k == 1 || k == 2 || k == 3;
      }
    }
  }

  /** The offset is a whole number of quarter turns, and it decides the follow-up maneuver: yaw
      when the rolled target lies on the x axis (offset 0, pi or 2 pi), pitch when it lies on the
      y axis; the sign is negative exactly for offsets pi / 2 and pi. */
  lemma OffsetDecidesFollowUp(phi: real)
    requires 0.0 <= phi < 2.0 * PI
    ensures var p := EfficientRoll(phi);
      exists k: int :: 0 <= k <= 4 && p.offset == QuarterTurns(k)
        && (p.next == Yaw <==> k % 2 == 0)
        && (p.sign == -1 <==> k == 1 || k == 2)
  {
    var p := EfficientRoll(phi);
    if phi <= PI / 4.0 {
      assert p.offset == QuarterTurns(0);
    } else if phi <= 3.0 * PI / 4.0 {
      assert p.offset == QuarterTurns(1);
    } else if phi <= 5.0 * PI / 4.0 {
      assert p.offset == QuarterTurns(2);
    } else if phi <= 7.0 * PI / 4.0 {
      assert p.offset == QuarterTurns(3);
    } else {
      assert p.offset == QuarterTurns(4);
    }
  }

  /** The sector boundary pi / 4 belongs to the first sector. */
  lemma BoundaryFirstSector()
    ensures EfficientRoll(PI / 4.0) == RollPlan(PI / 4.0, 0.0, Yaw, 1)
  {
  }

  /** The sector boundary 3 pi / 4 belongs to the second sector. */
  lemma BoundarySecondSector()
    ensures EfficientRoll(3.0 * PI / 4.0) == RollPlan(PI / 4.0, PI / 2.0, Pitch, -1)
  {
  }

  /** A target on the local +x axis needs no roll and a positive yaw. */
  lemma TargetOnXAxis()
    ensures EfficientRoll(0.0) == RollPlan(0.0, 0.0, Yaw, 1)
  {
  }

  /** Below zero the first sector takes every azimuth and the roll is unbounded, which is why the
      minimum-roll property needs an azimuth in [0, 2 pi). */
  lemma NegativeAzimuthUnbounded()
    ensures EfficientRoll(-PI).roll == -PI
  {
  }
}
