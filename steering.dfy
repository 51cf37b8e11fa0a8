/** The steering-force computation shared by the `Seek`/`Flee` activities (activities.py)
    and the `seek`/`flee` methods of `Fighter` (fighter.py). Both compute a desired velocity
    of length `max_speed`, subtract the current velocity and call `limit(max_force)`.

    Vec2's `limit` returns a new vector; the source calls it as a statement and keeps the
    unlimited force. The `...AsWritten` functions model that code; the functions without the
    suffix apply the limit, which is what the comments and the `max_force` field intend,
    and are the ones the rest of the model uses. */
module Steering {
  import opened Vectors

  /** `slow_radius` of `seek`. */
  const SlowRadius: real := 400.0

  /** The desired speed of `seek`: negated when arriving inside the slow radius. */
  function SeekSpeed(pos: Vec, target: Vec, arrive: bool, maxSpeed: real): real {
    if arrive && Within(target, pos, SlowRadius) then -maxSpeed else maxSpeed
  }

  /** The velocity `seek` would like to have. */
  function SeekDesired(ops: Vec2Ops, pos: Vec, target: Vec, arrive: bool, maxSpeed: real): Vec {
    ops.fromMagnitude(Sub(target, pos), SeekSpeed(pos, target, arrive, maxSpeed))
  }

  /** The velocity `flee` would like to have: directly away from the target. */
  function FleeDesired(ops: Vec2Ops, pos: Vec, target: Vec, maxSpeed: real): Vec {
    ops.fromMagnitude(Neg(Sub(target, pos)), maxSpeed)
  }

  /** The force `seek` appends, as written: the discarded `limit` leaves it unbounded. */
  function SeekForceAsWritten(ops: Vec2Ops, pos: Vec, target: Vec, vel: Vec, arrive: bool, maxSpeed: real): Vec {
    Sub(SeekDesired(ops, pos, target, arrive, maxSpeed), vel)
  }

  /** The force `flee` appends, as written. */
  function FleeForceAsWritten(ops: Vec2Ops, pos: Vec, target: Vec, vel: Vec, maxSpeed: real): Vec {
    Sub(FleeDesired(ops, pos, target, maxSpeed), vel)
  }

  /** The force `seek` appends once the result of `limit` is kept. */
  function SeekForce(ops: Vec2Ops, pos: Vec, target: Vec, vel: Vec, arrive: bool, maxSpeed: real, maxForce: real): Vec {
    ops.limit(SeekForceAsWritten(ops, pos, target, vel, arrive, maxSpeed), maxForce)
  }

  /** The force `flee` appends once the result of `limit` is kept. */
  function FleeForce(ops: Vec2Ops, pos: Vec, target: Vec, vel: Vec, maxSpeed: real, maxForce: real): Vec {
    ops.limit(FleeForceAsWritten(ops, pos, target, vel, maxSpeed), maxForce)
  }

  /** `seek` reverses its desired speed exactly when arriving within 400 units of the
      target (`dist` is the Euclidean distance); elsewhere it asks for full speed. */
  lemma SeekSpeedInsideSlowRadius(pos: Vec, target: Vec, arrive: bool, maxSpeed: real, dist: real)
    requires dist >= 0.0 && dist * dist == SqDist(target, pos)
    ensures SeekSpeed(pos, target, arrive, maxSpeed) == (if arrive && dist < 400.0 then -maxSpeed else maxSpeed)
  {
    SquaresOrderLikeDistances(dist, SlowRadius);
  }

  /** With a positive desired speed, a lawful `from_magnitude` points along `v`. */
  lemma AlongWhenPositive(ops: Vec2Ops, v: Vec, m: real)
    requires Lawful(ops) && v != Zero && m > 0.0
    ensures SqMag(ops.fromMagnitude(v, m)) == m * m
    ensures Cross(v, ops.fromMagnitude(v, m)) == 0.0 && Dot(v, ops.fromMagnitude(v, m)) >= 0.0
  {
    var r := ops.fromMagnitude(v, m);
    assert FromMagnitudeLaw(v, m, r);
    if Dot(v, r) < 0.0 {
      NegativeTimesPositive(Dot(v, r), m);
    }
  }

  /** With a negative desired speed, a lawful `from_magnitude` points against `v`. */
  lemma AgainstWhenNegative(ops: Vec2Ops, v: Vec, m: real)
    requires Lawful(ops) && v != Zero && m < 0.0
    ensures SqMag(ops.fromMagnitude(v, m)) == m * m
    ensures Cross(v, ops.fromMagnitude(v, m)) == 0.0 && Dot(v, ops.fromMagnitude(v, m)) <= 0.0
  {
    var r := ops.fromMagnitude(v, m);
    assert FromMagnitudeLaw(v, m, r);
    if Dot(v, r) > 0.0 {
      NegativeTimesPositive(m, Dot(v, r));
    }
  }

  lemma DistinctPointsApart(a: Vec, b: Vec)
    requires a != b
    ensures Sub(a, b) != Zero && Neg(Sub(a, b)) != Zero
  {
    if a.x == b.x {
      assert a.y != b.y;
    }
  }

  lemma MagnitudeOf(ops: Vec2Ops, v: Vec, m: real)
    requires Lawful(ops) && v != Zero
    ensures SqMag(ops.fromMagnitude(v, m)) == m * m
  {
    assert FromMagnitudeLaw(v, m, ops.fromMagnitude(v, m));
  }

  lemma NegativeTimesPositive(a: real, b: real)
    requires a < 0.0 && b > 0.0
    ensures a * b < 0.0
  {
    PositiveProduct(-a, b);
  }

  /** For an agent away from its target and a positive `max_speed`, `seek`'s desired
      velocity has length `max_speed` and points at the target, except when arriving
      inside the slow radius, where it points away from it. */
  lemma SeekDesiredDirection(ops: Vec2Ops, pos: Vec, target: Vec, arrive: bool, maxSpeed: real)
    requires Lawful(ops) && pos != target && maxSpeed > 0.0
    ensures var d := SeekDesired(ops, pos, target, arrive, maxSpeed);
      && SqMag(d) == maxSpeed * maxSpeed && Cross(Sub(target, pos), d) == 0.0
      && (arrive && Within(target, pos, SlowRadius) ==> Dot(Sub(target, pos), d) <= 0.0)
      && (!(arrive && Within(target, pos, SlowRadius)) ==> Dot(Sub(target, pos), d) >= 0.0)
  {
    var w := Sub(target, pos);
    DistinctPointsApart(target, pos);
    if arrive && Within(target, pos, SlowRadius) {
      AgainstWhenNegative(ops, w, -maxSpeed);
    } else {
      AlongWhenPositive(ops, w, maxSpeed);
    }
  }

  /** `flee`'s desired velocity has length `max_speed` and points directly away from
      the target: it lies on the line to the target, on the far side. */
  lemma FleeDesiredDirection(ops: Vec2Ops, pos: Vec, target: Vec, maxSpeed: real)
    requires Lawful(ops) && pos != target && maxSpeed > 0.0
    ensures var d := FleeDesired(ops, pos, target, maxSpeed);
      && SqMag(d) == maxSpeed * maxSpeed
      && Cross(Sub(target, pos), d) == 0.0 && Dot(Sub(target, pos), d) <= 0.0
  {
    var w := Sub(target, pos);
    DistinctPointsApart(target, pos);
    AlongWhenPositive(ops, Neg(w), maxSpeed);
    var d := FleeDesired(ops, pos, target, maxSpeed);
    assert Cross(w, d) == -Cross(Neg(w), d);
    assert Dot(w, d) == -Dot(Neg(w), d);
  }

  /** The force that `seek` appends, once limited, is no longer than `max_force`, and a
      change of velocity already within the bound is kept as it is. */
  lemma SeekForceBounded(ops: Vec2Ops, pos: Vec, target: Vec, vel: Vec, arrive: bool, maxSpeed: real, maxForce: real)
    requires Lawful(ops) && maxForce >= 0.0
    ensures SqMag(SeekForce(ops, pos, target, vel, arrive, maxSpeed, maxForce)) <= maxForce * maxForce
    ensures SqMag(SeekForceAsWritten(ops, pos, target, vel, arrive, maxSpeed)) <= maxForce * maxForce ==>
              SeekForce(ops, pos, target, vel, arrive, maxSpeed, maxForce) == SeekForceAsWritten(ops, pos, target, vel, arrive, maxSpeed)
  {
    assert LimitLaw(SeekForceAsWritten(ops, pos, target, vel, arrive, maxSpeed), maxForce,
                    SeekForce(ops, pos, target, vel, arrive, maxSpeed, maxForce));
  }

  /** The force that `flee` appends, once limited, is no longer than `max_force`, and a
      change of velocity already within the bound is kept as it is. */
  lemma FleeForceBounded(ops: Vec2Ops, pos: Vec, target: Vec, vel: Vec, maxSpeed: real, maxForce: real)
    requires Lawful(ops) && maxForce >= 0.0
    ensures SqMag(FleeForce(ops, pos, target, vel, maxSpeed, maxForce)) <= maxForce * maxForce
    ensures SqMag(FleeForceAsWritten(ops, pos, target, vel, maxSpeed)) <= maxForce * maxForce ==>
              FleeForce(ops, pos, target, vel, maxSpeed, maxForce) == FleeForceAsWritten(ops, pos, target, vel, maxSpeed)
  {
    assert LimitLaw(FleeForceAsWritten(ops, pos, target, vel, maxSpeed), maxForce,
                    FleeForce(ops, pos, target, vel, maxSpeed, maxForce));
  }

  /** As written, `seek` appends a force as long as `max_speed` whenever the agent is at
      rest away from its target and outside the slow radius, so for any `max_force` below
      `max_speed` the bound is broken: with a new Fighter's 500 and 50, an agent at rest at
      the origin seeking (1000, 0) appends a force of length 500. */
  lemma SeekForceAsWrittenExceedsMaxForce(ops: Vec2Ops, pos: Vec, target: Vec, arrive: bool, maxSpeed: real, maxForce: real)
    requires Lawful(ops) && pos != target && !(arrive && Within(target, pos, SlowRadius))
    requires 0.0 <= maxForce < maxSpeed
    ensures SqMag(SeekForceAsWritten(ops, pos, target, Zero, arrive, maxSpeed)) == maxSpeed * maxSpeed
    ensures SqMag(SeekForceAsWritten(ops, pos, target, Zero, arrive, maxSpeed)) > maxForce * maxForce
  {
    DistinctPointsApart(target, pos);
    var d := SeekDesired(ops, pos, target, arrive, maxSpeed);
    MagnitudeOf(ops, Sub(target, pos), maxSpeed);
    assert Sub(d, Zero) == d;
    SquaresOrderLikeDistances(maxForce, maxSpeed);
  }

  /** As written, `flee` does the same: an agent at rest within range of a target it is
      not on top of appends a force as long as `max_speed`. */
  lemma FleeForceAsWrittenExceedsMaxForce(ops: Vec2Ops, pos: Vec, target: Vec, maxSpeed: real, maxForce: real)
    requires Lawful(ops) && pos != target
    requires 0.0 <= maxForce < maxSpeed
    ensures SqMag(FleeForceAsWritten(ops, pos, target, Zero, maxSpeed)) == maxSpeed * maxSpeed
    ensures SqMag(FleeForceAsWritten(ops, pos, target, Zero, maxSpeed)) > maxForce * maxForce
  {
    DistinctPointsApart(target, pos);
    var d := FleeDesired(ops, pos, target, maxSpeed);
    MagnitudeOf(ops, Neg(Sub(target, pos)), maxSpeed);
    assert Sub(d, Zero) == d;
    SquaresOrderLikeDistances(maxForce, maxSpeed);
  }
}
