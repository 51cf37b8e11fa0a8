/** The enemy ship of fighter.py: its own copies of the seek and flee steering behaviours,
    a weapon with a cooldown counter, and the summation of the pending forces that the
    physics callback applies. The physics body is the sprite's velocity and angular
    velocity; registering with and pushing the physics engine is not modelled. */
module Fighters {
  import opened Vectors
  import opened Sprites
  import opened Steering
  import opened Bullets

  class Fighter {
    const sprite: Sprite
    var weaponCooldown: int
    var weapon: Weapon
    var target: Vec

    /** `Fighter(x, y, health)`. */
    constructor (x: real, y: real, health: int := 20)
      ensures fresh(sprite)
      ensures sprite.View() == Attrs(Vec(x, y), Zero, 0.0, 0.0, health, health, 500.0, 50.0, [], false)
      ensures weaponCooldown == 0 && weapon == RedLaser && target == Zero
    {
      var s := new Sprite.At(x, y);
      s.maxSpeed, s.maxForce := 500.0, 50.0;
      s.health, s.maxHealth := health, health;
      sprite := s;
      weaponCooldown, weapon, target := 0, RedLaser, Zero;
    }

    /** `seek(target, arrive)`: appends one steering force towards `target`. */
    method Seek(ops: Vec2Ops, target: Vec, arrive: bool := true)
      modifies sprite`forces
      ensures sprite.forces == old(sprite.forces) +
        [SeekForce(ops, sprite.pos, target, sprite.vel, arrive, sprite.maxSpeed, sprite.maxForce)]
    {
      var force := Sub(target, sprite.pos);
      var desiredSpeed := if arrive && Within(target, sprite.pos, SlowRadius) then -sprite.maxSpeed else sprite.maxSpeed;
      force := ops.fromMagnitude(force, desiredSpeed);
      force := Sub(force, sprite.vel);
      force := ops.limit(force, sprite.maxForce);
      sprite.forces := sprite.forces + [force];
    }

    /** `flee(target, _range)`: beyond the range nothing happens; otherwise one steering
        force directly away from `target` is appended. */
    method Flee(ops: Vec2Ops, target: Vec, range: int := 200)
      modifies sprite`forces
      ensures Beyond(sprite.pos, target, range as real) ==> sprite.forces == old(sprite.forces)
      ensures !Beyond(sprite.pos, target, range as real) ==>
        sprite.forces == old(sprite.forces) + [FleeForce(ops, sprite.pos, target, sprite.vel, sprite.maxSpeed, sprite.maxForce)]
    {
      if Beyond(sprite.pos, target, range as real) {
        return;
      }
      var force := Neg(Sub(target, sprite.pos));
      force := ops.fromMagnitude(force, sprite.maxSpeed);
      force := Sub(force, sprite.vel);
      force := ops.limit(force, sprite.maxForce);
      sprite.forces := sprite.forces + [force];
    }

    /** `fire`: one bullet of the weapon's class at the ship's position and angle; the
        cooldown restarts. */
    method Fire() returns (bullets: seq<Bullet>)
      modifies this`weaponCooldown
      ensures |bullets| == 1 && fresh(bullets[0]) && fresh(bullets[0].sprite)
      ensures bullets[0].kind == weapon && bullets[0].lifespan == 200
      ensures bullets[0].sprite.pos == sprite.pos && bullets[0].sprite.angle == sprite.angle
      ensures weaponCooldown == 0
    {
      var bullet := new Bullet.Of(weapon, sprite.pos.x, sprite.pos.y, sprite.angle);
      bullets := [bullet];
      weaponCooldown := 0;
    }

    /** `update`: one more tick since the last shot. */
    method Update()
      modifies this`weaponCooldown
      ensures weaponCooldown == old(weaponCooldown) + 1
    {
      weaponCooldown := weaponCooldown + 1;
    }

    method RotateRight()
      modifies sprite`angularVelocity
      ensures sprite.angularVelocity == old(sprite.angularVelocity) + 3.0
    {
      sprite.angularVelocity := sprite.angularVelocity + 3.0;
    }

    method RotateLeft()
      modifies sprite`angularVelocity
      ensures sprite.angularVelocity == old(sprite.angularVelocity) - 3.0
    {
      sprite.angularVelocity := sprite.angularVelocity - 3.0;
    }

    /** The loop of `pymunk_moved` that adds up the pending forces, front to back. */
    method NetForce() returns (net: Vec)
      ensures net == Sum(sprite.forces)
    {
      net := Zero;
      var fs := sprite.forces;
      for i := 0 to |fs|
        invariant net == Sum(fs[..i])
      {
        assert fs[..i + 1][..i] == fs[..i];
        net := Add(net, fs[i]);
      }
      assert fs[..|fs|] == fs;
    }

    /** The force `pymunk_moved` applies, as written: `net.limit(max_force)` is discarded,
        so the whole sum is applied. The pending forces are kept. */
    method PymunkMovedAsWritten() returns (applied: Vec)
      ensures applied == Sum(sprite.forces)
    {
      applied := NetForce();
    }

    /** The force `pymunk_moved` applies once the result of `limit` is kept: the sum of the
        pending forces, bounded by `max_force`. The pending forces are kept. */
    method PymunkMoved(ops: Vec2Ops) returns (applied: Vec)
      ensures applied == ops.limit(Sum(sprite.forces), sprite.maxForce)
      ensures Lawful(ops) && sprite.maxForce >= 0.0 ==> SqMag(applied) <= sprite.maxForce * sprite.maxForce
      ensures Lawful(ops) && sprite.maxForce >= 0.0 && SqMag(Sum(sprite.forces)) <= sprite.maxForce * sprite.maxForce ==>
        applied == Sum(sprite.forces)
    {
      var net := NetForce();
      applied := ops.limit(net, sprite.maxForce);
    }
  }

  /** Even forces that each respect `max_force` add up beyond it: two pending forces equal
      to a force of length exactly `max_force` make an applied force of twice that length
      when the limit is discarded. */
  lemma NetForceAsWrittenExceedsMaxForce(f: Vec, maxForce: real)
    requires maxForce > 0.0 && SqMag(f) == maxForce * maxForce
    ensures Sum([f, f]) == Vec(2.0 * f.x, 2.0 * f.y)
    ensures SqMag(Sum([f, f])) == 4.0 * (maxForce * maxForce) > maxForce * maxForce
  {
    assert [f, f][..1] == [f];
    assert [f][..0] == [];
    assert Sum([f]) == f;
    PositiveProduct(maxForce, maxForce);
  }
}
