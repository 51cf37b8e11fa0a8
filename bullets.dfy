/** The projectiles of bullets.py: a Bullet counts its lifespan down once per `update`
    and kills itself when the count runs out. The subclasses only change constants.
    The velocities the constructors compute with `cos`/`sin` are not modelled. */
module Bullets {
  import opened Vectors
  import opened Sprites

  /** The constructible bullet classes. */
  datatype BulletKind = PlainBullet | RedLaser | BlueLaser | Saw

  /** The classes a `weapon_type` field holds: the subclasses. */
  type Weapon = k: BulletKind | k != PlainBullet witness RedLaser

  /** The updates `Bullet.update` makes, as a value: the remaining lifespan and whether
      `kill()` has been called. */
  datatype Countdown = Countdown(lifespan: int, killed: bool)

  /** One `update`: the lifespan drops by one and the bullet is killed once it is
      at or below zero. */
  function Tick(c: Countdown): Countdown {
    Countdown(c.lifespan - 1, c.killed || c.lifespan - 1 <= 0)
  }

  /** `n` updates in a row. */
  function Ticks(c: Countdown, n: nat): Countdown
    decreases n
  {
    if n == 0 then c else Tick(Ticks(c, n - 1))
  }

  /** After `n` updates the lifespan is `n` lower, and the bullet has been killed exactly
      when it was already or some update brought the lifespan to zero or below. */
  lemma {:induction false} TicksCountDown(c: Countdown, n: nat)
    ensures Ticks(c, n).lifespan == c.lifespan - n
    ensures Ticks(c, n).killed == (c.killed || (n > 0 && c.lifespan - n <= 0))
    decreases n
  {
    if n > 0 {
      TicksCountDown(c, n - 1);
    }
  }

  /** A fresh bullet survives 199 updates and is killed by its 200th. */
  lemma FreshBulletLivesTwoHundredUpdates(n: nat)
    ensures Ticks(Countdown(200, false), n).killed <==> n >= 200
  {
    TicksCountDown(Countdown(200, false), n);
  }

  /** Why constructing a Bouncy fails. */
  datatype PyError = NameError(name: string) | NotImplementedError

  /** The outcome of `Bouncy(...)`. `filename` is what the free name `filename` at
      bullets.py:58 resolves to in the module's globals (nothing, in the shown file). */
  datatype Construction = Constructed | Raised(error: PyError)

  function ConstructBouncy(filename: Option<string>): (r: Construction)
    ensures r.Raised?
    ensures filename.None? <==> r.error == NameError("filename")
    ensures filename.Some? <==> r.error == NotImplementedError
  {
    if filename.None? then Raised(NameError("filename"))
    else
      // the base constructor would run; then the body raises
      Raised(NotImplementedError)
  }

  class Bullet {
    const sprite: Sprite
    const kind: BulletKind
    const damage: int
    const scale: real
    var lifespan: int
    var maxVelocity: real
    var momentOfInertia: int
    var collisionType: string
    var mass: real

    /** The attributes `update` changes. */
    function Clock(): Countdown
      reads this, sprite
    {
      Countdown(lifespan, sprite.killed)
    }

    /** `Bullet(filename, center_x, center_y, angle, damage, scale)`. */
    constructor (x: real, y: real, angle: real, damage: int, scale: real)
      ensures fresh(sprite) && kind == PlainBullet
      ensures sprite.pos == Vec(x, y) && sprite.angle == angle && !sprite.killed
      ensures this.damage == damage && this.scale == scale
      ensures lifespan == 200 && maxVelocity == 1500.0 && momentOfInertia == 50
      ensures collisionType == "bullet" && mass == 1.0
    {
      var s := new Sprite.At(x, y);
      s.angle := angle;
      sprite, kind, this.damage, this.scale := s, PlainBullet, damage, scale;
      lifespan, maxVelocity, momentOfInertia := 200, 1500.0, 50;
      collisionType, mass := "bullet", 1.0;
    }

    /** `RedLaser`, `BlueLaser` or `Saw` at (x, y) with the given angle: the base
        constructor with damage 1 and the class's scale, then the class's overrides. */
    constructor Of(k: Weapon, x: real, y: real, angle: real)
      ensures fresh(sprite) && kind == k
      ensures sprite.pos == Vec(x, y) && sprite.angle == angle && !sprite.killed
      ensures damage == 1 && lifespan == 200 && momentOfInertia == 50
      ensures scale == (if k == Saw then 0.3 else 0.5)
      ensures maxVelocity == (if k == Saw then 500.0 else 1500.0)
      ensures collisionType == (if k == BlueLaser then "player_bullet" else "bullet")
      ensures mass == (match k case RedLaser => 0.2 case BlueLaser => 0.5 case _ => 5.0)
    {
      var s := new Sprite.At(x, y);
      s.angle := angle;
      sprite, kind, damage := s, k, 1;
      scale := if k == Saw then 0.3 else 0.5;
      lifespan, maxVelocity, momentOfInertia := 200, 1500.0, 50;
      collisionType, mass := "bullet", 1.0;
      if k == RedLaser {
        mass := 0.2;
      } else if k == BlueLaser {
        collisionType := "player_bullet";
        mass := 0.5;
      } else {
        maxVelocity := 500.0;
        mass := 5.0;
      }
    }

    /** `on_collide`: does nothing. */
    method OnCollide()
      ensures unchanged(this, sprite)
    {
    }

    /** `update`: one tick of the countdown. */
    method Update()
      modifies this`lifespan, sprite`killed
      ensures Clock() == Tick(old(Clock()))
    {
      lifespan := lifespan - 1;
      if lifespan <= 0 {
        sprite.Kill();
      }
    }
  }
}
