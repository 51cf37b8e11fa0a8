/** The arcade sprites (with their pymunk bodies) that the game objects are built on.
    Python subclasses of `arcade.Sprite` are modelled by composition: a Fighter, a Player,
    a Bee and a Bullet each hold one Sprite. The Sprite carries every attribute the
    behaviour engine and the gameplay code read or write on a sprite; a plain sprite
    (a rock, a point to steer to) leaves the game attributes at zero. */
module Sprites {
  import opened Vectors

  /** Python's `None` or a value. */
  datatype Option<T> = None | Some(value: T)

  /** Every mutable attribute of a sprite, as one value. */
  datatype Attrs = Attrs(
    pos: Vec,              // center_x, center_y (the physics body's position)
    vel: Vec,              // physics_body.velocity
    angle: real,
    angularVelocity: real,
    health: int,
    maxHealth: int,
    maxSpeed: real,
    maxForce: real,
    forces: seq<Vec>,      // pending steering forces, appended to by activities
    killed: bool)          // kill() has been called

  class Sprite {
    var pos: Vec
    var vel: Vec
    var angle: real
    var angularVelocity: real
    var health: int
    var maxHealth: int
    var maxSpeed: real
    var maxForce: real
    var forces: seq<Vec>
    var killed: bool

    /** `arcade.Sprite(center_x=x, center_y=y)`. */
    constructor At(x: real, y: real)
      ensures View() == Attrs(Vec(x, y), Zero, 0.0, 0.0, 0, 0, 0.0, 0.0, [], false)
    {
      pos, vel, angle, angularVelocity := Vec(x, y), Zero, 0.0, 0.0;
      health, maxHealth, maxSpeed, maxForce := 0, 0, 0.0, 0.0;
      forces, killed := [], false;
    }

    function View(): Attrs
      reads this
    {
      Attrs(pos, vel, angle, angularVelocity, health, maxHealth, maxSpeed, maxForce, forces, killed)
    }

    /** Overwrite every attribute; used for the effects of code outside this model. */
    method Set(v: Attrs)
      modifies this
      ensures View() == v
    {
      pos, vel, angle, angularVelocity := v.pos, v.vel, v.angle, v.angularVelocity;
      health, maxHealth, maxSpeed, maxForce := v.health, v.maxHealth, v.maxSpeed, v.maxForce;
      forces, killed := v.forces, v.killed;
    }

    /** `Sprite.kill()`: removal from every sprite list is modelled as a flag. */
    method Kill()
      modifies this`killed
      ensures killed
    {
      killed := true;
    }
  }

  /** An `arcade.SpriteList`: a shared, mutable, ordered list of sprites. */
  class SpriteList {
    var sprites: seq<Sprite>

    constructor ()
      ensures sprites == []
    {
      sprites := [];
    }

    method Append(s: Sprite)
      modifies this`sprites
      ensures sprites == old(sprites) + [s]
    {
      sprites := sprites + [s];
    }
  }

  /** A handle on the pymunk physics engine; physics is not part of this model. */
  class PhysicsEngine {
    constructor () { }
  }
}
