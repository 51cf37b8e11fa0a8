/** The player's ship of player.py: experience and levels, the wrap from the bottom of the
    screen to the top and back, the rotation controls and firing. The joystick, the physics
    body's damping and the screen constants module are not modelled; the screen height
    `HEIGHT` is a parameter. */
module Players {
  import opened Vectors
  import opened Sprites
  import opened Bullets

  /** The experience counters `gain_exp` changes. */
  datatype Progress = Progress(experience: int, level: int)

  /** `gain_exp(exp)` with threshold `next`: the experience is added, and reaching the
      threshold converts `next` points of it into exactly one level. */
  function Gain(p: Progress, exp: int, next: int): (r: Progress)
    ensures r.level == p.level <==> p.experience + exp < next
    ensures r.level == p.level || r.level == p.level + 1
    // no experience is lost or made: each level gained costs `next` points
    ensures r.experience + next * (r.level - p.level) == p.experience + exp
    ensures p.experience >= 0 && exp >= 0 ==> r.experience >= 0
    ensures 0 <= p.experience < next && 0 <= exp <= next ==> 0 <= r.experience < next
  {
    var e := p.experience + exp;
    if e >= next then Progress(e - next, p.level + 1) else Progress(e, p.level)
  }

  /** A large enough gain still buys one level only: the experience left over stays at or
      above the threshold until the next call. */
  lemma OneLevelPerGain(p: Progress, exp: int, next: int)
    requires next >= 0 && p.experience + exp >= 2 * next
    ensures Gain(p, exp, next).level == p.level + 1
    ensures Gain(p, exp, next).experience >= next
  {
  }

  /** The y coordinate after the wrap of `pymunk_moved`, for a ship of height `h` on a
      screen of height `screenHeight`: two checks in a row, bottom edge first. */
  function WrapY(y: real, h: real, screenHeight: real): (r: real)
    // at most one wrap: a ship moved to the top by the first check is not past the top
    ensures y < -h ==> r == screenHeight + h
    ensures -h <= y && y > screenHeight + h ==> r == -h
    ensures -h <= y <= screenHeight + h ==> r == y
    ensures h >= 0.0 && screenHeight >= 0.0 ==> -h <= r <= screenHeight + h
  {
    var y1 := if y < -h then screenHeight + h else y;
    if y1 > screenHeight + h then -h else y1
  }

  class Player {
    const sprite: Sprite
    const height: real
    var experience: int
    var nextLevelAt: int
    var level: int
    var weapon: Weapon

    function Counters(): Progress
      reads this
    {
      Progress(experience, level)
    }

    /** `Player(player_num, colour, x, y)`, for a ship image of the given height and no
        joystick. */
    constructor (x: real, y: real, height: real)
      ensures fresh(sprite) && sprite.pos == Vec(x, y) && this.height == height
      ensures experience == 0 && nextLevelAt == 100 && level == 1 && weapon == BlueLaser
    {
      sprite := new Sprite.At(x, y);
      this.height := height;
      experience, nextLevelAt, level := 0, 100, 1;
      weapon := BlueLaser;
    }

    method GainExp(exp: int)
      modifies this`experience, this`level
      ensures Counters() == Gain(old(Counters()), exp, nextLevelAt)
    {
      experience := experience + exp;
      if experience >= nextLevelAt {
        level := level + 1;
        experience := experience - nextLevelAt;
      }
    }

    /** The wrap of `pymunk_moved`: only the y coordinate can change. */
    method PymunkMoved(screenHeight: real)
      modifies sprite`pos
      ensures sprite.pos == Vec(old(sprite.pos.x), WrapY(old(sprite.pos.y), height, screenHeight))
    {
      if sprite.pos.y < -height {
        sprite.pos := Vec(sprite.pos.x, screenHeight + height);
      }
      if sprite.pos.y > screenHeight + height {
        sprite.pos := Vec(sprite.pos.x, -height);
      }
    }

    method RotateRight()
      modifies sprite`angularVelocity
      ensures sprite.angularVelocity == old(sprite.angularVelocity) + 0.6
    {
      sprite.angularVelocity := sprite.angularVelocity + 0.6;
    }

    method RotateLeft()
      modifies sprite`angularVelocity
      ensures sprite.angularVelocity == old(sprite.angularVelocity) - 0.6
    {
      sprite.angularVelocity := sprite.angularVelocity - 0.6;
    }

    /** `fire`: one bullet of the weapon's class at the ship's position, turned a quarter
        turn from the ship's angle. */
    method Fire() returns (bullets: seq<Bullet>)
      ensures |bullets| == 1 && fresh(bullets[0]) && fresh(bullets[0].sprite)
      ensures bullets[0].kind == weapon && bullets[0].lifespan == 200
      ensures bullets[0].sprite.pos == sprite.pos && bullets[0].sprite.angle == sprite.angle + 90.0
    {
      var bullet := new Bullet.Of(weapon, sprite.pos.x, sprite.pos.y, sprite.angle + 90.0);
      bullets := [bullet];
    }
  }
}
