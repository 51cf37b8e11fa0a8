/** The collision handlers of hit_handlers.py. The physics arbiter, space and data
    arguments are not used by the handlers and are left out. */
module HitHandlers {
  import opened Sprites
  import opened Bullets

  /** The counters a hit changes on an enemy, read as a countdown: its health. */
  function Wounds(enemy: Sprite): Countdown
    reads enemy
  {
    Countdown(enemy.health, enemy.killed)
  }

  /** `enemy_hit_handler`: the enemy loses one health point whatever the bullet's
      `damage`, the bullet is killed, and the enemy is killed once its health is at or
      below zero. The enemy's health counts down like a bullet's lifespan. */
  method EnemyHit(enemy: Sprite, bullet: Bullet)
    requires enemy != bullet.sprite
    modifies enemy`health, enemy`killed, bullet.sprite`killed
    ensures Wounds(enemy) == Tick(old(Wounds(enemy)))
    ensures bullet.sprite.killed
  {
    enemy.health := enemy.health - 1;
    bullet.sprite.Kill();
    if enemy.health <= 0 {
      enemy.Kill();
    }
  }

  /** A Fighter built with the default health of 20 survives 19 hits and is killed by
      the 20th. */
  lemma DefaultFighterTakesTwentyHits(n: nat)
    ensures Ticks(Countdown(20, false), n).killed <==> n >= 20
  {
    TicksCountDown(Countdown(20, false), n);
  }

  /** `kill_bullet`: a bullet that meets a rock is killed; the rock is not touched. */
  method KillBullet(rock: Sprite, bullet: Bullet)
    modifies bullet.sprite`killed
    ensures bullet.sprite.killed
  {
    bullet.sprite.Kill();
  }

  /** `no_collision`: does nothing. */
  method NoCollision(a: Sprite, b: Sprite)
    ensures unchanged(a, b)
  {
  }
}
