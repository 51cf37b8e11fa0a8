/** The swarm of swarm_of_bees.py: `size` bees spawned around a point, each with a
    BeeStateMachine that is awakened at once, then wired to every other bee of the swarm
    and added to the scene's enemies. The random spawn offsets are a parameter; registering
    the bees with the physics engine is not modelled. `Enemy`, the class a Bee extends, is
    not part of this model: a Bee is built on a plain sprite at its spawn point. */
module Swarms {
  import opened Vectors
  import opened Sprites
  import opened Activities
  import opened Engine

  /** The bees of `bs` other than `b`, in swarm order: what the wiring loop appends to
      `b.other_bees`. */
  function Others(bs: seq<Bee>, b: Bee): seq<Bee>
    decreases |bs|
  {
    if |bs| == 0 then []
    else if bs[|bs| - 1] == b then Others(bs[..|bs| - 1], b)
    else Others(bs[..|bs| - 1], b) + [bs[|bs| - 1]]
  }

  /** The others of `b` are exactly the bees of the list that are not `b`. */
  lemma {:induction false} OthersMembers(bs: seq<Bee>, b: Bee)
    ensures forall c | c in Others(bs, b) :: c in bs && c != b
    ensures forall c | c in bs && c != b :: c in Others(bs, b)
    decreases |bs|
  {
    if |bs| > 0 {
      var n := |bs| - 1;
      OthersMembers(bs[..n], b);
      assert bs == bs[..n] + [bs[n]];
    }
  }

  predicate Distinct(bs: seq<Bee>) {
    forall j, k | 0 <= j < k < |bs| :: bs[j] != bs[k]
  }

  /** In a swarm of distinct bees, the others of the bee at `i` are the swarm with that
      one bee cut out: every other bee once, in order, and never the bee itself. */
  lemma {:induction false} OthersCutsOne(bs: seq<Bee>, i: nat)
    requires Distinct(bs) && i < |bs|
    ensures Others(bs, bs[i]) == bs[..i] + bs[i + 1..]
    decreases |bs|
  {
    var n := |bs| - 1;
    var init := bs[..n];
    assert Distinct(init);
    if i == n {
      assert Others(init, bs[i]) == init by {
        OthersOfAbsent(init, bs[i]);
      }
      assert bs[i + 1..] == [];
    } else {
      OthersCutsOne(init, i);
      assert init[..i] == bs[..i];
      assert init[i + 1..] + [bs[n]] == bs[i + 1..];
    }
  }

  /** A bee not in the list keeps the whole list as its others. */
  lemma {:induction false} OthersOfAbsent(bs: seq<Bee>, b: Bee)
    requires b !in bs
    ensures Others(bs, b) == bs
    decreases |bs|
  {
    if |bs| > 0 {
      var n := |bs| - 1;
      OthersOfAbsent(bs[..n], b);
      assert bs[..n] + [bs[n]] == bs;
    }
  }

  /** The sprites of the bees, in swarm order. */
  function SpritesOf(bs: seq<Bee>): (r: seq<Sprite>)
    ensures |r| == |bs| && forall i | 0 <= i < |bs| :: r[i] == bs[i].sprite
  {
    seq(|bs|, i requires 0 <= i < |bs| => bs[i].sprite)
  }

  /** What a bee looks like right after spawning at (x + dx, y + dy). */
  function Spawned(x: real, y: real, offset: (int, int)): Attrs {
    Attrs(Vec(x + offset.0 as real, y + offset.1 as real), Zero, 0.0, 0.0, 0, 0, 0.0, 0.0, [], false)
  }

  /** The bee has its BeeStateMachine, chasing `player`, which has been awakened once:
      its WaitForPull state has been entered and nothing else has happened to it. */
  ghost predicate Awakened(b: Bee, player: Sprite, physicsEngine: PhysicsEngine)
    reads b`machine, b.machine, if b.machine == null then {} else b.machine.states
  {
    && b.machine != null && b.machine.sprite == b.sprite
    && b.machine.role == Bee(player, physicsEngine)
    && b.machine.Valid() && b.machine.state.kind == WaitForPull && b.machine.state.target == player
    && b.machine.trace == [Entered(b.machine.state)]
  }

  /** The bee has been awakened and has the attributes the WaitForPull state's `enter`
      gave the sprite it spawned with. */
  ghost predicate Settled(b: Bee, player: Sprite, physicsEngine: PhysicsEngine, spawn: Attrs, env: Env)
    reads b`machine, b.sprite, b.machine, if b.machine == null then {} else b.machine.states
  {
    Awakened(b, player, physicsEngine) && b.sprite.View() == env.pull(OnEnter, spawn)
  }

  /** A bee just out of the spawn loop: settled, and with no peers yet. */
  ghost predicate Ready(b: Bee, player: Sprite, physicsEngine: PhysicsEngine, spawn: Attrs, env: Env)
    reads b`machine, b`otherBees, b.sprite, b.machine, if b.machine == null then {} else b.machine.states
  {
    Settled(b, player, physicsEngine, spawn, env) && b.otherBees == []
  }

  class Bee {
    const sprite: Sprite
    const swarm: Swarm
    var otherBees: seq<Bee>
    var machine: StateMachine?   // set by the swarm right after construction

    /** `Bee(x, y, level, swarm)`. */
    constructor (x: real, y: real, swarm: Swarm)
      ensures fresh(sprite) && sprite.View() == Attrs(Vec(x, y), Zero, 0.0, 0.0, 0, 0, 0.0, 0.0, [], false)
      ensures this.swarm == swarm && otherBees == [] && machine == null
    {
      sprite := new Sprite.At(x, y);
      this.swarm := swarm;
      otherBees, machine := [], null;
    }

    method Kill()
      modifies sprite`killed
      ensures sprite.killed
    {
      sprite.Kill();
    }

    method RotateRight()
      modifies sprite`angularVelocity
      ensures sprite.angularVelocity == old(sprite.angularVelocity) + 3.0
    {
      sprite.angularVelocity := sprite.angularVelocity + 3.0;
    }

    method RotateLeft()
      modifies sprite`angularVelocity
      ensures sprite.angularVelocity == old(sprite.angularVelocity) - 3.0
    {
      sprite.angularVelocity := sprite.angularVelocity - 3.0;
    }

    /** The inner wiring loop: append every bee of `bs` that is not this one. */
    method AddOthers(bs: seq<Bee>)
      modifies this`otherBees
      ensures otherBees == old(otherBees) + Others(bs, this)
    {
      for k := 0 to |bs|
        invariant otherBees == old(otherBees) + Others(bs[..k], this)
      {
        assert bs[..k + 1][..k] == bs[..k];
        if bs[k] != this {
          otherBees := otherBees + [bs[k]];
        }
      }
      assert bs[..|bs|] == bs;
    }
  }

  /** The nested loop of the swarm constructor: each bee gets every other bee of the swarm. */
  method WireBees(bs: seq<Bee>, ghost player: Sprite, ghost physicsEngine: PhysicsEngine, ghost x: real, ghost y: real,
                  ghost offsets: seq<(int, int)>, ghost env: Env)
    requires Distinct(bs) && |offsets| == |bs|
    requires forall i | 0 <= i < |bs| :: Ready(bs[i], player, physicsEngine, Spawned(x, y, offsets[i]), env)
    modifies bs`otherBees
    ensures forall i | 0 <= i < |bs| :: bs[i].otherBees == Others(bs, bs[i])
    ensures forall i | 0 <= i < |bs| :: Settled(bs[i], player, physicsEngine, Spawned(x, y, offsets[i]), env)
  {
    for i := 0 to |bs|
      invariant forall j | 0 <= j < i :: bs[j].otherBees == Others(bs, bs[j])
      invariant forall j | i <= j < |bs| :: bs[j].otherBees == []
      invariant forall j | 0 <= j < |bs| :: Settled(bs[j], player, physicsEngine, Spawned(x, y, offsets[j]), env)
    {
      WireOne(bs, i, player, physicsEngine, x, y, offsets, env);
    }
  }

  /** One iteration of `WireBees`: bee `i` gets the others. */
  method WireOne(bs: seq<Bee>, i: nat, ghost player: Sprite, ghost physicsEngine: PhysicsEngine, ghost x: real, ghost y: real,
                 ghost offsets: seq<(int, int)>, ghost env: Env)
    requires Distinct(bs) && |offsets| == |bs| && i < |bs|
    requires forall j | 0 <= j < i :: bs[j].otherBees == Others(bs, bs[j])
    requires forall j | i <= j < |bs| :: bs[j].otherBees == []
    requires forall j | 0 <= j < |bs| :: Settled(bs[j], player, physicsEngine, Spawned(x, y, offsets[j]), env)
    modifies bs`otherBees
    ensures forall j | 0 <= j <= i :: bs[j].otherBees == Others(bs, bs[j])
    ensures forall j | i < j < |bs| :: bs[j].otherBees == []
    ensures forall j | 0 <= j < |bs| :: Settled(bs[j], player, physicsEngine, Spawned(x, y, offsets[j]), env)
  {
    bs[i].AddOthers(bs);
  }

  /** `for bee in self.bees: scene['enemies'].append(bee)`. */
  method AddToScene(bs: seq<Bee>, enemies: SpriteList, ghost player: Sprite, ghost physicsEngine: PhysicsEngine,
                    ghost x: real, ghost y: real, ghost offsets: seq<(int, int)>, ghost env: Env)
    requires |offsets| == |bs|
    requires forall i | 0 <= i < |bs| :: Settled(bs[i], player, physicsEngine, Spawned(x, y, offsets[i]), env)
    modifies enemies`sprites
    ensures enemies.sprites == old(enemies.sprites) + SpritesOf(bs)
    ensures forall i | 0 <= i < |bs| :: Settled(bs[i], player, physicsEngine, Spawned(x, y, offsets[i]), env)
  {
    for i := 0 to |bs|
      invariant enemies.sprites == old(enemies.sprites) + SpritesOf(bs[..i])
    {
      enemies.Append(bs[i].sprite);
      assert SpritesOf(bs[..i + 1]) == SpritesOf(bs[..i]) + [bs[i].sprite];
    }
    assert bs[..|bs|] == bs;
  }

  class Swarm {
    var bees: seq<Bee>

    /** `Swarm(x, y, level, size, physics_engine, player, scene)`, where `offsets[i]` are
        the two `randint(-50, 50)` draws for bee `i` and `enemies` is `scene['enemies']`. */
    constructor (x: real, y: real, size: int, physicsEngine: PhysicsEngine, player: Sprite,
                 enemies: SpriteList, offsets: seq<(int, int)>, env: Env)
      requires |offsets| == if size < 0 then 0 else size
      requires forall i | 0 <= i < |offsets| :: -50 <= offsets[i].0 <= 50 && -50 <= offsets[i].1 <= 50
      modifies enemies`sprites
      ensures |bees| == |offsets| && Distinct(bees)
      ensures forall i | 0 <= i < |bees| :: fresh(bees[i]) && bees[i].swarm == this
      ensures forall i | 0 <= i < |bees| :: bees[i].otherBees == Others(bees, bees[i])
      ensures forall i | 0 <= i < |bees| :: Settled(bees[i], player, physicsEngine, Spawned(x, y, offsets[i]), env)
      ensures enemies.sprites == old(enemies.sprites) + SpritesOf(bees)
    {
      bees := [];
      new;
      var bs := SpawnBees(x, y, physicsEngine, player, offsets, env);
      bees := bs;
      WireBees(bs, player, physicsEngine, x, y, offsets, env);
      AddToScene(bs, enemies, player, physicsEngine, x, y, offsets, env);
    }

    /** The first loop of the constructor: spawn and wake one bee per offset pair, in order. */
    method SpawnBees(x: real, y: real, physicsEngine: PhysicsEngine, player: Sprite, offsets: seq<(int, int)>, env: Env)
      returns (bs: seq<Bee>)
      ensures |bs| == |offsets| && Distinct(bs)
      ensures forall i | 0 <= i < |bs| :: fresh(bs[i]) && bs[i].swarm == this
      ensures forall i | 0 <= i < |bs| :: Ready(bs[i], player, physicsEngine, Spawned(x, y, offsets[i]), env)
    {
      bs := [];
      for i := 0 to |offsets|
        invariant |bs| == i && Distinct(bs)
        invariant forall j | 0 <= j < i :: fresh(bs[j]) && bs[j].swarm == this
        invariant forall j | 0 <= j < i :: Ready(bs[j], player, physicsEngine, Spawned(x, y, offsets[j]), env)
      {
        var bee := SpawnBee(x, y, physicsEngine, player, offsets[i], env);
        bs := bs + [bee];
      }
    }

    /** One iteration of the first loop: a bee at its spawn point, given a BeeStateMachine
        that is awakened at once. */
    method SpawnBee(x: real, y: real, physicsEngine: PhysicsEngine, player: Sprite, offset: (int, int), env: Env)
      returns (bee: Bee)
      ensures fresh(bee) && bee.swarm == this
      ensures Ready(bee, player, physicsEngine, Spawned(x, y, offset), env)
    {
      bee := new Bee(x + offset.0 as real, y + offset.1 as real, this);
      var m := new StateMachine.ForBee(bee.sprite, physicsEngine, player);
      bee.machine := m;
      m.Awake(env);
    }

    /** `kill`: every bee of the swarm is killed. */
    method Kill()
      modifies (set b | b in bees :: b.sprite)`killed
      ensures forall b | b in bees :: b.sprite.View() == old(b.sprite.View()).(killed := true)
    {
      for i := 0 to |bees|
        invariant forall j | 0 <= j < i :: bees[j].sprite.killed
        invariant forall b | b in bees :: b.sprite.View() == old(b.sprite.View()).(killed := b.sprite.killed)
      {
        bees[i].Kill();
      }
    }
  }
}
