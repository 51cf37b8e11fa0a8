/** activities.py: the things a state does every tick. An activity is a value; executing
    it changes only the agent's sprite. The activities whose classes are not shown
    (HealActivity, AvoidObstaclesActivity, PointInDirectionOfTravelActivity) are opaque:
    their effects on the sprite are inputs of the model, gathered in an `Env`. */
module Activities {
  import opened Vectors
  import opened Sprites
  import opened Decisions
  import opened Steering

  /** The three entry points an activity (or a state) offers. */
  datatype Hook = OnEnter | OnExecute | OnExit

  datatype Activity =
    | BaseActivity
    | Seek(target: Sprite, arrive: bool)
    | Flee(target: Sprite, range: int)
    | PointTowardsTarget(target: Sprite)
    | Fire
    | HealActivity
    | AvoidObstacles(rocks: SpriteList)
    | PointInDirectionOfTravel
  {
    /** The objects `execute` reads besides the agent sprite. */
    function Reads(): set<Sprite> {
      if Seek? || Flee? then {target} else {}
    }

    /** The activities whose bodies are not among the shown files. */
    predicate Opaque() { HealActivity? || AvoidObstacles? || PointInDirectionOfTravel? }

    /** `execute` for the agent `self`, whose current attributes are `v`. */
    method Execute(self: Sprite, env: Env)
      modifies self
      ensures self.View() == old(Step(this, self, self.View(), env))
    {
      match this
      case Seek(target, arrive) =>
        var f := SeekForce(env.ops, self.pos, PosOf(target, self, self.View()), self.vel, arrive, self.maxSpeed, self.maxForce);
        self.forces := self.forces + [f];
      case Flee(target, range) =>
        var at := PosOf(target, self, self.View());
        if Beyond(self.pos, at, range as real) {
          return;
        }
        var f := FleeForce(env.ops, self.pos, at, self.vel, self.maxSpeed, self.maxForce);
        self.forces := self.forces + [f];
      case HealActivity =>
        self.Set(env.effect(OnExecute, this, self.View()));
      case AvoidObstacles(_) =>
        self.Set(env.effect(OnExecute, this, self.View()));
      case PointInDirectionOfTravel =>
        self.Set(env.effect(OnExecute, this, self.View()));
      case BaseActivity =>
      case PointTowardsTarget(_) =>
      case Fire =>
    }

    /** `enter` or `exit`: BaseActivity's no-ops for the shown activities. */
    method RunHook(h: Hook, self: Sprite, env: Env)
      modifies self
      ensures self.View() == old(Hooked(h, this, self.View(), env))
    {
      if Opaque() {
        self.Set(env.effect(h, this, self.View()));
      }
    }
  }

  /** `Seek(target)` with its default `arrive=True`. */
  function SeekTarget(target: Sprite): Activity { Seek(target, true) }

  /** `Flee(target)` with its default `_range=200`. */
  function FleeTarget(target: Sprite): Activity { Flee(target, 200) }

  /** Everything the model takes as given: pyglet's vector operations, the answers of the
      opaque decisions, the effects of the opaque activities on each hook, and the
      effects of the `WaitForPull` state, whose class is not shown. */
  datatype Env = Env(
    ops: Vec2Ops,
    oracle: Oracle,
    effect: (Hook, Activity, Attrs) -> Attrs,
    pull: (Hook, Attrs) -> Attrs)

  /** The attributes after `a.execute` on agent `self` with attributes `v`. */
  function Step(a: Activity, self: Sprite, v: Attrs, env: Env): (r: Attrs)
    reads a.Reads() - {self}
    ensures a.Opaque() ==> r == env.effect(OnExecute, a, v)
    ensures !a.Opaque() ==> OnlyAppends(v, r, 1)
    ensures a.Seek? ==> |r.forces| == |v.forces| + 1
    ensures !a.Seek? && !a.Flee? && !a.Opaque() ==> r == v
  {
    match a
    case Seek(target, arrive) =>
      v.(forces := v.forces + [SeekForce(env.ops, v.pos, PosOf(target, self, v), v.vel, arrive, v.maxSpeed, v.maxForce)])
    case Flee(target, range) =>
      if Beyond(v.pos, PosOf(target, self, v), range as real) then v
      else v.(forces := v.forces + [FleeForce(env.ops, v.pos, PosOf(target, self, v), v.vel, v.maxSpeed, v.maxForce)])
    case HealActivity => env.effect(OnExecute, a, v)
    case AvoidObstacles(_) => env.effect(OnExecute, a, v)
    case PointInDirectionOfTravel => env.effect(OnExecute, a, v)
    case BaseActivity => v
    case PointTowardsTarget(_) => v
    case Fire => v
  }

  /** The attributes after `a.enter` or `a.exit`: the shown activities inherit
      BaseActivity's no-ops. */
  function Hooked(h: Hook, a: Activity, v: Attrs, env: Env): Attrs {
    if a.Opaque() then env.effect(h, a, v) else v
  }

  /** The sprites a list of activities reads. */
  function Targets(acts: seq<Activity>): set<Sprite> {
    set a, s | a in acts && s in a.Reads() :: s
  }

  /** The attributes after executing `acts` in list order. */
  function RunAll(acts: seq<Activity>, self: Sprite, v: Attrs, env: Env): Attrs
    reads Targets(acts) - {self}
    decreases |acts|
  {
    if |acts| == 0 then v
    else
      var n := |acts| - 1;
      assert Targets(acts[..n]) <= Targets(acts) by {
        forall s | s in Targets(acts[..n]) ensures s in Targets(acts) {
          var a :| a in acts[..n] && s in a.Reads();
          assert a in acts;
        }
      }
      Step(acts[n], self, RunAll(acts[..n], self, v, env), env)
  }

  /** The attributes after calling `hook` on every activity of `acts` in list order. */
  function HookAll(h: Hook, acts: seq<Activity>, v: Attrs, env: Env): Attrs
    decreases |acts|
  {
    if |acts| == 0 then v else Hooked(h, acts[|acts| - 1], HookAll(h, acts[..|acts| - 1], v, env), env)
  }

  /** `Seek.execute` appends exactly one force and changes nothing else; with lawful
      vector operations that force is no longer than `max_force`. */
  lemma SeekAppendsOneBoundedForce(target: Sprite, arrive: bool, self: Sprite, v: Attrs, env: Env)
    ensures var r := Step(Seek(target, arrive), self, v, env);
      && |r.forces| == |v.forces| + 1 && r.forces[..|v.forces|] == v.forces
      && r == v.(forces := r.forces)
      && (Lawful(env.ops) && v.maxForce >= 0.0 ==> SqMag(r.forces[|v.forces|]) <= v.maxForce * v.maxForce)
  {
    var r := Step(Seek(target, arrive), self, v, env);
    assert r.forces[..|v.forces|] == v.forces;
    if Lawful(env.ops) && v.maxForce >= 0.0 {
      SeekForceBounded(env.ops, v.pos, PosOf(target, self, v), v.vel, arrive, v.maxSpeed, v.maxForce);
    }
  }

  /** `Flee.execute` appends nothing when the distance `dist` to the target exceeds its
      range, and otherwise exactly one force, no longer than `max_force` under lawful
      vector operations; nothing else changes. */
  lemma FleeAppendsWithinRange(target: Sprite, range: int, self: Sprite, v: Attrs, env: Env, dist: real)
    requires dist >= 0.0 && dist * dist == SqDist(v.pos, PosOf(target, self, v))
    ensures var r := Step(Flee(target, range), self, v, env);
      && (dist > range as real ==> r == v)
      && (dist <= range as real ==>
            && |r.forces| == |v.forces| + 1 && r.forces[..|v.forces|] == v.forces
            && r == v.(forces := r.forces)
            && (Lawful(env.ops) && v.maxForce >= 0.0 ==> SqMag(r.forces[|v.forces|]) <= v.maxForce * v.maxForce))
  {
    BeyondIsStrictDistance(v.pos, PosOf(target, self, v), range as real, dist);
    var r := Step(Flee(target, range), self, v, env);
    if dist <= range as real {
      var f := FleeForce(env.ops, v.pos, PosOf(target, self, v), v.vel, v.maxSpeed, v.maxForce);
      FleeForceMaybeBounded(env.ops, v.pos, PosOf(target, self, v), v.vel, v.maxSpeed, v.maxForce);
      assert r == v.(forces := v.forces + [f]);
      assert r.forces[..|v.forces|] == v.forces && r.forces[|v.forces|] == f;
      assert SqMag(r.forces[|v.forces|]) == SqMag(f);
    } else {
      assert Beyond(v.pos, PosOf(target, self, v), range as real);
    }
  }

  lemma FleeForceMaybeBounded(ops: Vec2Ops, pos: Vec, target: Vec, vel: Vec, maxSpeed: real, maxForce: real)
    ensures Lawful(ops) && maxForce >= 0.0 ==>
      SqMag(FleeForce(ops, pos, target, vel, maxSpeed, maxForce)) <= maxForce * maxForce
  {
    if Lawful(ops) && maxForce >= 0.0 {
      FleeForceBounded(ops, pos, target, vel, maxSpeed, maxForce);
    }
  }

  /** BaseActivity, PointTowardsTargetActivity and FireActivity change nothing on any hook,
      and no shown activity does anything on `enter` or `exit`. */
  lemma InertActivities(target: Sprite, self: Sprite, v: Attrs, env: Env, h: Hook, a: Activity)
    ensures Step(BaseActivity, self, v, env) == v
    ensures Step(PointTowardsTarget(target), self, v, env) == v
    ensures Step(Fire, self, v, env) == v
    ensures !a.Opaque() ==> Hooked(h, a, v, env) == v
  {
  }

  /** `r` is `v` with at most `n` forces appended and nothing else changed. */
  predicate OnlyAppends(v: Attrs, r: Attrs, n: nat) {
    && r == v.(forces := r.forces)
    && |v.forces| <= |r.forces| <= |v.forces| + n
    && r.forces[..|v.forces|] == v.forces
  }

  /** Under lawful vector operations, every force `r` has beyond those of `v` is no longer
      than `v`'s `max_force`. */
  ghost predicate NewForcesBounded(v: Attrs, r: Attrs, ops: Vec2Ops) {
    Lawful(ops) && v.maxForce >= 0.0 ==>
      forall k | |v.forces| <= k < |r.forces| :: SqMag(r.forces[k]) <= v.maxForce * v.maxForce
  }

  lemma AppendsCompose(v: Attrs, m: Attrs, r: Attrs, n: nat, ops: Vec2Ops)
    requires OnlyAppends(v, m, n) && OnlyAppends(m, r, 1)
    requires NewForcesBounded(v, m, ops) && NewForcesBounded(m, r, ops)
    ensures OnlyAppends(v, r, n + 1) && NewForcesBounded(v, r, ops)
  {
    assert r.forces[..|v.forces|] == r.forces[..|m.forces|][..|v.forces|];
    if Lawful(ops) && v.maxForce >= 0.0 {
      forall k | |v.forces| <= k < |r.forces| ensures SqMag(r.forces[k]) <= v.maxForce * v.maxForce {
        if k < |m.forces| {
          assert r.forces[k] == r.forces[..|m.forces|][k] == m.forces[k];
        }
      }
    }
  }

  /** Appending one force no longer than `max_force` only appends, and boundedly. */
  lemma AppendOneBounded(v: Attrs, f: Vec, ops: Vec2Ops)
    requires Lawful(ops) && v.maxForce >= 0.0 ==> SqMag(f) <= v.maxForce * v.maxForce
    ensures OnlyAppends(v, v.(forces := v.forces + [f]), 1) && NewForcesBounded(v, v.(forces := v.forces + [f]), ops)
  {
    var r := v.(forces := v.forces + [f]);
    assert r.forces[..|v.forces|] == v.forces && r.forces[|v.forces|] == f;
  }

  /** Executing one shown activity appends at most one force, no longer than `max_force`
      under lawful vector operations, and changes nothing else. */
  lemma ShownStepAppendsBoundedForce(a: Activity, self: Sprite, v: Attrs, env: Env)
    requires !a.Opaque()
    ensures OnlyAppends(v, Step(a, self, v, env), 1) && NewForcesBounded(v, Step(a, self, v, env), env.ops)
  {
    if a.Seek? {
      SeekAppendsOneBoundedForce(a.target, a.arrive, self, v, env);
    } else if a.Flee? {
      var t := a.target;
      if Beyond(v.pos, PosOf(t, self, v), a.range as real) {
        assert Step(a, self, v, env) == v;
        assert v.forces[..|v.forces|] == v.forces;
      } else {
        FleeForceMaybeBounded(env.ops, v.pos, PosOf(t, self, v), v.vel, v.maxSpeed, v.maxForce);
        AppendOneBounded(v, FleeForce(env.ops, v.pos, PosOf(t, self, v), v.vel, v.maxSpeed, v.maxForce), env.ops);
      }
    } else {
      assert Step(a, self, v, env) == v;
      assert v.forces[..|v.forces|] == v.forces;
    }
  }

  /** Running a list of shown activities only appends forces: one per Seek and at most one
      per Flee, each no longer than `max_force` under lawful vector operations. */
  lemma {:induction false} RunAllOnlyAppendsBoundedForces(acts: seq<Activity>, self: Sprite, v: Attrs, env: Env)
    requires forall a | a in acts :: !a.Opaque()
    ensures OnlyAppends(v, RunAll(acts, self, v, env), |acts|)
    ensures NewForcesBounded(v, RunAll(acts, self, v, env), env.ops)
    decreases |acts|
  {
    if |acts| == 0 {
      assert v.forces[..|v.forces|] == v.forces;
    } else {
      var n := |acts| - 1;
      assert forall b | b in acts[..n] :: !b.Opaque() by {
        forall b | b in acts[..n] ensures !b.Opaque() { assert b in acts; }
      }
      RunAllOnlyAppendsBoundedForces(acts[..n], self, v, env);
      var m := RunAll(acts[..n], self, v, env);
      assert acts[n] in acts;
      ShownStepAppendsBoundedForce(acts[n], self, m, env);
      AppendsCompose(v, m, Step(acts[n], self, m, env), n, env.ops);
    }
  }

  /** With only shown activities in the list, `enter` and `exit` over it do nothing. */
  lemma {:induction false} HookAllOfShownActivities(h: Hook, acts: seq<Activity>, v: Attrs, env: Env)
    requires forall a | a in acts :: !a.Opaque()
    ensures HookAll(h, acts, v, env) == v
    decreases |acts|
  {
    if |acts| > 0 {
      var n := |acts| - 1;
      assert acts[n] in acts;
      assert forall b | b in acts[..n] :: !b.Opaque() by {
        forall b | b in acts[..n] ensures !b.Opaque() { assert b in acts; }
      }
      HookAllOfShownActivities(h, acts[..n], v, env);
    }
  }
}
