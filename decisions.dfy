/** decisions.py: the boolean predicates that guard transitions. Each `decide` only reads
    the agent sprite and the decision's own fields; as Dafny functions they have no
    side effects and their `reads` clauses say what they look at. */
module Decisions {
  import opened Vectors
  import opened Sprites

  datatype Decision =
    | Never                                     // the base `Decision`
    | LowHealth(threshold: int)                 // LowHealthDecision(health)
    | FullHealth                                // FullHealthDecision()
    | WithinRange(target: Sprite, range: int)   // WithinRangeDecision(point, _range)
    | OutOfRange(target: Sprite, range: int)    // OutOfRange(point, _range)
    | TimeElapsed(seconds: real)                // TimeElapsedDecision: its class is not shown
    | TakenDamage(initialHealth: int)           // TakenDamageDecision: its class is not shown
  {
    /** The objects `decide` reads besides the agent sprite. */
    function Reads(): set<Sprite> {
      if WithinRange? || OutOfRange? then {target} else {}
    }

    /** The decisions whose `decide` is not among the shown files. */
    predicate Opaque() { TimeElapsed? || TakenDamage? }
  }

  /** What the decisions whose bodies are not shown answer, given the agent's attributes
      (the wall clock of TimeElapsed is part of this input). */
  type Oracle = (Decision, Attrs) -> bool

  /** The position of `target` while `self`, whose current attributes are `v`, is the
      agent: the agent's own position when the target is the agent itself. */
  function PosOf(target: Sprite, self: Sprite, v: Attrs): Vec
    reads if target == self then {} else {target}
  {
    if target == self then v.pos else target.pos
  }

  /** `decision.decide(state_machine)` for the agent `self` whose attributes are `v`. */
  function Decide(d: Decision, self: Sprite, v: Attrs, oracle: Oracle): (r: bool)
    reads d.Reads() - {self}
    ensures d.Opaque() ==> r == oracle(d, v)
    ensures d.Never? ==> !r
    ensures d.LowHealth? ==> (r <==> v.health < d.threshold)
    ensures d.FullHealth? ==> (r <==> v.health >= v.maxHealth)
    ensures d.WithinRange? && r ==> d.range > 0 && SqDist(v.pos, PosOf(d.target, self, v)) < (d.range * d.range) as real
    ensures d.OutOfRange? && !r ==> d.range >= 0 && SqDist(v.pos, PosOf(d.target, self, v)) <= (d.range * d.range) as real
  {
    match d
    case Never => false
    case LowHealth(threshold) => v.health < threshold
    case FullHealth => v.health >= v.maxHealth
    case WithinRange(target, range) => Within(v.pos, PosOf(target, self, v), range as real)
    case OutOfRange(target, range) => Beyond(v.pos, PosOf(target, self, v), range as real)
    case TimeElapsed(_) => oracle(d, v)
    case TakenDamage(_) => oracle(d, v)
  }

  /** WithinRange is true iff the Euclidean distance `dist` is strictly less than the range. */
  lemma WithinRangeIsStrictDistance(self: Sprite, v: Attrs, target: Sprite, range: int, oracle: Oracle, dist: real)
    requires dist >= 0.0 && dist * dist == SqDist(v.pos, PosOf(target, self, v))
    ensures Decide(WithinRange(target, range), self, v, oracle) <==> dist < range as real
  {
    WithinIsStrictDistance(v.pos, PosOf(target, self, v), range as real, dist);
  }

  /** OutOfRange is true iff the Euclidean distance `dist` is strictly greater than the range. */
  lemma OutOfRangeIsStrictDistance(self: Sprite, v: Attrs, target: Sprite, range: int, oracle: Oracle, dist: real)
    requires dist >= 0.0 && dist * dist == SqDist(v.pos, PosOf(target, self, v))
    ensures Decide(OutOfRange(target, range), self, v, oracle) <==> dist > range as real
  {
    BeyondIsStrictDistance(v.pos, PosOf(target, self, v), range as real, dist);
  }

  /** At exactly the range both decisions are false, and for one target and range they
      are never true together. */
  lemma RangeDecisionsExclusive(self: Sprite, v: Attrs, target: Sprite, range: int, oracle: Oracle, dist: real)
    requires dist >= 0.0 && dist * dist == SqDist(v.pos, PosOf(target, self, v))
    ensures dist == range as real ==>
              !Decide(WithinRange(target, range), self, v, oracle) && !Decide(OutOfRange(target, range), self, v, oracle)
    ensures !(Decide(WithinRange(target, range), self, v, oracle) && Decide(OutOfRange(target, range), self, v, oracle))
  {
    WithinRangeIsStrictDistance(self, v, target, range, oracle, dist);
    OutOfRangeIsStrictDistance(self, v, target, range, oracle, dist);
  }

  /** The base decision is always false; LowHealth is a strict comparison, so health equal
      to the threshold gives false; FullHealth holds from max_health upwards. */
  lemma HealthDecisions(self: Sprite, v: Attrs, threshold: int, oracle: Oracle)
    ensures !Decide(Never, self, v, oracle)
    ensures Decide(LowHealth(threshold), self, v, oracle) <==> v.health < threshold
    ensures v.health == threshold ==> !Decide(LowHealth(threshold), self, v, oracle)
    ensures Decide(FullHealth, self, v, oracle) <==> v.health >= v.maxHealth
  {
  }
}
